/** The worker's flow control: how many work requests each NIC and each of its queue pairs
    has outstanding, and why a NIC below its limit always has a queue pair below its own. */
module FlowControl {

  // Monotone totals, as the worker keeps them. Entry [n][q] is queue pair q of NIC n.
  datatype Counters = Counters(
    nicPosted: seq<nat>, nicDone: seq<nat>,
    qpPosted: seq<seq<nat>>, qpDone: seq<seq<nat>>)

  ghost predicate Shape(f: Counters, nics: nat, qps: nat) {
    && |f.nicPosted| == |f.nicDone| == |f.qpPosted| == |f.qpDone| == nics
    && forall n :: 0 <= n < nics ==> |f.qpPosted[n]| == |f.qpDone[n]| == qps
  }

  ghost function NicOut(f: Counters, n: nat): int
    requires n < |f.nicPosted| && n < |f.nicDone|
  {
    f.nicPosted[n] as int - f.nicDone[n]
  }

  ghost function QpOut(f: Counters, n: nat, q: nat): int
    requires n < |f.qpPosted| && n < |f.qpDone| && q < |f.qpPosted[n]| && q < |f.qpDone[n]|
  {
    f.qpPosted[n][q] as int - f.qpDone[n][q]
  }

  ghost function SumQps(f: Counters, nics: nat, qps: nat, n: nat, q: nat): int
    requires Shape(f, nics, qps) && n < nics && q <= qps
  {
    if q == 0 then 0 else SumQps(f, nics, qps, n, q - 1) + QpOut(f, n, q - 1)
  }

  // NIC outstanding is the sum over its queue pairs; no queue pair is negative or above m.
  ghost predicate Balanced(f: Counters, nics: nat, qps: nat, m: nat) {
    && Shape(f, nics, qps)
    && (forall n :: 0 <= n < nics ==> NicOut(f, n) == SumQps(f, nics, qps, n, qps))
    && (forall n, q :: 0 <= n < nics && 0 <= q < qps ==> 0 <= QpOut(f, n, q) <= m)
  }

  ghost function Idle(nics: nat, qps: nat): Counters {
    var none := seq(nics, _ => seq(qps, _ => 0));
    Counters(seq(nics, _ => 0), seq(nics, _ => 0), none, none)
  }

  ghost function Post(f: Counters, n: nat, q: nat): Counters
    requires n < |f.nicPosted| == |f.qpPosted| && q < |f.qpPosted[n]|
  {
    f.(nicPosted := f.nicPosted[n := f.nicPosted[n] + 1],
       qpPosted := f.qpPosted[n := f.qpPosted[n][q := f.qpPosted[n][q] + 1]])
  }

  ghost function Complete(f: Counters, n: nat, q: nat): Counters
    requires n < |f.nicDone| == |f.qpDone| && q < |f.qpDone[n]|
  {
    f.(nicDone := f.nicDone[n := f.nicDone[n] + 1],
       qpDone := f.qpDone[n := f.qpDone[n][q := f.qpDone[n][q] + 1]])
  }

  lemma {:induction false} SumQpsSame(f: Counters, g: Counters, nics: nat, qps: nat, n: nat, q: nat)
    requires Shape(f, nics, qps) && Shape(g, nics, qps) && n < nics && q <= qps
    requires forall j :: 0 <= j < q ==> QpOut(f, n, j) == QpOut(g, n, j)
    ensures SumQps(f, nics, qps, n, q) == SumQps(g, nics, qps, n, q)
  {
    if q > 0 {
      SumQpsSame(f, g, nics, qps, n, q - 1);
    }
  }

  lemma {:induction false} SumQpsChange(f: Counters, g: Counters, nics: nat, qps: nat, n: nat, at: nat, d: int, q: nat)
    requires Shape(f, nics, qps) && Shape(g, nics, qps) && n < nics && at < q <= qps
    requires forall j :: 0 <= j < q ==> QpOut(g, n, j) == QpOut(f, n, j) + if j == at then d else 0
    ensures SumQps(g, nics, qps, n, q) == SumQps(f, nics, qps, n, q) + d
  {
    if at == q - 1 {
      SumQpsSame(f, g, nics, qps, n, q - 1);
    } else {
      SumQpsChange(f, g, nics, qps, n, at, d, q - 1);
    }
  }

  // A step that moves queue pair (n, q) and NIC n by the same amount keeps the balance.
  lemma MoveKeepsBalance(f: Counters, g: Counters, nics: nat, qps: nat, m: nat, n: nat, q: nat, d: int)
    requires Balanced(f, nics, qps, m) && Shape(g, nics, qps) && n < nics && q < qps
    requires forall i :: 0 <= i < nics ==> NicOut(g, i) == NicOut(f, i) + if i == n then d else 0
    requires forall i, j :: 0 <= i < nics && 0 <= j < qps ==>
      QpOut(g, i, j) == QpOut(f, i, j) + if i == n && j == q then d else 0
    requires 0 <= QpOut(f, n, q) + d <= m
    ensures Balanced(g, nics, qps, m)
  {
    forall i | 0 <= i < nics
      ensures NicOut(g, i) == SumQps(g, nics, qps, i, qps)
    {
      if i == n {
        SumQpsChange(f, g, nics, qps, n, q, d, qps);
      } else {
        SumQpsSame(f, g, nics, qps, i, qps);
      }
    }
  }

  lemma PostKeepsBalance(f: Counters, nics: nat, qps: nat, m: nat, n: nat, q: nat)
    requires Balanced(f, nics, qps, m) && n < nics && q < qps && QpOut(f, n, q) < m
    ensures Balanced(Post(f, n, q), nics, qps, m)
  {
    MoveKeepsBalance(f, Post(f, n, q), nics, qps, m, n, q, 1);
  }

  // A completion of a request that is outstanding on its queue pair.
  lemma CompleteKeepsBalance(f: Counters, nics: nat, qps: nat, m: nat, n: nat, q: nat)
    requires Balanced(f, nics, qps, m) && n < nics && q < qps && 0 < QpOut(f, n, q)
    ensures Balanced(Complete(f, n, q), nics, qps, m)
  {
    MoveKeepsBalance(f, Complete(f, n, q), nics, qps, m, n, q, -1);
  }

  lemma {:induction false} SumQpsZero(f: Counters, nics: nat, qps: nat, n: nat, q: nat)
    requires Shape(f, nics, qps) && n < nics && q <= qps
    requires forall j :: 0 <= j < q ==> QpOut(f, n, j) == 0
    ensures SumQps(f, nics, qps, n, q) == 0
  {
    if q > 0 {
      SumQpsZero(f, nics, qps, n, q - 1);
    }
  }

  lemma IdleBalanced(nics: nat, qps: nat, m: nat)
    ensures Balanced(Idle(nics, qps), nics, qps, m)
  {
    forall n | 0 <= n < nics
      ensures NicOut(Idle(nics, qps), n) == SumQps(Idle(nics, qps), nics, qps, n, qps)
    {
      SumQpsZero(Idle(nics, qps), nics, qps, n, qps);
    }
  }

  lemma {:induction false} SumQpsBounds(f: Counters, nics: nat, qps: nat, m: nat, n: nat, q: nat)
    requires Shape(f, nics, qps) && n < nics && q <= qps
    requires forall j :: 0 <= j < q ==> 0 <= QpOut(f, n, j) <= m
    ensures 0 <= SumQps(f, nics, qps, n, q) <= m * q
    ensures (forall j :: 0 <= j < q ==> QpOut(f, n, j) == m) ==> SumQps(f, nics, qps, n, q) == m * q
  {
    if q > 0 {
      SumQpsBounds(f, nics, qps, m, n, q - 1);
      assert m * q == m * (q - 1) + m;
    }
  }

  // The NIC bound needs no check of its own: it follows from the queue pair bounds.
  lemma NicBound(f: Counters, nics: nat, qps: nat, m: nat, n: nat)
    requires Balanced(f, nics, qps, m) && n < nics
    ensures 0 <= NicOut(f, n) <= m * qps
  {
    SumQpsBounds(f, nics, qps, m, n, qps);
  }

  // The NIC check passes exactly when some queue pair is free: the exits for "no queue
  // pair" behind the NIC check are never taken.
  lemma FreeQpIff(f: Counters, nics: nat, qps: nat, m: nat, n: nat)
    requires Balanced(f, nics, qps, m) && n < nics
    ensures NicOut(f, n) < m * qps <==> exists q :: 0 <= q < qps && QpOut(f, n, q) < m
  {
    SumQpsBounds(f, nics, qps, m, n, qps);
    if q :| 0 <= q < qps && QpOut(f, n, q) < m {
      SumQpsStrict(f, nics, qps, m, n, q, qps);
    }
  }

  lemma {:induction false} SumQpsStrict(f: Counters, nics: nat, qps: nat, m: nat, n: nat, at: nat, q: nat)
    requires Shape(f, nics, qps) && n < nics && at < q <= qps
    requires forall j :: 0 <= j < q ==> 0 <= QpOut(f, n, j) <= m
    requires QpOut(f, n, at) < m
    ensures SumQps(f, nics, qps, n, q) < m * q
  {
    assert m * q == m * (q - 1) + m;
    if at == q - 1 {
      SumQpsBounds(f, nics, qps, m, n, q - 1);
    } else {
      SumQpsStrict(f, nics, qps, m, n, at, q - 1);
    }
  }

  /* ---------- queue pairs of the hardware ---------- */

  // When the peer offers fewer queue pairs than this side is configured for, every logical
  // index past the last real one falls back to real queue pair 0.
  function RealQp(actual: nat, q: nat): (r: nat)
    requires actual > 0
    ensures r < actual
  {
    if q < actual then q else 0
  }

  // What queue pair r of the hardware carries, summed over the logical ones below q.
  ghost function RealOut(f: Counters, nics: nat, qps: nat, actual: nat, n: nat, r: nat, q: nat): int
    requires Shape(f, nics, qps) && n < nics && q <= qps && actual > 0
  {
    if q == 0 then 0
    else RealOut(f, nics, qps, actual, n, r, q - 1) + if RealQp(actual, q - 1) == r then QpOut(f, n, q - 1) else 0
  }

  lemma {:induction false} RealOutSelf(f: Counters, nics: nat, qps: nat, m: nat, n: nat, r: nat, q: nat)
    requires Balanced(f, nics, qps, m) && n < nics && r < qps && q <= qps
    ensures RealOut(f, nics, qps, qps, n, r, q) == if r < q then QpOut(f, n, r) else 0
  {
    if q > 0 {
      RealOutSelf(f, nics, qps, m, n, r, q - 1);
    }
  }

  // The outstanding requests of the logical queue pairs from a up to b.
  ghost function SumFrom(f: Counters, nics: nat, qps: nat, n: nat, a: nat, b: nat): int
    requires Shape(f, nics, qps) && n < nics && a <= b <= qps
    decreases b
  {
    if a == b then 0 else SumFrom(f, nics, qps, n, a, b - 1) + QpOut(f, n, b - 1)
  }

  // Hardware queue pair 0 carries its own requests and those of all indices that the peer does
  // not have; each other one carries its own.
  lemma {:induction false} RealLoad(f: Counters, nics: nat, qps: nat, actual: nat, n: nat, r: nat, q: nat)
    requires Shape(f, nics, qps) && n < nics && 0 < actual <= q <= qps && r < actual
    ensures RealOut(f, nics, qps, actual, n, r, q)
      == QpOut(f, n, r) + if r == 0 then SumFrom(f, nics, qps, n, actual, q) else 0
  {
    if q > actual {
      RealLoad(f, nics, qps, actual, n, r, q - 1);
    } else {
      RealOutOwn(f, nics, qps, actual, n, r, q);
    }
  }

  lemma {:induction false} RealOutOwn(f: Counters, nics: nat, qps: nat, actual: nat, n: nat, r: nat, q: nat)
    requires Shape(f, nics, qps) && n < nics && q <= actual <= qps && r < actual
    ensures RealOut(f, nics, qps, actual, n, r, q) == if r < q then QpOut(f, n, r) else 0
  {
    if q > 0 {
      RealOutOwn(f, nics, qps, actual, n, r, q - 1);
    }
  }

  // Every queue pair of NIC 0 full.
  ghost function Full(qps: nat, m: nat): Counters {
    Counters([m * qps], [0], [seq(qps, _ => m)], [seq(qps, _ => 0)])
  }

  lemma FullBalanced(qps: nat, m: nat)
    ensures Balanced(Full(qps, m), 1, qps, m)
  {
    SumQpsBounds(Full(qps, m), 1, qps, m, 0, qps);
  }

  lemma {:induction false} RealOutFull(qps: nat, m: nat, actual: nat, q: nat)
    requires 0 < actual < q <= qps
    ensures RealOut(Full(qps, m), 1, qps, actual, 0, 0, q) >= 2 * m
  {
    if q - 1 > actual {
      RealOutFull(qps, m, actual, q - 1);
    } else {
      RealOutFirst(qps, m, actual, actual);
    }
  }

  lemma {:induction false} RealOutFirst(qps: nat, m: nat, actual: nat, q: nat)
    requires 0 < q <= actual <= qps
    ensures RealOut(Full(qps, m), 1, qps, actual, 0, 0, q) >= m
  {
    if q > 1 {
      RealOutFirst(qps, m, actual, q - 1);
    } else {
      assert RealOut(Full(qps, m), 1, qps, actual, 0, 0, 0) == 0;
    }
  }

  // The per-queue-pair bound holds of the hardware queue pairs exactly when the peer offers
  // as many as configured: with fewer, a balanced state overloads queue pair 0.
  lemma HardwareQpBoundIff(qps: nat, m: nat, actual: nat)
    requires 0 < actual <= qps && m > 0
    ensures (forall f: Counters, r: nat :: Balanced(f, 1, qps, m) && r < actual ==>
               RealOut(f, 1, qps, actual, 0, r, qps) <= m)
      <==> actual == qps
  {
    if actual == qps {
      forall f: Counters, r: nat | Balanced(f, 1, qps, m) && r < actual
        ensures RealOut(f, 1, qps, actual, 0, r, qps) <= m
      {
        RealOutSelf(f, 1, qps, m, 0, r, qps);
      }
    } else {
      FullBalanced(qps, m);
      RealOutFull(qps, m, actual, qps);
      assert RealOut(Full(qps, m), 1, qps, actual, 0, 0, qps) > m;
    }
  }

  // Two queue pairs configured, one offered, one request allowed on each: it carries two.
  lemma TwoOnOneQp()
    ensures Balanced(Full(2, 1), 1, 2, 1) && RealOut(Full(2, 1), 1, 2, 1, 0, 0, 2) == 2
  {
    FullBalanced(2, 1);
    assert RealOut(Full(2, 1), 1, 2, 1, 0, 0, 0) == 0;
    assert RealOut(Full(2, 1), 1, 2, 1, 0, 0, 1) == 1;
  }

  /* ---------- the worker's arrays ---------- */

  lemma SameCounters(f: Counters, g: Counters)
    requires f.nicPosted == g.nicPosted && f.nicDone == g.nicDone
    requires |f.qpPosted| == |g.qpPosted| && |f.qpDone| == |g.qpDone|
    requires forall n :: 0 <= n < |f.qpPosted| ==>
      |f.qpPosted[n]| == |g.qpPosted[n]|
      && forall q :: 0 <= q < |f.qpPosted[n]| ==> f.qpPosted[n][q] == g.qpPosted[n][q]
    requires forall n :: 0 <= n < |f.qpDone| ==>
      |f.qpDone[n]| == |g.qpDone[n]| && forall q :: 0 <= q < |f.qpDone[n]| ==> f.qpDone[n][q] == g.qpDone[n][q]
    ensures f == g
  {
    forall n | 0 <= n < |f.qpPosted|
      ensures f.qpPosted[n] == g.qpPosted[n]
    {
    }
    forall n | 0 <= n < |f.qpDone|
      ensures f.qpDone[n] == g.qpDone[n]
    {
    }
    assert f.qpPosted == g.qpPosted && f.qpDone == g.qpDone;
  }

  class WorkerCounters {
    const nics: nat
    const qps: nat
    const m: nat
    const nicPosted: array<nat>
    const nicDone: array<nat>
    const qpPosted: array2<nat>
    const qpDone: array2<nat>

    ghost predicate Sized() {
      && nicPosted.Length == nicDone.Length == nics
      && qpPosted.Length0 == qpDone.Length0 == nics
      && qpPosted.Length1 == qpDone.Length1 == qps
      && nicPosted != nicDone && qpPosted != qpDone
    }

    ghost function View(): (f: Counters)
      requires Sized()
      reads nicPosted, nicDone, qpPosted, qpDone
      ensures Shape(f, nics, qps)
    {
      Counters(nicPosted[..], nicDone[..],
               seq(nics, n requires 0 <= n < nics && Sized() reads qpPosted =>
                     seq(qps, q requires 0 <= q < qps reads qpPosted => qpPosted[n, q])),
               seq(nics, n requires 0 <= n < nics && Sized() reads qpDone =>
                     seq(qps, q requires 0 <= q < qps reads qpDone => qpDone[n, q])))
    }

    ghost predicate Valid()
      reads nicPosted, nicDone, qpPosted, qpDone
    {
      Sized() && Balanced(View(), nics, qps, m)
    }

    constructor (nics: nat, qps: nat, m: nat)
      ensures Valid() && this.nics == nics && this.qps == qps && this.m == m
      ensures View() == Idle(nics, qps)
    {
      this.nics, this.qps, this.m := nics, qps, m;
      nicPosted := new nat[nics](_ => 0);
      nicDone := new nat[nics](_ => 0);
      qpPosted := new nat[nics, qps]((_, _) => 0);
      qpDone := new nat[nics, qps]((_, _) => 0);
      new;
      IdleBalanced(nics, qps, m);
      SameCounters(View(), Idle(nics, qps));
    }

    // The queue pair with the fewest outstanding requests among those below the bound,
    // the first such when several tie.
    method SelectQp(n: nat) returns (found: bool, qp: nat)
      requires Valid() && n < nics
      ensures found <==> NicOut(View(), n) < m * qps
      ensures found ==> qp < qps && QpOut(View(), n, qp) < m
      ensures found ==> forall q :: 0 <= q < qps ==> QpOut(View(), n, qp) <= QpOut(View(), n, q)
      ensures found ==> forall q :: 0 <= q < qp ==> QpOut(View(), n, qp) < QpOut(View(), n, q)
    {
      FreeQpIff(View(), nics, qps, m, n);
      found, qp := false, 0;
      var least := 0;
      for q := 0 to qps
        invariant found <==> exists j :: 0 <= j < q && QpOut(View(), n, j) < m
        invariant found ==> qp < q && least == QpOut(View(), n, qp) < m
        invariant found ==> forall j :: 0 <= j < q ==> least <= QpOut(View(), n, j)
        invariant found ==> forall j :: 0 <= j < qp ==> least < QpOut(View(), n, j)
      {
        var out := qpPosted[n, q] - qpDone[n, q];
        assert out == QpOut(View(), n, q);
        if out < m && (!found || out < least) {
          least, qp, found := out, q, true;
        }
      }
    }

    method RecordPost(n: nat, q: nat)
      requires Valid() && n < nics && q < qps && QpOut(View(), n, q) < m
      modifies nicPosted, qpPosted
      ensures Valid() && View() == Post(old(View()), n, q)
    {
      PostKeepsBalance(View(), nics, qps, m, n, q);
      nicPosted[n] := nicPosted[n] + 1;
      qpPosted[n, q] := qpPosted[n, q] + 1;
      SameCounters(View(), Post(old(View()), n, q));
    }

    method RecordCompletion(n: nat, q: nat)
      requires Valid() && n < nics && q < qps && 0 < QpOut(View(), n, q)
      modifies nicDone, qpDone
      ensures Valid() && View() == Complete(old(View()), n, q)
    {
      CompleteKeepsBalance(View(), nics, qps, m, n, q);
      nicDone[n] := nicDone[n] + 1;
      qpDone[n, q] := qpDone[n, q] + 1;
      SameCounters(View(), Complete(old(View()), n, q));
    }
  }
}

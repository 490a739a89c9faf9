/** The queue-pair handshake of connect and acceptLoop: two automata over two first-in
    first-out channels. The active end's transitions to RTR or RTS may fail for any queue
    pair of any attempt; the passive end's operations succeed. */
module Handshake {
  import opened NicMatching

  // attempts is what the active end goes through; fails(i, q) says whether its queue pair
  // q of attempt i cannot be brought up; qps is the smaller of the two ends' numbers.
  datatype Config = Config(attempts: seq<Pair>, targets: nat -> seq<nat>, qps: nat, fails: (nat, nat) -> bool)

  ghost predicate ConfigOk(c: Config) {
    && c.qps > 0
    && (forall i, j :: 0 <= i < j < |c.attempts| ==>
          c.attempts[i].local <= c.attempts[j].local && c.attempts[i] != c.attempts[j])
    && (forall i :: 0 <= i < |c.attempts| ==> c.attempts[i].remote in c.targets(c.attempts[i].local))
    && (forall l: nat, r :: r in c.targets(l) ==>
          (exists i :: 0 <= i < |c.attempts| && c.attempts[i] == Pair(l, r)) || Untried(c, l))
  }

  ghost predicate Untried(c: Config, l: nat) {
    forall i :: 0 <= i < |c.attempts| ==> c.attempts[i].local != l
  }

  // A queue pair of this end and the number of its peer.
  datatype QpPair = QpPair(own: nat, peer: nat)

  // What the active end sends: a queue pair's number with the two NIC indices, and how
  // bringing it up went. The passive end sends queue pair numbers only.
  datatype Message = Info(target: nat, source: nat, qp: nat) | Status(ok: bool)

  datatype ActivePhase = Sending | Waiting(qp: nat)
  datatype Active = Active(
    k: nat, j: nat, phase: ActivePhase, nextQp: nat,
    qps: seq<QpPair>, conn: map<Pair, seq<QpPair>>, nicMap: map<nat, seq<nat>>)

  datatype PassivePhase = Listening | Replied(own: nat, peer: nat)
  datatype Passive = Passive(
    n: nat, j: nat, cur: Pair, phase: PassivePhase, nextQp: nat,
    qps: seq<QpPair>, conn: map<Pair, seq<QpPair>>, nicMap: map<nat, seq<nat>>, ok: bool)

  datatype State = State(a: Active, p: Passive, toP: seq<Message>, toA: seq<nat>)

  /* ---------- the active end ---------- */

  // Whether attempt k is the first of its local NIC, which sets the NIC's map entry.
  predicate FirstOfNic(c: Config, k: nat)
    requires k < |c.attempts|
  {
    k == 0 || c.attempts[k - 1].local != c.attempts[k].local
  }

  function Remove(s: seq<nat>, x: nat): (r: seq<nat>)
    ensures forall y :: y in r <==> y in s && y != x
  {
    if s == [] then [] else (if s[0] == x then [] else [s[0]]) + Remove(s[1..], x)
  }

  function Entry(m: map<nat, seq<nat>>, l: nat): seq<nat> {
    if l in m then m[l] else []
  }

  function Send(c: Config, s: State): State
    requires s.a.phase.Sending? && s.a.k < |c.attempts|
  {
    var a := s.a;
    var at := c.attempts[a.k];
    var nicMap := if a.j == 0 && FirstOfNic(c, a.k) then a.nicMap[at.local := c.targets(at.local)] else a.nicMap;
    s.(a := a.(phase := Waiting(a.nextQp), nextQp := a.nextQp + 1, nicMap := nicMap),
       toP := s.toP + [Info(at.remote, at.local, a.nextQp)])
  }

  // The reply arrives: bring the queue pair up, report, and go on.
  function BringUp(c: Config, a: Active, peer: nat): Active
    requires a.phase.Waiting? && a.k < |c.attempts|
  {
    var at := c.attempts[a.k];
    var qps := a.qps + [QpPair(a.phase.qp, peer)];
    if c.fails(a.k, a.j) then
      a.(k := a.k + 1, j := 0, phase := Sending, qps := [],
         nicMap := a.nicMap[at.local := Remove(Entry(a.nicMap, at.local), at.remote)])
    else if a.j + 1 < c.qps then a.(j := a.j + 1, phase := Sending, qps := qps)
    else a.(k := a.k + 1, j := 0, phase := Sending, qps := [], conn := a.conn[at := qps])
  }

  function ReceiveReply(c: Config, s: State): State
    requires s.a.phase.Waiting? && s.a.k < |c.attempts| && s.toA != []
  {
    s.(a := BringUp(c, s.a, s.toA[0]), toA := s.toA[1..], toP := s.toP + [Status(!c.fails(s.a.k, s.a.j))])
  }

  /* ---------- the passive end ---------- */

  // A queue pair's info, with the pair of NICs read from the first of each connection.
  function Answer(p: Passive, m: Message): Passive {
    match m
    case Status(_) => p.(ok := false)   // out of step
    case Info(target, source, qp) =>
      p.(cur := if p.j == 0 then Pair(source, target) else p.cur, phase := Replied(p.nextQp, qp),
         nextQp := p.nextQp + 1)
  }

  function Learn(c: Config, p: Passive, m: Message): Passive
    requires p.phase.Replied?
  {
    match m
    case Info(_, _, _) => p.(ok := false)
    case Status(ok) =>
      var qps := p.qps + [QpPair(p.phase.own, p.phase.peer)];
      if !ok then p.(n := p.n + 1, j := 0, phase := Listening, qps := [])
      else if p.j + 1 < c.qps then p.(j := p.j + 1, phase := Listening, qps := qps)
      else
        p.(n := p.n + 1, j := 0, phase := Listening, qps := [], conn := p.conn[p.cur := qps],
           nicMap := p.nicMap[p.cur.remote := Entry(p.nicMap, p.cur.remote) + [p.cur.local]])
  }

  function Hear(c: Config, s: State): State
    requires s.toP != []
  {
    match s.p.phase
    case Listening =>
      s.(p := Answer(s.p, s.toP[0]), toP := s.toP[1..], toA := if s.toP[0].Info? then s.toA + [s.p.nextQp] else s.toA)
    case Replied(_, _) => s.(p := Learn(c, s.p, s.toP[0]), toP := s.toP[1..])
  }

  /* ---------- steps ---------- */

  datatype Step = ActiveSends | ActiveReceives | PassiveReceives

  // expected is the number that the passive end counted beforehand.
  predicate Enabled(c: Config, s: State, step: Step) {
    match step
    case ActiveSends => s.a.phase.Sending? && s.a.k < |c.attempts|
    case ActiveReceives => s.a.phase.Waiting? && s.a.k < |c.attempts| && s.toA != []
    case PassiveReceives => s.p.ok && s.p.n < |c.attempts| && s.toP != []
  }

  function Next(c: Config, s: State, step: Step): State
    requires Enabled(c, s, step)
  {
    match step
    case ActiveSends => Send(c, s)
    case ActiveReceives => ReceiveReply(c, s)
    case PassiveReceives => Hear(c, s)
  }

  function Init(): State {
    State(Active(0, 0, Sending, 0, [], map[], map[]),
          Passive(0, 0, Pair(0, 0), Listening, 0, [], map[], map[], true), [], [])
  }

  /* ---------- lockstep ---------- */

  // Attempt i brings up all its queue pairs.
  ghost predicate Succeeds(c: Config, i: nat) {
    forall q: nat :: q < c.qps ==> !c.fails(i, q)
  }

  ghost predicate InMap(m: map<nat, seq<nat>>, l: nat, r: nat) {
    l in m && r in m[l]
  }

  ghost predicate Swapped(x: seq<QpPair>, y: seq<QpPair>) {
    && |x| == |y|
    && forall i :: 0 <= i < |x| ==> x[i].own == y[i].peer && x[i].peer == y[i].own
  }

  ghost predicate Tried(c: Config, k: nat, at: Pair) {
    exists i: nat :: i < k && i < |c.attempts| && c.attempts[i] == at && Succeeds(c, i)
  }

  // Connections so far are the attempts that succeeded, with all their queue pairs,
  // paired index by index.
  ghost predicate ConnsOk(c: Config, k: nat, a: map<Pair, seq<QpPair>>, p: map<Pair, seq<QpPair>>) {
    && (forall at :: at in a <==> Tried(c, k, at))
    && (forall at :: at in p <==> at in a)
    && (forall at :: at in a ==> |a[at]| == c.qps && Swapped(a[at], p[at]))
  }

  ghost predicate ActiveMapOk(c: Config, a: Active) {
    && (forall i: nat :: i < a.k && i < |c.attempts| ==>
          (InMap(a.nicMap, c.attempts[i].local, c.attempts[i].remote) <==> Succeeds(c, i)))
    && (forall l, r :: InMap(a.nicMap, l, r) ==> exists i: nat :: i < |c.attempts| && c.attempts[i] == Pair(l, r))
    && (a.k < |c.attempts| && !(FirstOfNic(c, a.k) && a.j == 0 && a.phase.Sending?) ==>
          forall i: nat :: a.k <= i < |c.attempts| && c.attempts[i].local == c.attempts[a.k].local ==>
            InMap(a.nicMap, c.attempts[i].local, c.attempts[i].remote))
  }

  ghost predicate PassiveMapOk(c: Config, k: nat, m: map<nat, seq<nat>>) {
    forall l, r :: InMap(m, r, l) <==> Tried(c, k, Pair(l, r))
  }

  // The attempt under way has not failed so far.
  ghost predicate ProgressOk(c: Config, a: Active) {
    && a.k <= |c.attempts| && a.j < c.qps && |a.qps| == a.j
    && (a.k == |c.attempts| ==> a.j == 0 && a.phase.Sending?)
    && forall q: nat :: q < a.j ==> !c.fails(a.k, q)
  }

  // The two ends agree, given what is on its way.
  ghost predicate Mirror(c: Config, a: Active, p: Passive, toP: seq<Message>, toA: seq<nat>) {
    && p.ok && p.n == a.k && p.j == a.j && Swapped(a.qps, p.qps)
    && ProgressOk(c, a)
    && (p.n < |c.attempts| && (p.j > 0 || p.phase.Replied?) ==> p.cur == c.attempts[p.n])
    && match a.phase
       case Sending => p.phase.Listening? && toP == [] && toA == []
       case Waiting(q) =>
         && a.k < |c.attempts|
         && if p.phase.Listening? then toP == [Info(c.attempts[a.k].remote, c.attempts[a.k].local, q)] && toA == []
            else toP == [] && toA == [p.phase.own] && p.phase.peer == q
  }

  // A status on its way, which the passive end has yet to take in.
  ghost predicate Lag(s: State) {
    s.toP != [] && s.toP[0].Status? && s.p.phase.Replied?
  }

  ghost function Caught(c: Config, s: State): Passive {
    if Lag(s) then Learn(c, s.p, s.toP[0]) else s.p
  }

  ghost function Rest(s: State): seq<Message> {
    if Lag(s) then s.toP[1..] else s.toP
  }

  ghost predicate Maps(c: Config, a: Active, p: Passive) {
    ConnsOk(c, a.k, a.conn, p.conn) && ActiveMapOk(c, a) && PassiveMapOk(c, a.k, p.nicMap)
  }

  ghost predicate Inv(c: Config, s: State) {
    && ConfigOk(c)
    && Mirror(c, s.a, Caught(c, s), Rest(s), s.toA)
    && Maps(c, s.a, Caught(c, s))
    && (Lag(s) ==> s.p.ok && s.p.n < |c.attempts|)
  }

  lemma InitInv(c: Config)
    requires ConfigOk(c)
    ensures Inv(c, Init())
  {
  }

  lemma TriedNext(c: Config, k: nat, at: Pair)
    requires k < |c.attempts|
    ensures Tried(c, k + 1, at) <==> Tried(c, k, at) || (at == c.attempts[k] && Succeeds(c, k))
  {
    if Tried(c, k + 1, at) {
      var i: nat :| i < k + 1 && i < |c.attempts| && c.attempts[i] == at && Succeeds(c, i);
      assert i < k ==> Tried(c, k, at);
    }
    if Tried(c, k, at) {
      var i: nat :| i < k && i < |c.attempts| && c.attempts[i] == at && Succeeds(c, i);
      assert i < k + 1;
    }
  }

  /* ---------- the active end sends ---------- */

  // The first attempt of a local NIC enters its targets in the map; none of its attempts
  // came before.
  lemma EntryMade(c: Config, a: Active, m: map<nat, seq<nat>>)
    requires ConfigOk(c) && ActiveMapOk(c, a) && a.k < |c.attempts| && FirstOfNic(c, a.k)
    requires m == a.nicMap[c.attempts[a.k].local := c.targets(c.attempts[a.k].local)]
    ensures forall i: nat :: i < a.k ==>
      (InMap(m, c.attempts[i].local, c.attempts[i].remote) <==> Succeeds(c, i))
    ensures forall l, r :: InMap(m, l, r) ==> exists i: nat :: i < |c.attempts| && c.attempts[i] == Pair(l, r)
    ensures forall i: nat :: a.k <= i < |c.attempts| && c.attempts[i].local == c.attempts[a.k].local ==>
      InMap(m, c.attempts[i].local, c.attempts[i].remote)
  {
    hide Succeeds;
    var at := c.attempts[a.k];
    forall i: nat | i < a.k
      ensures c.attempts[i].local != at.local
      ensures InMap(m, c.attempts[i].local, c.attempts[i].remote) <==> Succeeds(c, i)
    {
      assert c.attempts[i].local <= c.attempts[a.k - 1].local <= at.local;
    }
    assert !Untried(c, at.local);
    forall l, r | InMap(m, l, r)
      ensures exists i: nat :: i < |c.attempts| && c.attempts[i] == Pair(l, r)
    {
      assert l != at.local ==> InMap(a.nicMap, l, r);
    }
  }

  lemma SendMap(c: Config, s: State)
    requires ConfigOk(c) && ActiveMapOk(c, s.a) && Enabled(c, s, ActiveSends)
    ensures ActiveMapOk(c, Send(c, s).a)
  {
    hide ConfigOk, Succeeds, InMap;
    if s.a.j == 0 && FirstOfNic(c, s.a.k) {
      EntryMade(c, s.a, Send(c, s).a.nicMap);
    }
  }

  lemma SendInv(c: Config, s: State)
    requires Inv(c, s) && Enabled(c, s, ActiveSends)
    ensures Inv(c, Next(c, s, ActiveSends))
  {
    hide ActiveMapOk, ConnsOk, PassiveMapOk, Swapped, ProgressOk, Learn, ConfigOk;
    var s' := Next(c, s, ActiveSends);
    SendProgress(c, s);
    SendMap(c, s);
    assert Rest(s) == [];
    assert Lag(s) ==> s.toP == [s.toP[0]];
    assert Caught(c, s') == Caught(c, s);
  }

  lemma SendProgress(c: Config, s: State)
    requires ProgressOk(c, s.a) && Enabled(c, s, ActiveSends)
    ensures ProgressOk(c, Send(c, s).a)
  {
  }

  /* ---------- the active end brings a queue pair up ---------- */

  lemma BringUpProgress(c: Config, a: Active, peer: nat)
    requires ConfigOk(c) && ProgressOk(c, a) && a.phase.Waiting? && a.k < |c.attempts|
    ensures ProgressOk(c, BringUp(c, a, peer))
  {
  }

  // The outcome of the attempt is known when it ends.
  lemma Decided(c: Config, a: Active)
    requires ProgressOk(c, a)
    ensures c.fails(a.k, a.j) ==> !Succeeds(c, a.k)
    ensures !c.fails(a.k, a.j) && a.j + 1 == c.qps ==> Succeeds(c, a.k)
  {
  }

  // A failed attempt's pair leaves the map, and no other does.
  lemma PairLeaves(m: map<nat, seq<nat>>, at: Pair)
    requires InMap(m, at.local, at.remote)
    ensures var m' := m[at.local := Remove(Entry(m, at.local), at.remote)];
      forall l, r :: InMap(m', l, r) <==> InMap(m, l, r) && Pair(l, r) != at
  {
    hide Remove;
  }

  // The map after an attempt that ended: k is decided.
  lemma MapDecided(c: Config, a: Active, m: map<nat, seq<nat>>, failed: bool)
    requires ConfigOk(c) && ActiveMapOk(c, a) && a.phase.Waiting? && a.k < |c.attempts|
    requires forall l, r :: InMap(m, l, r) <==> InMap(a.nicMap, l, r) && !(failed && Pair(l, r) == c.attempts[a.k])
    requires failed <==> !Succeeds(c, a.k)
    ensures forall i: nat :: i <= a.k ==> (InMap(m, c.attempts[i].local, c.attempts[i].remote) <==> Succeeds(c, i))
    ensures forall l, r :: InMap(m, l, r) ==> exists i: nat :: i < |c.attempts| && c.attempts[i] == Pair(l, r)
    ensures forall i: nat :: a.k < i < |c.attempts| && c.attempts[i].local == c.attempts[a.k].local ==>
      InMap(m, c.attempts[i].local, c.attempts[i].remote)
  {
    hide Succeeds, InMap;
  }

  lemma BringUpActiveMap(c: Config, a: Active, peer: nat)
    requires ConfigOk(c) && ProgressOk(c, a) && ActiveMapOk(c, a) && a.phase.Waiting? && a.k < |c.attempts|
    ensures ActiveMapOk(c, BringUp(c, a, peer))
  {
    hide Succeeds, ProgressOk, InMap, ConfigOk, Remove;
    Decided(c, a);
    EndedInTurn(c, a);
    var a' := BringUp(c, a, peer);
    if c.fails(a.k, a.j) {
      PairLeaves(a.nicMap, c.attempts[a.k]);
      MapDecided(c, a, a'.nicMap, true);
    } else if a.j + 1 >= c.qps {
      MapDecided(c, a, a'.nicMap, false);
    }
  }

  lemma EndedInTurn(c: Config, a: Active)
    requires ProgressOk(c, a)
    ensures a.j + 1 <= c.qps
  {
  }

  // The passive end enters the pair of a finished connection.
  lemma PairEnters(m: map<nat, seq<nat>>, at: Pair)
    ensures var m' := m[at.remote := Entry(m, at.remote) + [at.local]];
      forall l, r :: InMap(m', r, l) <==> InMap(m, r, l) || Pair(l, r) == at
  {
  }

  // One more attempt has succeeded.
  lemma DecidedConns(c: Config, k: nat, a: map<Pair, seq<QpPair>>, p: map<Pair, seq<QpPair>>, m: map<nat, seq<nat>>,
                     qs: seq<QpPair>, rs: seq<QpPair>)
    requires k < |c.attempts| && ConnsOk(c, k, a, p) && PassiveMapOk(c, k, m)
    requires |qs| == c.qps && Swapped(qs, rs) && Succeeds(c, k)
    ensures var at := c.attempts[k];
      && ConnsOk(c, k + 1, a[at := qs], p[at := rs])
      && PassiveMapOk(c, k + 1, m[at.remote := Entry(m, at.remote) + [at.local]])
  {
    hide Succeeds, Tried, Swapped, InMap;
    forall at
      ensures Tried(c, k + 1, at) <==> Tried(c, k, at) || (at == c.attempts[k] && Succeeds(c, k))
    {
      TriedNext(c, k, at);
    }
    PairEnters(m, c.attempts[k]);
    var at := c.attempts[k];
    var a', p' := a[at := qs], p[at := rs];
    assert forall x :: x in a' <==> Tried(c, k + 1, x);
    assert forall x :: x in p' <==> x in a';
    assert forall x :: x in a' ==> |a'[x]| == c.qps;
    assert forall x :: x in a' ==> Swapped(a'[x], p'[x]);
  }

  lemma SwappedNext(x: seq<QpPair>, y: seq<QpPair>, own: nat, peer: nat)
    requires Swapped(x, y)
    ensures Swapped(x + [QpPair(own, peer)], y + [QpPair(peer, own)])
  {
  }

  lemma BringUpConns(c: Config, a: Active, p: Passive, peer: nat)
    requires ConfigOk(c) && ProgressOk(c, a) && a.phase.Waiting? && a.k < |c.attempts|
    requires ConnsOk(c, a.k, a.conn, p.conn) && PassiveMapOk(c, a.k, p.nicMap)
    requires Swapped(a.qps, p.qps) && p.j == a.j && p.phase == Replied(peer, a.phase.qp) && p.cur == c.attempts[a.k]
    ensures var a' := BringUp(c, a, peer); var p' := Learn(c, p, Status(!c.fails(a.k, a.j)));
      ConnsOk(c, a'.k, a'.conn, p'.conn) && PassiveMapOk(c, a'.k, p'.nicMap) && Swapped(a'.qps, p'.qps)
  {
    hide Succeeds, ConnsOk, PassiveMapOk, Swapped, ConfigOk;
    Decided(c, a);
    var qs, rs := a.qps + [QpPair(a.phase.qp, peer)], p.qps + [QpPair(peer, a.phase.qp)];
    SwappedNext(a.qps, p.qps, a.phase.qp, peer);
    SwappedNone();
    if c.fails(a.k, a.j) {
      FailedConns(c, a.k, a.conn, p.conn, p.nicMap);
    } else if a.j + 1 >= c.qps {
      DecidedConns(c, a.k, a.conn, p.conn, p.nicMap, qs, rs);
    }
  }

  lemma SwappedNone()
    ensures Swapped([], [])
  {
  }

  lemma FailedConns(c: Config, k: nat, a: map<Pair, seq<QpPair>>, p: map<Pair, seq<QpPair>>, m: map<nat, seq<nat>>)
    requires k < |c.attempts| && ConnsOk(c, k, a, p) && PassiveMapOk(c, k, m) && !Succeeds(c, k)
    ensures ConnsOk(c, k + 1, a, p) && PassiveMapOk(c, k + 1, m)
  {
    hide Succeeds, Tried, Swapped, InMap;
    forall at
      ensures Tried(c, k + 1, at) <==> Tried(c, k, at)
    {
      TriedNext(c, k, at);
    }
  }

  lemma ReceiveInv(c: Config, s: State)
    requires Inv(c, s) && Enabled(c, s, ActiveReceives)
    ensures Inv(c, Next(c, s, ActiveReceives))
  {
    hide ActiveMapOk, ConnsOk, PassiveMapOk, Swapped, ConfigOk;
    assert !Lag(s);
    var s' := Next(c, s, ActiveReceives);
    BringUpProgress(c, s.a, s.toA[0]);
    BringUpActiveMap(c, s.a, s.toA[0]);
    BringUpConns(c, s.a, s.p, s.toA[0]);
    assert s'.toP == [Status(!c.fails(s.a.k, s.a.j))] && Rest(s') == [];
  }

  lemma HearInv(c: Config, s: State)
    requires Inv(c, s) && Enabled(c, s, PassiveReceives)
    ensures Inv(c, Next(c, s, PassiveReceives))
  {
    hide ActiveMapOk, ConnsOk, PassiveMapOk, Swapped, ConfigOk, ProgressOk;
    var s' := Next(c, s, PassiveReceives);
    if Lag(s) {
      assert s'.toP == Rest(s);
      assert !Lag(s');
    } else {
      assert s.p.phase.Listening?;
      assert s'.toP == [] && s'.toA == [s.p.nextQp];
    }
  }

  // No interleaving gets the two ends out of step.
  lemma StepInv(c: Config, s: State, step: Step)
    requires Inv(c, s) && Enabled(c, s, step)
    ensures Inv(c, Next(c, s, step))
  {
    hide Inv, Next;
    match step
    case ActiveSends => SendInv(c, s);
    case ActiveReceives => ReceiveInv(c, s);
    case PassiveReceives => HearInv(c, s);
  }

  /* ---------- never blocked, and done after boundedly many steps ---------- */

  ghost predicate Final(c: Config, s: State) {
    s.a.k == |c.attempts| && s.p.n == |c.attempts| && s.toP == [] && s.toA == []
  }

  // As long as one end has not come to its end, some end can go on; and when both have,
  // nothing is left on its way.
  lemma NeverBlocked(c: Config, s: State)
    requires Inv(c, s)
    ensures Final(c, s) <==> forall step :: !Enabled(c, s, step)
    ensures s.p.ok
  {
    hide ActiveMapOk, ConnsOk, PassiveMapOk, Swapped, ConfigOk;
    if s.toP != [] {
      assert Enabled(c, s, PassiveReceives);
    } else if s.toA != [] {
      assert Enabled(c, s, ActiveReceives);
    } else if s.a.k < |c.attempts| {
      assert Enabled(c, s, ActiveSends);
    }
  }

  function Times(a: nat, b: nat): nat {
    if a == 0 then 0 else Times(a - 1, b) + b
  }

  lemma {:induction false} TimesIs(a: nat, b: nat)
    ensures Times(a, b) == a * b
  {
    if a > 0 {
      TimesIs(a - 1, b);
      assert a * b == (a - 1) * b + b;
    }
  }

  // Queue pairs still to be set up, from the active end's point of view.
  ghost function ToSetUp(c: Config, a: Active): nat {
    if a.k < |c.attempts| && a.j < c.qps then Times(|c.attempts| - a.k - 1, c.qps) + (c.qps - a.j) else 0
  }

  ghost function Measure(c: Config, s: State): nat {
    6 * ToSetUp(c, s.a) + 2 * |s.toP| + |s.toA| + if s.a.phase.Sending? then 3 else 0
  }

  lemma SetUpFalls(c: Config, a: Active, peer: nat)
    requires ConfigOk(c) && ProgressOk(c, a) && a.phase.Waiting? && a.k < |c.attempts|
    ensures ToSetUp(c, BringUp(c, a, peer)) < ToSetUp(c, a)
  {
  }

  lemma StepMeasure(c: Config, s: State, step: Step)
    requires Inv(c, s) && Enabled(c, s, step)
    ensures Measure(c, Next(c, s, step)) < Measure(c, s)
  {
    hide ActiveMapOk, ConnsOk, PassiveMapOk, Swapped, ConfigOk, ToSetUp;
    match step
    case ActiveSends => SetUpSame(c, s.a, Send(c, s).a);
    case ActiveReceives => SetUpFalls(c, s.a, s.toA[0]);
    case PassiveReceives =>
  }

  lemma SetUpSame(c: Config, a: Active, a': Active)
    requires a'.k == a.k && a'.j == a.j
    ensures ToSetUp(c, a') == ToSetUp(c, a)
  {
  }

  ghost predicate IsRun(c: Config, s: State, steps: seq<Step>)
    decreases |steps|
  {
    steps == [] || (Enabled(c, s, steps[0]) && IsRun(c, Next(c, s, steps[0]), steps[1..]))
  }

  ghost function After(c: Config, s: State, steps: seq<Step>): State
    requires IsRun(c, s, steps)
    decreases |steps|
  {
    if steps == [] then s else After(c, Next(c, s, steps[0]), steps[1..])
  }

  lemma {:induction false} RunInv(c: Config, s: State, steps: seq<Step>)
    requires Inv(c, s) && IsRun(c, s, steps)
    ensures Inv(c, After(c, s, steps)) && |steps| + Measure(c, After(c, s, steps)) <= Measure(c, s)
    decreases |steps|
  {
    hide Inv, Enabled, Next, Measure;
    if steps != [] {
      StepInv(c, s, steps[0]);
      StepMeasure(c, s, steps[0]);
      RunInv(c, Next(c, s, steps[0]), steps[1..]);
    }
  }

  /* ---------- agreement ---------- */

  // Where every run ends. Connections and NIC maps are the attempts that succeeded, the
  // passive end's transposed, and queue pair i of one end is the peer of queue pair i of
  // the other.
  ghost predicate Agree(c: Config, s: State) {
    && (forall at :: at in s.a.conn <==> Tried(c, |c.attempts|, at))
    && (forall at :: at in s.p.conn <==> at in s.a.conn)
    && (forall at :: at in s.a.conn ==> |s.a.conn[at]| == c.qps && Swapped(s.a.conn[at], s.p.conn[at]))
    && (forall l, r :: InMap(s.a.nicMap, l, r) <==> Tried(c, |c.attempts|, Pair(l, r)))
    && (forall l, r :: InMap(s.p.nicMap, r, l) <==> InMap(s.a.nicMap, l, r))
  }

  lemma FinalMaps(c: Config, a: Active)
    requires ConfigOk(c) && ActiveMapOk(c, a) && a.k == |c.attempts|
    ensures forall l, r :: InMap(a.nicMap, l, r) <==> Tried(c, |c.attempts|, Pair(l, r))
  {
    forall l, r
      ensures InMap(a.nicMap, l, r) <==> Tried(c, |c.attempts|, Pair(l, r))
    {
      if InMap(a.nicMap, l, r) {
        var i: nat :| i < |c.attempts| && c.attempts[i] == Pair(l, r);
        assert Succeeds(c, i);
      }
    }
  }

  // For any pattern of failures and any interleaving: a run is at most so long, and where
  // it cannot go on, both ends are done and agree.
  lemma HandshakeAgrees(c: Config, steps: seq<Step>)
    requires ConfigOk(c) && IsRun(c, Init(), steps)
    ensures var s := After(c, Init(), steps);
      && |steps| <= 6 * |c.attempts| * c.qps + 3
      && s.p.ok
      && ((forall step :: !Enabled(c, s, step)) ==> Final(c, s) && Agree(c, s))
  {
    hide ActiveMapOk, Mirror, ConfigOk, Tried, Swapped, Enabled, Next, Learn;
    InitInv(c);
    RunInv(c, Init(), steps);
    InitMeasure(c);
    var s := After(c, Init(), steps);
    NeverBlocked(c, s);
    if Final(c, s) {
      FinalMaps(c, s.a);
    }
  }

  lemma InitMeasure(c: Config)
    ensures Measure(c, Init()) <= 6 * |c.attempts| * c.qps + 3
  {
    var n := |c.attempts|;
    TimesIs(n, c.qps);
    assert 6 * (n * c.qps) == 6 * n * c.qps;
  }

  // The active end reports a connection iff some attempt succeeded; the passive end
  // records one in any case. So the two agree on there being a connection iff some attempt
  // succeeded.
  lemma BothConnectedIff(c: Config, steps: seq<Step>)
    requires ConfigOk(c) && IsRun(c, Init(), steps) && Final(c, After(c, Init(), steps))
    ensures var s := After(c, Init(), steps);
      s.p.ok && (s.a.conn != map[] <==> exists i: nat :: i < |c.attempts| && Succeeds(c, i))
  {
    hide ConfigOk, Mirror, ActiveMapOk, Succeeds, Enabled, Next;
    HandshakeAgrees(c, steps);
    InitInv(c);
    RunInv(c, Init(), steps);
    var s := After(c, Init(), steps);
    NeverBlocked(c, s);
    if i: nat :| i < |c.attempts| && Succeeds(c, i) {
      assert Tried(c, |c.attempts|, c.attempts[i]);
    }
    if s.a.conn != map[] {
      var at :| at in s.a.conn;
      assert Tried(c, |c.attempts|, at);
    }
  }

  /* ---------- no queue pair serves twice ---------- */

  // Queue pair q of this end is the i-th of the connection of these NICs.
  ghost predicate Serves(conn: map<Pair, seq<QpPair>>, at: Pair, i: nat, q: nat) {
    at in conn && i < |conn[at]| && conn[at][i].own == q
  }

  ghost predicate EachOnce(conn: map<Pair, seq<QpPair>>) {
    forall at: Pair, i: nat, q: nat, at2: Pair, j: nat ::
      Serves(conn, at, i, q) && Serves(conn, at2, j, q) ==> at == at2 && i == j
  }

  // Numbers below next are given out: those in the connections and those of the attempt under
  // way, each once.
  ghost predicate GivenOut(next: nat, qps: seq<QpPair>, conn: map<Pair, seq<QpPair>>) {
    && EachOnce(conn)
    && (forall at: Pair, i: nat, q: nat :: Serves(conn, at, i, q) ==> q < next)
    && (forall i :: 0 <= i < |qps| ==> qps[i].own < next)
    && (forall i, j :: 0 <= i < j < |qps| ==> qps[i].own != qps[j].own)
    && (forall i: nat, at: Pair, j: nat :: i < |qps| ==> !Serves(conn, at, j, qps[i].own))
  }

  ghost predicate SameOwn(x: seq<QpPair>, y: seq<QpPair>) {
    |x| == |y| && forall i :: 0 <= i < |x| ==> x[i].own == y[i].own
  }

  lemma GivesNext(next: nat, qps: seq<QpPair>, peer: nat, conn: map<Pair, seq<QpPair>>)
    requires GivenOut(next, qps, conn)
    ensures GivenOut(next + 1, qps + [QpPair(next, peer)], conn)
  {
    hide Serves;
    var all := qps + [QpPair(next, peer)];
    forall i: nat, at: Pair, j: nat | i < |all|
      ensures !Serves(conn, at, j, all[i].own)
    {
    }
  }

  lemma EndsWithout(next: nat, qps: seq<QpPair>, conn: map<Pair, seq<QpPair>>)
    requires GivenOut(next, qps, conn)
    ensures GivenOut(next, [], conn)
  {
  }

  lemma Renamed(next: nat, qps: seq<QpPair>, qps': seq<QpPair>, conn: map<Pair, seq<QpPair>>)
    requires GivenOut(next, qps, conn) && SameOwn(qps, qps')
    ensures GivenOut(next, qps', conn)
  {
    hide Serves;
  }

  lemma EndsWith(next: nat, qps: seq<QpPair>, conn: map<Pair, seq<QpPair>>, at: Pair)
    requires GivenOut(next, qps, conn)
    ensures GivenOut(next, [], conn[at := qps])
  {
    var conn' := conn[at := qps];
    forall x: Pair, i: nat, q: nat | Serves(conn', x, i, q)
      ensures if x == at then i < |qps| && qps[i].own == q else Serves(conn, x, i, q)
    {
    }
    assert EachOnce(conn');
  }

  // The numbers of the attempt under way, the one it waits for included.
  ghost function ActiveOwn(a: Active): seq<QpPair> {
    if a.phase.Waiting? then a.qps + [QpPair(a.phase.qp, 0)] else a.qps
  }

  ghost function PassiveOwn(p: Passive): seq<QpPair> {
    if p.phase.Replied? then p.qps + [QpPair(p.phase.own, 0)] else p.qps
  }

  ghost predicate NumbersOk(s: State) {
    && GivenOut(s.a.nextQp, ActiveOwn(s.a), s.a.conn)
    && GivenOut(s.p.nextQp, PassiveOwn(s.p), s.p.conn)
  }

  lemma BringUpNumbers(c: Config, a: Active, peer: nat)
    requires GivenOut(a.nextQp, ActiveOwn(a), a.conn) && a.phase.Waiting? && a.k < |c.attempts|
    ensures var a' := BringUp(c, a, peer); GivenOut(a'.nextQp, ActiveOwn(a'), a'.conn)
  {
    hide GivenOut;
    var qps := a.qps + [QpPair(a.phase.qp, peer)];
    Renamed(a.nextQp, ActiveOwn(a), qps, a.conn);
    EndsWithout(a.nextQp, qps, a.conn);
    EndsWith(a.nextQp, qps, a.conn, c.attempts[a.k]);
  }

  lemma LearnNumbers(c: Config, p: Passive, m: Message)
    requires GivenOut(p.nextQp, PassiveOwn(p), p.conn) && p.phase.Replied?
    ensures var p' := Learn(c, p, m); GivenOut(p'.nextQp, PassiveOwn(p'), p'.conn)
  {
    hide GivenOut;
    var qps := p.qps + [QpPair(p.phase.own, p.phase.peer)];
    Renamed(p.nextQp, PassiveOwn(p), qps, p.conn);
    EndsWithout(p.nextQp, qps, p.conn);
    EndsWith(p.nextQp, qps, p.conn, p.cur);
  }

  lemma StepNumbers(c: Config, s: State, step: Step)
    requires NumbersOk(s) && Enabled(c, s, step)
    ensures NumbersOk(Next(c, s, step))
  {
    hide GivenOut, BringUp, Learn;
    match step
    case ActiveSends => GivesNext(s.a.nextQp, s.a.qps, 0, s.a.conn);
    case ActiveReceives => BringUpNumbers(c, s.a, s.toA[0]);
    case PassiveReceives =>
      if s.p.phase.Listening? {
        GivesNext(s.p.nextQp, s.p.qps, 0, s.p.conn);
      } else {
        LearnNumbers(c, s.p, s.toP[0]);
      }
  }

  lemma {:induction false} RunNumbers(c: Config, s: State, steps: seq<Step>)
    requires NumbersOk(s) && IsRun(c, s, steps)
    ensures NumbersOk(After(c, s, steps))
    decreases |steps|
  {
    hide NumbersOk, Enabled, Next;
    if steps != [] {
      StepNumbers(c, s, steps[0]);
      RunNumbers(c, Next(c, s, steps[0]), steps[1..]);
    }
  }

  // In every run each end uses each of its queue pairs for one connection, once.
  lemma QueuePairsOnce(c: Config, steps: seq<Step>)
    requires IsRun(c, Init(), steps)
    ensures EachOnce(After(c, Init(), steps).a.conn) && EachOnce(After(c, Init(), steps).p.conn)
  {
    hide EachOnce, IsRun;
    assert NumbersOk(Init()) by { NothingGiven(); }
    RunNumbers(c, Init(), steps);
  }

  lemma NothingGiven()
    ensures GivenOut(0, [], map[])
  {
  }

  // One attempt with one queue pair that cannot be brought up.
  function OneFailing(): Config {
    Config([Pair(0, 0)], (l: nat) => if l == 0 then [0] else [], 1, (_, _) => true)
  }

  // Its only run: the active end has no connection, the passive end is content.
  lemma OnlyPassiveConnected()
    ensures var c := OneFailing(); var steps := [ActiveSends, PassiveReceives, ActiveReceives, PassiveReceives];
      && ConfigOk(c) && IsRun(c, Init(), steps)
      && var s := After(c, Init(), steps);
         Final(c, s) && s.a.conn == map[] && s.p.ok
  {
    var c := OneFailing();
    assert c.attempts[0] == Pair(0, 0);
    var s1 := Next(c, Init(), ActiveSends);
    var s2 := Next(c, s1, PassiveReceives);
    var s3 := Next(c, s2, ActiveReceives);
    var s4 := Next(c, s3, PassiveReceives);
    var steps := [ActiveSends, PassiveReceives, ActiveReceives, PassiveReceives];
    assert steps[1..] == [PassiveReceives, ActiveReceives, PassiveReceives];
    assert steps[1..][1..] == [ActiveReceives, PassiveReceives];
    assert steps[1..][1..][1..] == [PassiveReceives];
    assert steps[1..][1..][1..][1..] == [];
    assert Final(c, s4);
  }

  // What two ends with these NIC names and queue pair numbers go through.
  function FromNames(active: seq<string>, passive: seq<string>, qps: nat, peerQps: nat,
                     fails: (nat, nat) -> bool): Config {
    Config(Attempts(active, passive, |active|), (l: nat) => if l < |active| then Targets(active[l], passive) else [],
           if qps < peerQps then qps else peerQps, fails)
  }

  // The names give a handshake of the kind treated here, whatever they are.
  lemma NamesOk(active: seq<string>, passive: seq<string>, qps: nat, peerQps: nat, fails: (nat, nat) -> bool)
    requires qps > 0 && peerQps > 0
    ensures ConfigOk(FromNames(active, passive, qps, peerQps, fails))
    ensures var c := FromNames(active, passive, qps, peerQps, fails);
      && c.qps <= qps && c.qps <= peerQps && (c.qps == qps || c.qps == peerQps)
      && forall p: Pair :: p in c.attempts <==> p.local < |active| && Paired(active[p.local], passive, p.remote)
  {
    hide Targets;
    var c := FromNames(active, passive, qps, peerQps, fails);
    AttemptsGrouped(active, passive, |active|);
    AttemptsAre(active, passive);
    forall i | 0 <= i < |c.attempts|
      ensures c.attempts[i].remote in c.targets(c.attempts[i].local)
    {
      AttemptsOf(active, passive, |active|, c.attempts[i]);
    }
    forall l: nat, r | r in c.targets(l)
      ensures exists i :: 0 <= i < |c.attempts| && c.attempts[i] == Pair(l, r)
    {
      AttemptsOf(active, passive, |active|, Pair(l, r));
    }
  }
}

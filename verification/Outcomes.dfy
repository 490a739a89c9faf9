/** How a transfer ends when posts, copies, completions or polls fail: what the worker
    records in the transfer's context, from its first chunk to its removal. */
module Outcomes {
  const SUCCESS: int := 0

  // The context's own record of one transfer: the next chunk to hand out, the lists of its
  // pipelines (chunks assigned and not posted, oldest first), and what became of the chunks.
  // outstanding are the work requests a NIC has not completed; done and bad are those whose
  // completion was polled, without and with an error. The NIC completes each once.
  datatype Context = Context(
    lens: seq<nat>,
    next: nat, lists: seq<seq<nat>>,
    posted: multiset<nat>, outstanding: multiset<nat>, done: multiset<nat>, bad: multiset<nat>,
    completed: nat, bytes: nat,
    error: int, finished: bool, active: bool)

  datatype Event =
    | PostDirect                    // the next chunk, posted at once
    | Assign(k: nat)                // the next chunk, put at the end of a pipeline's list
    | PostStaged(k: nat)            // the front chunk of a pipeline's list, posted
    | PostFails(code: int)          // invalid connection or a rejected post
    | CopyFails(code: int)
    | CompletesOk(i: nat)
    | CompletesBadly(i: nat, code: int)
    | PollFails(code: int)
    | Review                        // the end of the worker's round

  predicate Failing(e: Event) {
    e.PostFails? || e.CopyFails? || e.CompletesBadly? || e.PollFails?
  }

  // A failure's code is none of SUCCESS. Nothing but the round's end looks at finished:
  // posts may still follow a failure within a round, completions until the last.
  predicate Enabled(c: Context, e: Event) {
    match e
    case PostDirect => c.active && c.next < |c.lens|
    case Assign(k) => c.active && c.next < |c.lens| && k < |c.lists|
    case PostStaged(k) => c.active && k < |c.lists| && c.lists[k] != []
    case PostFails(code) => c.active && code != SUCCESS
    case CopyFails(code) => c.active && code != SUCCESS
    case CompletesOk(i) => i in c.outstanding
    case CompletesBadly(i, code) => i in c.outstanding && code != SUCCESS
    case PollFails(code) => c.active && code != SUCCESS
    case Review => c.active
  }

  function Fail(c: Context, code: int): Context {
    c.(error := code, finished := true)
  }

  function LenOf(lens: seq<nat>, i: nat): nat {
    if i < |lens| then lens[i] else 0
  }

  function Post(c: Context, i: nat): Context {
    c.(posted := c.posted + multiset{i}, outstanding := c.outstanding + multiset{i},
       bytes := c.bytes + LenOf(c.lens, i))
  }

  function Next(c: Context, e: Event): Context
    requires Enabled(c, e)
  {
    match e
    case PostDirect => Post(c, c.next).(next := c.next + 1)
    case Assign(k) => c.(next := c.next + 1, lists := c.lists[k := c.lists[k] + [c.next]])
    case PostStaged(k) => Post(c, c.lists[k][0]).(lists := c.lists[k := c.lists[k][1..]])
    case PostFails(code) => Fail(c, code)
    case CopyFails(code) => Fail(c, code)
    case CompletesOk(i) =>
      c.(outstanding := c.outstanding - multiset{i}, done := c.done + multiset{i}, completed := c.completed + 1)
    case CompletesBadly(i, code) =>
      Fail(c.(outstanding := c.outstanding - multiset{i}, bad := c.bad + multiset{i}), code)
    case PollFails(code) => (if c.finished then c else Fail(c, code)).(active := false)
    case Review =>
      if c.finished then c.(active := false)
      else if c.completed >= |c.lens| then c.(error := SUCCESS, finished := true, active := false)
      else c
  }

  function Start(lens: seq<nat>, pipelines: nat): Context {
    Context(lens, 0, seq(pipelines, _ => []), multiset{}, multiset{}, multiset{}, multiset{},
            0, 0, SUCCESS, false, true)
  }

  /* ---------- what every event keeps ---------- */

  // How often chunk i is in the first n lists.
  ghost function Staged(lists: seq<seq<nat>>, n: nat, i: nat): nat
    requires n <= |lists|
  {
    if n == 0 then 0 else Staged(lists, n - 1, i) + multiset(lists[n - 1])[i]
  }

  ghost function SumOf(lens: seq<nat>, chunks: multiset<nat>, n: nat): nat {
    if n == 0 then 0 else SumOf(lens, chunks, n - 1) + chunks[n - 1] * LenOf(lens, n - 1)
  }

  // Each chunk handed out was posted once, or waits once in one list.
  ghost predicate HandedOut(c: Context) {
    && c.next <= |c.lens|
    && forall i: nat :: c.posted[i] + Staged(c.lists, |c.lists|, i) == if i < c.next then 1 else 0
  }

  // Each work request is outstanding, or came back one way or the other.
  ghost predicate Conserved(c: Context) {
    forall i: nat :: c.outstanding[i] + c.done[i] + c.bad[i] == c.posted[i]
  }

  ghost predicate Inv(c: Context) {
    && HandedOut(c)
    && Conserved(c)
    && c.completed == |c.done|
    && c.bytes == SumOf(c.lens, c.posted, |c.lens|)
    && (!c.finished ==> c.error == SUCCESS && c.active)
    && (c.finished && c.error == SUCCESS ==> !c.active && c.completed >= |c.lens|)
  }

  lemma {:induction false} StagedAt(lists: seq<seq<nat>>, k: nat, l: seq<nat>, n: nat, i: nat)
    requires k < |lists| && n <= |lists|
    ensures Staged(lists[k := l], n, i)
      == Staged(lists, n, i) + if k < n then multiset(l)[i] as int - multiset(lists[k])[i] else 0
  {
    if n > 0 {
      StagedAt(lists, k, l, n - 1, i);
    }
  }

  lemma CountAppend(l: seq<nat>, x: nat, i: nat)
    ensures multiset(l + [x])[i] == multiset(l)[i] + if i == x then 1 else 0
  {
  }

  lemma CountFront(l: seq<nat>, i: nat)
    requires l != []
    ensures multiset(l)[i] == multiset(l[1..])[i] + if i == l[0] then 1 else 0
  {
    assert l == [l[0]] + l[1..];
  }

  lemma {:induction false} SumAdd(lens: seq<nat>, chunks: multiset<nat>, i: nat, n: nat)
    ensures SumOf(lens, chunks + multiset{i}, n) == SumOf(lens, chunks, n) + if i < n then LenOf(lens, i) else 0
  {
    if n > 0 {
      SumAdd(lens, chunks, i, n - 1);
      var had := chunks[n - 1];
      assert (had + 1) * LenOf(lens, n - 1) == had * LenOf(lens, n - 1) + LenOf(lens, n - 1);
    }
  }

  lemma {:induction false} SumNone(lens: seq<nat>, n: nat)
    ensures SumOf(lens, multiset{}, n) == 0
  {
    if n > 0 {
      SumNone(lens, n - 1);
    }
  }

  lemma {:induction false} StagedNone(pipelines: nat, n: nat, i: nat)
    requires n <= pipelines
    ensures Staged(seq(pipelines, _ => []), n, i) == 0
  {
    if n > 0 {
      StagedNone(pipelines, n - 1, i);
    }
  }

  lemma StartInv(lens: seq<nat>, pipelines: nat)
    ensures Inv(Start(lens, pipelines))
  {
    SumNone(lens, |lens|);
    var s := Start(lens, pipelines);
    forall i: nat
      ensures s.posted[i] == 0 && Staged(s.lists, |s.lists|, i) == 0
    {
      StagedNone(pipelines, pipelines, i);
    }
  }

  lemma HandedOutNext(c: Context, e: Event)
    requires HandedOut(c) && Enabled(c, e)
    ensures HandedOut(Next(c, e))
  {
    hide Staged;
    var c' := Next(c, e);
    forall i: nat
      ensures c'.posted[i] + Staged(c'.lists, |c'.lists|, i) == if i < c'.next then 1 else 0
    {
      if e.Assign? {
        StagedAt(c.lists, e.k, c'.lists[e.k], |c.lists|, i);
        CountAppend(c.lists[e.k], c.next, i);
      } else if e.PostStaged? {
        StagedAt(c.lists, e.k, c'.lists[e.k], |c.lists|, i);
        CountFront(c.lists[e.k], i);
      }
    }
  }

  // The front chunk of a list is one that was handed out.
  lemma FrontHandedOut(c: Context, k: nat)
    requires HandedOut(c) && k < |c.lists| && c.lists[k] != []
    ensures c.lists[k][0] < c.next
  {
    var i := c.lists[k][0];
    StagedAt(c.lists, k, [], |c.lists|, i);
    CountFront(c.lists[k], i);
  }

  /* ---------- all of n ---------- */

  // n chunks below n, each at most once: that is every one of them once.
  lemma {:induction false} AllOnce(m: multiset<nat>, n: nat)
    requires forall i: nat :: m[i] <= if i < n then 1 else 0
    ensures |m| <= n
    ensures |m| == n ==> forall i: nat :: i < n ==> m[i] == 1
  {
    if n == 0 {
      assert forall i: nat :: i !in m;
      assert m == multiset{};
    } else {
      var rest := m[n - 1 := 0];
      AllOnce(rest, n - 1);
      assert m == rest + (if m[n - 1] == 1 then multiset{n - 1} else multiset{});
      assert forall i: nat :: i < n - 1 ==> m[i] == rest[i];
    }
  }

  // What was completed was posted, and each chunk at most once.
  lemma DoneOnce(c: Context)
    requires Inv(c)
    ensures forall i: nat :: c.done[i] <= c.posted[i] <= if i < c.next then 1 else 0
    ensures c.completed <= |c.lens|
    ensures c.completed >= |c.lens| <==> forall i: nat :: i < |c.lens| ==> c.done[i] == 1
  {
    hide Staged, SumOf;
    forall i: nat
      ensures c.done[i] <= c.posted[i] <= if i < c.next then 1 else 0
    {
      assert c.posted[i] == c.outstanding[i] + c.done[i] + c.bad[i];
      assert c.posted[i] + Staged(c.lists, |c.lists|, i) <= 1;
    }
    AllOnce(c.done, |c.lens|);
    if forall i: nat :: i < |c.lens| ==> c.done[i] == 1 {
      CountsAll(c.done, |c.lens|);
    }
  }

  lemma {:induction false} CountsAll(m: multiset<nat>, n: nat)
    requires forall i: nat :: i < n ==> m[i] == 1
    ensures |m| >= n
  {
    if n > 0 {
      var rest := m[n - 1 := 0];
      CountsAll(rest, n - 1);
      assert m == rest + multiset{n - 1};
    }
  }

  // After SUCCESS no completion is due any more.
  lemma NothingLeft(c: Context)
    requires Inv(c)
    ensures c.finished && c.error == SUCCESS ==> forall i: nat :: c.outstanding[i] == 0
  {
    hide Staged, SumOf, HandedOut;
    DoneOnce(c);
    NextBound(c);
    if c.finished && c.error == SUCCESS {
      forall i: nat
        ensures c.outstanding[i] == 0
      {
        assert c.posted[i] == c.outstanding[i] + c.done[i] + c.bad[i];
      }
    }
  }

  // How often an event posts chunk i, and how often it completes it well.
  function PostsOne(c: Context, e: Event, i: nat): nat
    requires Enabled(c, e)
  {
    match e
    case PostDirect => if i == c.next then 1 else 0
    case PostStaged(k) => if i == c.lists[k][0] then 1 else 0
    case _ => 0
  }

  function CompletesOne(e: Event, i: nat): nat {
    if e == CompletesOk(i) then 1 else 0
  }

  lemma SumsNext(c: Context, e: Event)
    requires Inv(c) && Enabled(c, e)
    ensures Next(c, e).bytes == SumOf(c.lens, Next(c, e).posted, |c.lens|)
  {
    hide Staged, SumOf;
    if e.PostDirect? {
      SumAdd(c.lens, c.posted, c.next, |c.lens|);
    } else if e.PostStaged? {
      FrontHandedOut(c, e.k);
      SumAdd(c.lens, c.posted, c.lists[e.k][0], |c.lens|);
    }
  }

  lemma OneMore(m: multiset<nat>, x: nat, m': multiset<nat>)
    requires m' == m + multiset{x}
    ensures |m'| == |m| + 1 && forall i: nat :: m'[i] == m[i] + if i == x then 1 else 0
  {
  }

  lemma OneLess(m: multiset<nat>, x: nat, m': multiset<nat>)
    requires x in m && m' == m - multiset{x}
    ensures forall i: nat :: m[i] == m'[i] + if i == x then 1 else 0
  {
  }

  lemma PostNext(c: Context, e: Event)
    requires Conserved(c) && Enabled(c, e) && (e.PostDirect? || e.PostStaged?)
    ensures Conserved(Next(c, e)) && Next(c, e).done == c.done
    ensures forall i: nat :: Next(c, e).posted[i] == c.posted[i] + PostsOne(c, e, i)
  {
    var x, c' := if e.PostDirect? then c.next else c.lists[e.k][0], Next(c, e);
    OneMore(c.posted, x, c'.posted);
    OneMore(c.outstanding, x, c'.outstanding);
  }

  lemma CompleteNext(c: Context, e: Event)
    requires Conserved(c) && c.completed == |c.done| && Enabled(c, e) && e.CompletesOk?
    ensures Conserved(Next(c, e)) && Next(c, e).completed == |Next(c, e).done| && Next(c, e).posted == c.posted
    ensures forall i: nat :: Next(c, e).done[i] == c.done[i] + CompletesOne(e, i)
  {
    OneLess(c.outstanding, e.i, Next(c, e).outstanding);
    OneMore(c.done, e.i, Next(c, e).done);
  }

  lemma BadNext(c: Context, e: Event)
    requires Conserved(c) && Enabled(c, e) && e.CompletesBadly?
    ensures Conserved(Next(c, e)) && Next(c, e).posted == c.posted
    ensures Next(c, e).done == c.done && Next(c, e).completed == c.completed
  {
    OneLess(c.outstanding, e.i, Next(c, e).outstanding);
    OneMore(c.bad, e.i, Next(c, e).bad);
  }

  lemma CompletionsNext(c: Context, e: Event)
    requires Conserved(c) && c.completed == |c.done| && Enabled(c, e)
    ensures Conserved(Next(c, e)) && Next(c, e).completed == |Next(c, e).done|
    ensures forall i: nat :: Next(c, e).posted[i] == c.posted[i] + PostsOne(c, e, i)
    ensures forall i: nat :: Next(c, e).done[i] == c.done[i] + CompletesOne(e, i)
  {
    hide Conserved;
    if e.PostDirect? || e.PostStaged? {
      PostNext(c, e);
    } else if e.CompletesOk? {
      CompleteNext(c, e);
    } else if e.CompletesBadly? {
      BadNext(c, e);
    } else {
      OtherNext(c, e);
      ConservedSame(c, Next(c, e));
    }
  }

  lemma OtherNext(c: Context, e: Event)
    requires Enabled(c, e) && !e.PostDirect? && !e.PostStaged? && !e.CompletesOk? && !e.CompletesBadly?
    ensures var c' := Next(c, e);
      && c'.posted == c.posted && c'.outstanding == c.outstanding && c'.done == c.done && c'.bad == c.bad
      && c'.completed == c.completed
  {
  }

  lemma ConservedSame(c: Context, c': Context)
    requires Conserved(c) && c'.posted == c.posted && c'.outstanding == c.outstanding && c'.done == c.done
      && c'.bad == c.bad
    ensures Conserved(c')
  {
  }

  lemma VerdictNext(c: Context, e: Event)
    requires Enabled(c, e) && (c.finished && c.error == SUCCESS ==> forall i: nat :: c.outstanding[i] == 0)
    requires !c.finished ==> c.error == SUCCESS && c.active
    requires c.finished && c.error == SUCCESS ==> !c.active && c.completed >= |c.lens|
    ensures var c' := Next(c, e);
      && (!c'.finished ==> c'.error == SUCCESS && c'.active)
      && (c'.finished && c'.error == SUCCESS ==> !c'.active && c'.completed >= |c'.lens|)
      && c'.lens == c.lens
      && (c'.error != SUCCESS <==> c.error != SUCCESS || Failing(e))
  {
  }

  // An event keeps the invariant; the context holds an error after it iff it held one or
  // the event is a failure.
  lemma StepInv(c: Context, e: Event)
    requires Inv(c) && Enabled(c, e)
    ensures Inv(Next(c, e))
    ensures Next(c, e).lens == c.lens
    ensures forall i: nat :: Next(c, e).posted[i] == c.posted[i] + PostsOne(c, e, i)
    ensures forall i: nat :: Next(c, e).done[i] == c.done[i] + CompletesOne(e, i)
    ensures Next(c, e).error != SUCCESS <==> c.error != SUCCESS || Failing(e)
  {
    hide HandedOut, Conserved, SumOf, Next, Enabled, PostsOne, CompletesOne, Failing;
    HandedOutNext(c, e);
    SumsNext(c, e);
    NothingLeft(c);
    CompletionsNext(c, e);
    VerdictNext(c, e);
  }

  /* ---------- whole runs ---------- */

  ghost predicate IsRun(c: Context, es: seq<Event>)
    decreases |es|
  {
    es == [] || (Enabled(c, es[0]) && IsRun(Next(c, es[0]), es[1..]))
  }

  ghost function After(c: Context, es: seq<Event>): Context
    requires IsRun(c, es)
    decreases |es|
  {
    if es == [] then c else After(Next(c, es[0]), es[1..])
  }

  // Whatever the worker does and whatever has failed before: each failure may come.
  lemma MayFail(c: Context, code: int)
    requires code != SUCCESS
    ensures c.active ==>
      Enabled(c, PostFails(code)) && Enabled(c, CopyFails(code)) && Enabled(c, PollFails(code)) && Enabled(c, Review)
    ensures forall i :: i in c.outstanding ==> Enabled(c, CompletesOk(i)) && Enabled(c, CompletesBadly(i, code))
  {
  }

  // How many chunks the run hands out.
  function Handed(es: seq<Event>): nat {
    if es == [] then 0 else Handed(es[1..]) + if es[0].PostDirect? || es[0].Assign? then 1 else 0
  }

  // Chunks are handed out in order, one by each such event.
  lemma {:induction false} HandedInOrder(c: Context, es: seq<Event>)
    requires IsRun(c, es)
    ensures After(c, es).next == c.next + Handed(es)
    decreases |es|
  {
    if es != [] {
      HandedInOrder(Next(c, es[0]), es[1..]);
    }
  }

  lemma {:induction false} InactiveStays(c: Context, es: seq<Event>)
    requires IsRun(c, es) && !c.active
    ensures !After(c, es).active
    ensures forall j :: 0 <= j < |es| ==> es[j].CompletesOk? || es[j].CompletesBadly?
    decreases |es|
  {
    if es != [] {
      InactiveStays(Next(c, es[0]), es[1..]);
      assert forall j :: 1 <= j < |es| ==> es[j] == es[1..][j - 1];
    }
  }

  // After a failed poll the worker does nothing more for the transfer; only completions of what
  // it had posted still come.
  lemma {:induction false} NothingAfterPoll(c: Context, es: seq<Event>, i: nat)
    requires IsRun(c, es) && i < |es| && es[i].PollFails?
    ensures !After(c, es).active
    ensures forall j :: i < j < |es| ==> es[j].CompletesOk? || es[j].CompletesBadly?
    decreases |es|
  {
    hide Enabled;
    assert forall j :: 1 <= j < |es| ==> es[j] == es[1..][j - 1];
    if i == 0 {
      InactiveStays(Next(c, es[0]), es[1..]);
    } else {
      hide Next;
      NothingAfterPoll(Next(c, es[0]), es[1..], i - 1);
    }
  }

  ghost predicate SomeFails(es: seq<Event>) {
    exists j :: 0 <= j < |es| && Failing(es[j])
  }

  lemma SomeFailsNext(es: seq<Event>)
    requires es != []
    ensures SomeFails(es) <==> Failing(es[0]) || SomeFails(es[1..])
  {
    if j :| 0 <= j < |es| && Failing(es[j]) {
      assert j > 0 ==> Failing(es[1..][j - 1]);
    }
    if j :| 0 <= j < |es[1..]| && Failing(es[1..][j]) {
      assert Failing(es[j + 1]);
    }
  }

  // An error once recorded is never turned into SUCCESS, and a context holds an error
  // exactly when something failed.
  lemma {:induction false} ErrorSticks(c: Context, es: seq<Event>)
    requires Inv(c) && IsRun(c, es)
    ensures Inv(After(c, es)) && After(c, es).lens == c.lens
    ensures After(c, es).error != SUCCESS <==> c.error != SUCCESS || SomeFails(es)
    decreases |es|
  {
    hide Inv, Enabled, Next, Failing, SomeFails;
    if es != [] {
      StepInv(c, es[0]);
      SomeFailsNext(es);
      ErrorSticks(Next(c, es[0]), es[1..]);
    } else {
      NoneFails();
    }
  }

  lemma NoneFails()
    ensures !SomeFails([])
  {
  }

  /* ---------- which error ---------- */

  // The code of the last failure that counts, SUCCESS if there is none. Every failure counts,
  // a failed poll only if nothing failed before it.
  ghost function LastCode(es: seq<Event>): int {
    if es == [] then SUCCESS
    else
      var before, e := es[..|es| - 1], es[|es| - 1];
      if Failing(e) && (e.PollFails? ==> !SomeFails(before)) then e.code else LastCode(before)
  }

  lemma SomeFailsLast(es: seq<Event>, e: Event)
    ensures SomeFails(es + [e]) <==> SomeFails(es) || Failing(e)
  {
    hide Failing;
    if j :| 0 <= j < |es| && Failing(es[j]) {
      assert (es + [e])[j] == es[j];
    }
    assert (es + [e])[|es|] == e;
  }

  lemma LastCodeNext(c: Context, es: seq<Event>, e: Event)
    requires Enabled(c, e) && c.error == LastCode(es)
    requires c.finished && c.error == SUCCESS ==> !c.active
    requires !c.finished ==> c.error == SUCCESS && c.active
    requires c.error != SUCCESS <==> SomeFails(es)
    ensures Next(c, e).error == LastCode(es + [e])
  {
    hide SomeFails;
    assert (es + [e])[..|es|] == es;
  }

  // A context holds the code of the last failure that counts.
  lemma {:induction false} ErrorIsLast(c: Context, before: seq<Event>, es: seq<Event>)
    requires Inv(c) && IsRun(c, es) && c.error == LastCode(before) && (c.error != SUCCESS <==> SomeFails(before))
    ensures After(c, es).error == LastCode(before + es)
    decreases |es|
  {
    hide HandedOut, Conserved, SumOf, Enabled, Next, Failing, SomeFails, LastCode;
    if es == [] {
      assert before + es == before;
    } else {
      StepInv(c, es[0]);
      LastCodeNext(c, before, es[0]);
      SomeFailsLast(before, es[0]);
      ErrorIsLast(Next(c, es[0]), before + [es[0]], es[1..]);
      assert before + [es[0]] + es[1..] == before + es;
    }
  }

  // From its start on, whatever happens: the error of a transfer is that of the last failure
  // that counts.
  lemma ReportsLast(lens: seq<nat>, pipelines: nat, es: seq<Event>)
    requires IsRun(Start(lens, pipelines), es)
    ensures After(Start(lens, pipelines), es).error == LastCode(es)
  {
    hide SomeFails;
    StartInv(lens, pipelines);
    NoneFails();
    ErrorIsLast(Start(lens, pipelines), [], es);
    assert [] + es == es;
  }

  // How often the run posts chunk i, and how often it polls a good completion of it.
  ghost function Posts(c: Context, es: seq<Event>, i: nat): nat
    requires IsRun(c, es)
    decreases |es|
  {
    if es == [] then 0 else PostsOne(c, es[0], i) + Posts(Next(c, es[0]), es[1..], i)
  }

  ghost function Completions(es: seq<Event>, i: nat): nat {
    if es == [] then 0 else CompletesOne(es[0], i) + Completions(es[1..], i)
  }

  lemma {:induction false} Counted(c: Context, es: seq<Event>, i: nat)
    requires Inv(c) && IsRun(c, es)
    ensures c.posted[i] + Posts(c, es, i) == After(c, es).posted[i]
    ensures c.done[i] + Completions(es, i) == After(c, es).done[i]
    decreases |es|
  {
    hide Inv, Enabled, Next, PostsOne, CompletesOne;
    if es != [] {
      StepInv(c, es[0]);
      Counted(Next(c, es[0]), es[1..], i);
    }
  }

  // Whatever fails: no chunk is posted twice, and none is counted as completed twice or
  // without having been posted.
  lemma PostedAtMostOnce(lens: seq<nat>, pipelines: nat, es: seq<Event>, i: nat)
    requires IsRun(Start(lens, pipelines), es)
    ensures Completions(es, i) <= Posts(Start(lens, pipelines), es, i) <= 1
    ensures i >= |lens| ==> Posts(Start(lens, pipelines), es, i) == 0
  {
    hide Inv, HandedOut;
    StartInv(lens, pipelines);
    ErrorSticks(Start(lens, pipelines), es);
    Counted(Start(lens, pipelines), es, i);
    DoneOnce(After(Start(lens, pipelines), es));
    NextBound(After(Start(lens, pipelines), es));
  }

  lemma NextBound(c: Context)
    requires Inv(c)
    ensures c.next <= |c.lens|
  {
  }

  function Total(lens: seq<nat>, n: nat): nat {
    if n == 0 then 0 else Total(lens, n - 1) + LenOf(lens, n - 1)
  }

  lemma {:induction false} SumAll(lens: seq<nat>, chunks: multiset<nat>, n: nat)
    requires forall i: nat :: i < n ==> chunks[i] == 1
    ensures SumOf(lens, chunks, n) == Total(lens, n)
  {
    if n > 0 {
      SumAll(lens, chunks, n - 1);
    }
  }

  // A transfer that reports SUCCESS had no failure, posted every chunk once, completed
  // every chunk once, and reports the sum of its chunks' lengths; and it never does so
  // after a failure.
  lemma SuccessMeansAll(lens: seq<nat>, pipelines: nat, es: seq<Event>)
    requires IsRun(Start(lens, pipelines), es)
    requires After(Start(lens, pipelines), es).finished && After(Start(lens, pipelines), es).error == SUCCESS
    ensures !SomeFails(es)
    ensures forall i: nat :: i < |lens| ==> Posts(Start(lens, pipelines), es, i) == 1 && Completions(es, i) == 1
    ensures After(Start(lens, pipelines), es).bytes == Total(lens, |lens|)
  {
    hide Enabled, Next, Failing, HandedOut, SumOf, SomeFails;
    var s := Start(lens, pipelines);
    var c := After(s, es);
    StartInv(lens, pipelines);
    ErrorSticks(s, es);
    DoneOnce(c);
    forall i: nat | i < |lens|
      ensures Posts(s, es, i) == 1 && Completions(es, i) == 1 && c.posted[i] == 1
    {
      Counted(s, es, i);
      PostedAtMostOnce(lens, pipelines, es, i);
    }
    SumAll(lens, c.posted, |lens|);
  }

  // The verdict at a round's end, in terms of what happened: the transfer ends with SUCCESS
  // iff nothing failed and every chunk's completion was polled once; it goes on iff nothing
  // failed and some chunk's was not; else it ends with the code of the last failure that counts.
  lemma ReviewVerdict(lens: seq<nat>, pipelines: nat, es: seq<Event>)
    requires IsRun(Start(lens, pipelines), es) && After(Start(lens, pipelines), es).active
    ensures var c := Next(After(Start(lens, pipelines), es), Review);
      && (c.finished && c.error == SUCCESS <==> !SomeFails(es) && AllCompleted(es, |lens|))
      && (c.active <==> !SomeFails(es) && !AllCompleted(es, |lens|))
      && (!c.active ==> c.finished)
      && c.error == LastCode(es)
  {
    hide Inv, SomeFails, AllCompleted, LastCode;
    var s := Start(lens, pipelines);
    StartInv(lens, pipelines);
    ErrorSticks(s, es);
    CompletedIff(lens, pipelines, es);
    ReportsLast(lens, pipelines, es);
    VerdictOf(After(s, es));
  }

  ghost predicate AllCompleted(es: seq<Event>, n: nat) {
    forall i: nat :: i < n ==> Completions(es, i) == 1
  }

  lemma CompletedIff(lens: seq<nat>, pipelines: nat, es: seq<Event>)
    requires IsRun(Start(lens, pipelines), es) && After(Start(lens, pipelines), es).lens == lens
    requires Inv(After(Start(lens, pipelines), es))
    ensures After(Start(lens, pipelines), es).completed >= |lens| <==> AllCompleted(es, |lens|)
  {
    hide Inv;
    var s := Start(lens, pipelines);
    var c := After(s, es);
    StartInv(lens, pipelines);
    DoneOnce(c);
    forall i: nat
      ensures Completions(es, i) == c.done[i]
    {
      Counted(s, es, i);
    }
    if AllCompleted(es, |lens|) {
      forall i: nat | i < |lens|
        ensures c.done[i] == 1
      {
        assert Completions(es, i) == 1;
      }
    }
  }

  lemma VerdictOf(c: Context)
    requires Inv(c) && c.active
    ensures var r := Next(c, Review);
      && (r.finished && r.error == SUCCESS <==> c.error == SUCCESS && c.completed >= |c.lens|)
      && (r.active <==> c.error == SUCCESS && c.completed < |c.lens|)
      && (!r.active ==> r.finished)
      && r.error == c.error
  {
  }

  /* ---------- the end of a round ---------- */

  // Whether a context is removed at the round's end.
  predicate Ends(c: Context) {
    c.finished || c.completed >= |c.lens|
  }

  function Ended(c: Context): Context {
    if c.finished then c.(active := false) else c.(error := SUCCESS, finished := true, active := false)
  }

  function Staying(cs: seq<Context>): seq<Context> {
    if cs == [] then [] else Staying(cs[..|cs| - 1]) + if Ends(cs[|cs| - 1]) then [] else [cs[|cs| - 1]]
  }

  function Leaving(cs: seq<Context>): seq<Context> {
    if cs == [] then [] else Leaving(cs[..|cs| - 1]) + if Ends(cs[|cs| - 1]) then [Ended(cs[|cs| - 1])] else []
  }

  // The review of a context is what the event model says of it.
  lemma ReviewIs(c: Context)
    requires c.active
    ensures Next(c, Review) == if Ends(c) then Ended(c) else c
  {
  }

  // What a round's end makes of every context of the list, in order.
  ghost function Reviewed(cs: seq<Context>): seq<Context>
    requires forall c :: c in cs ==> c.active
  {
    if cs == [] then [] else Reviewed(cs[..|cs| - 1]) + [Next(cs[|cs| - 1], Review)]
  }

  // Every context of the list comes out of its review once: among those that stay, if it goes
  // on, else among those that leave, finished.
  lemma {:induction false} NobodyLost(cs: seq<Context>)
    requires forall c :: c in cs ==> c.active
    ensures multiset(Staying(cs)) + multiset(Leaving(cs)) == multiset(Reviewed(cs))
    ensures forall c :: c in Staying(cs) ==> c.active && !c.finished
    ensures forall c :: c in Leaving(cs) ==> !c.active && c.finished
  {
    if cs != [] {
      ReviewIs(cs[|cs| - 1]);
      NobodyLost(cs[..|cs| - 1]);
    }
  }

  class ActiveContexts {
    var active: seq<Context>
    var removed: seq<Context>

    constructor ()
      ensures active == [] && removed == []
    {
      active, removed := [], [];
    }

    // Phase 4: erase the ended contexts from the list while walking over it.
    method ReviewAll()
      modifies this
      ensures active == Staying(old(active))
      ensures removed == old(removed) + Leaving(old(active))
    {
      ghost var was, gone := active, removed;
      var i := 0;
      ghost var seen := 0;
      while i < |active|
        invariant i <= |active| && seen <= |was| && seen - i == |was| - |active|
        invariant active[i..] == was[seen..]
        invariant active[..i] == Staying(was[..seen])
        invariant removed == gone + Leaving(was[..seen])
        decreases |active| - i
      {
        var c := active[i];
        assert c == active[i..][0] == was[seen];
        assert was[..seen + 1][..seen] == was[..seen];
        if Ends(c) {
          removed := removed + [Ended(c)];
          ghost var before := active;
          active := active[..i] + active[i + 1..];
          assert active[i..] == before[i..][1..];
        } else {
          assert active[i + 1..] == active[i..][1..];
          assert active[..i + 1] == active[..i] + [c];
          i := i + 1;
        }
        seen := seen + 1;
      }
      assert was[..seen] == was && active[..i] == active;
    }
  }
}

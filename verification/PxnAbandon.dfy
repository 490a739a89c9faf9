/** What the end of a failed transfer can do to the others. The worker cleans up after it at
    once, whatever of it is under way: exactly when that is harmless to the flags of every
    later moment and to proxy memory in use, and a run in which it is not. */
module PxnAbandon {
  import opened Chunks
  import opened Layout
  import opened ProxyBuffer
  import opened FlowControl
  import opened PxnModel
  import opened PxnRuns
  import opened PxnInvariant
  import opened PxnCounts
  import opened PxnSteps
  import opened PxnFailure
  import opened PxnBooks
  import opened PxnProgress
  import opened PxnReset

  /* ---------- flags of copies under way ---------- */

  // A callback that is still to come sets a flag that nobody else may be given.
  ghost predicate NoneLoose(s: State) {
    forall id :: id in s.jobs ==> !LooseFlag(s, s.jobs[id].flag)
  }

  // The flag can be given to another copy, or is deleted.
  ghost predicate LooseFlag(s: State, f: nat) {
    f !in s.flags || f in s.pool || f in s.recycleQ
  }

  lemma CoreNoneLoose(c: Config, s: State)
    requires Core(c, s)
    ensures NoneLoose(s)
  {
    hide XfersOk, StagesOk, PendingOk, CopyingOk, RequestsOk, ThreadOk, ResultsOk, JobsOk, WrsOk, LostOk, RefusedOk,
         FlowOk, ConfigOk, Sized;
  }

  // Failed transfers are let go only after their callbacks.
  ghost predicate AllCalledBack(c: Config, s: State, steps: seq<Step>)
    requires ConfigOk(c) && IsRun(c, s, steps)
    decreases |steps|
  {
    steps == []
    || ((steps[0].Fail? ==> CalledBack(c, s, steps[0].x)) && AllCalledBack(c, Next(c, s, steps[0]), steps[1..]))
  }

  lemma {:induction false} RunCore(c: Config, s: State, steps: seq<Step>)
    requires Core(c, s) && ConfigOk(c) && IsRun(c, s, steps) && AllCalledBack(c, s, steps)
    ensures Core(c, After(c, s, steps))
    decreases |steps|
  {
    hide Core, ConfigOk, Enabled, Next, Sized, CalledBack;
    if steps != [] {
      StepCore(c, s, steps[0]);
      RunCore(c, Next(c, s, steps[0]), steps[1..]);
    }
  }

  // In no later moment, whatever happens and whatever is reset, is the flag of a copy under
  // way loose.
  ghost predicate NeverLoose(c: Config, s: State)
    requires ConfigOk(c)
  {
    forall steps: seq<Step> :: IsRun(c, s, steps) && AllCalledBack(c, s, steps) ==> NoneLoose(After(c, s, steps))
  }

  /* ---------- a result that nobody will take ---------- */

  // No chunk in any list waits for the copy of request id.
  ghost predicate Nobody(s: State, id: nat) {
    forall k, j :: 0 <= k < |s.pipes| && 0 <= j < |s.pipes[k].copying| ==> s.pipes[k].copying[j].id != id
  }

  // Where the copy of request id is: in the request queue, with the copy thread, or its
  // result in the thread's hands or the result queue, with its callback still to come.
  datatype Place = Requested(at: nat) | Taken | InHand | Returned(at: nat)

  ghost predicate Comes(s: State, id: nat, place: Place) {
    match place
    case Requested(at) => at < |s.reqQ| && s.reqQ[at].id == id
    case Taken => s.ct.Popped? && s.ct.req.id == id
    case InHand => s.ct.Pushing? && id in s.jobs && s.ct.res == CopyResult(id, Some(s.jobs[id].flag))
    case Returned(at) => at < |s.resQ| && id in s.jobs && s.resQ[at] == CopyResult(id, Some(s.jobs[id].flag))
  }

  // The step that takes the first result from the queue.
  lemma HeadStep(c: Config, s: State) returns (step: Step)
    requires ConfigOk(c) && Sized(c, s) && s.resQ != []
    ensures Enabled(c, s, step) && (step.Dispatch? || step.DropResult?)
    ensures step.Dispatch? ==> step.k < |s.pipes| && Awaits(s, step.k, step.j, s.resQ[0].id)
  {
    hide ConfigOk, Sized, PipeRunning;
    if k: nat, j: nat :| PipeRunning(c, s, k) && Awaits(s, k, j, s.resQ[0].id) {
      step := Dispatch(k, j);
    } else {
      step := DropResult;
    }
  }

  lemma HeadEffect(c: Config, s: State, step: Step, id: nat)
    requires ConfigOk(c) && Sized(c, s) && Enabled(c, s, step) && (step.Dispatch? || step.DropResult?)
    requires Nobody(s, id)
    ensures var s' := Next(c, s, step);
      s'.resQ == s.resQ[1..] && s'.jobs == s.jobs && s'.ct == s.ct && s'.reqQ == s.reqQ && Nobody(s', id)
    ensures step.DropResult? && s.resQ[0].flag.Some? ==> LooseFlag(Next(c, s, step), s.resQ[0].flag.value)
  {
    hide ConfigOk, Sized, NextPostDirect, NextAssignProxy, NextSubmit, NextSubmitFull, NextLaunch, NextDrain,
         NextPostProxy, NextPoll, NextFail;
  }

  lemma ThreadEffect(c: Config, s: State, step: Step, id: nat)
    requires ConfigOk(c) && Sized(c, s) && Enabled(c, s, step) && Nobody(s, id)
    requires step.PopRequest? || step.Launch? || step.PushResult?
    ensures Nobody(Next(c, s, step), id)
    ensures step.PopRequest? ==> Next(c, s, step).ct == Popped(s.reqQ[0]) && Next(c, s, step).reqQ == s.reqQ[1..]
    ensures step.Launch? ==> var s' := Next(c, s, step);
      && s'.ct == Pushing(CopyResult(s.ct.req.id, Some(step.f))) && s'.reqQ == s.reqQ && s'.resQ == s.resQ
      && s.ct.req.id in s'.jobs && s'.jobs[s.ct.req.id].flag == step.f
    ensures step.PushResult? ==> var s' := Next(c, s, step);
      s'.ct == Looking && s'.resQ == s.resQ + [s.ct.res] && s'.reqQ == s.reqQ && s'.jobs == s.jobs
  {
    hide ConfigOk, Sized, NextPostDirect, NextAssignProxy, NextSubmit, NextSubmitFull, NextDispatch, NextDrain,
         NextPostProxy, NextPoll, NextFail;
  }

  // What the copy thread does next; with the result queue full, somebody takes a result.
  lemma ThreadStep(c: Config, s: State) returns (step: Step)
    requires ConfigOk(c) && Sized(c, s) && (s.ct.Looking? ==> s.reqQ != [])
    ensures Enabled(c, s, step)
    ensures match s.ct
      case Looking => step.PopRequest?
      case Popped(_) => step.Launch?
      case Pushing(_) => if |s.resQ| < COPY_QUEUE_CAPACITY then step.PushResult? else step.Dispatch? || step.DropResult?
  {
    hide ConfigOk, Sized;
    match s.ct
    case Looking => step := PopRequest;
    case Popped(_) =>
      var f := 0;
      if s.pool != [] {
        f := s.pool[|s.pool| - 1];
      } else {
        f := FreshFlag(s.flags.Keys);
      }
      step := Launch(f);
    case Pushing(_) =>
      if |s.resQ| < COPY_QUEUE_CAPACITY {
        step := PushResult;
      } else {
        step := HeadStep(c, s);
      }
  }

  function Phase(ct: CopyThread): nat {
    match ct case Looking => 0 case Pushing(_) => 1 case Popped(_) => 2
  }

  function Ahead(place: Place): nat {
    match place case Requested(at) => at + 3 case Taken => 2 case InHand => 1 case Returned(_) => 0
  }

  // A run that ends with a loose flag.
  ghost predicate EndsLoose(c: Config, s: State, steps: seq<Step>)
    requires ConfigOk(c)
  {
    IsRun(c, s, steps) && AllCalledBack(c, s, steps) && !NoneLoose(After(c, s, steps))
  }

  lemma LooseAfter(c: Config, s: State, step: Step, rest: seq<Step>)
    requires ConfigOk(c) && Sized(c, s) && Enabled(c, s, step) && !step.Fail?
    requires EndsLoose(c, Next(c, s, step), rest)
    ensures EndsLoose(c, s, [step] + rest)
  {
    hide ConfigOk, Sized, Enabled, Next, NoneLoose;
    assert ([step] + rest)[1..] == rest;
  }

  // A copy on its way that nobody waits for ends with its result dropped, and its flag loose,
  // if its callback takes its time.
  lemma {:induction false} LooseRun(c: Config, s: State, id: nat, place: Place) returns (steps: seq<Step>)
    requires ConfigOk(c) && Sized(c, s) && Nobody(s, id) && Comes(s, id, place)
    ensures EndsLoose(c, s, steps)
    decreases Ahead(place), if place.Returned? then 0 else Phase(s.ct), |s.resQ|
  {
    hide ConfigOk, Sized, Enabled, Next, Nobody, NoneLoose, EndsLoose, PipeRunning;
    var step;
    if place.Returned? {
      step := HeadStep(c, s);
    } else {
      step := ThreadStep(c, s);
    }
    StepSized(c, s, step);
    var s' := Next(c, s, step);
    if step.Dispatch? || step.DropResult? {
      HeadEffect(c, s, step, id);
      if place == Returned(0) {
        AwaitedByNobody(s, step, id);
        steps := [];
        LooseNow(c, s', id);
      } else {
        steps := LooseRun(c, s', id, if place.Returned? then Returned(place.at - 1) else place);
      }
    } else {
      ThreadEffect(c, s, step, id);
      steps := LooseRun(c, s', id, NextPlace(s, step, place));
    }
    LooseAfter(c, s, step, steps);
    steps := [step] + steps;
  }

  function NextPlace(s: State, step: Step, place: Place): Place {
    if step.PopRequest? && place.Requested? then if place.at == 0 then Taken else Requested(place.at - 1)
    else if step.Launch? && place.Taken? then InHand
    else if step.PushResult? && place.InHand? then Returned(|s.resQ|)
    else place
  }

  lemma AwaitedByNobody(s: State, step: Step, id: nat)
    requires Nobody(s, id) && s.resQ != [] && s.resQ[0].id == id
    requires step.Dispatch? ==> step.k < |s.pipes| && Awaits(s, step.k, step.j, s.resQ[0].id)
    ensures !step.Dispatch?
  {
  }

  lemma LooseNow(c: Config, s: State, id: nat)
    requires ConfigOk(c) && id in s.jobs && LooseFlag(s, s.jobs[id].flag)
    ensures EndsLoose(c, s, [])
  {
  }

  /* ---------- the cleanup ---------- */

  lemma GiveLoose(s: State, g: Option<nat>, id: nat, f: nat)
    ensures LooseFlag(s, f) || g == Some(f) ==> LooseFlag(GiveIf(s.(copies := s.copies - {id}), g), f)
  {
  }

  // A flag that is given back is loose, and stays so.
  lemma {:induction false} GiveAllLoose(s: State, cs: seq<CopyingChunk>, f: nat)
    ensures LooseFlag(s, f) || (exists j :: 0 <= j < |cs| && cs[j].received && cs[j].flag == Some(f)) ==>
      LooseFlag(GiveAll(s, cs), f)
    decreases |cs|
  {
    hide LooseFlag;
    if cs != [] {
      GiveLoose(s, cs[0].flag, cs[0].id, f);
      var s1 := if cs[0].received then GiveIf(s.(copies := s.copies - {cs[0].id}), cs[0].flag) else s;
      GiveAllLoose(s1, cs[1..], f);
      if j :| 0 <= j < |cs| && cs[j].received && cs[j].flag == Some(f) {
        assert j > 0 ==> cs[1..][j - 1].received && cs[1..][j - 1].flag == Some(f);
      }
    }
  }

  lemma {:induction false} AbandonLoose(c: Config, s: State, x: nat, n: nat, k: nat, j: nat)
    requires ConfigOk(c) && Sized(c, s) && k < n <= |c.pipes| && c.pipes[k].xfer == x && j < |s.pipes[k].copying|
    requires s.pipes[k].copying[j].received && s.pipes[k].copying[j].flag.Some?
    ensures LooseFlag(Abandon(c, s, x, n), s.pipes[k].copying[j].flag.value)
  {
    hide ConfigOk, LooseFlag, FreeAll, GiveAll;
    var f := s.pipes[k].copying[j].flag.value;
    if k < n - 1 {
      AbandonLoose(c, s, x, n - 1, k, j);
    }
    if c.pipes[n - 1].xfer == x {
      var r := Abandon(c, s, x, n - 1);
      AbandonPipes(c, s, x, n - 1);
      GpuIn(c, n - 1);
      var p, g := r.pipes[n - 1], c.pipes[n - 1].gpu;
      var r1 := r.(bufs := r.bufs[g := FreeAll(FreeAll(r.bufs[g], CopyingLens(p.copying)), p.inflight)],
                   pipes := r.pipes[n - 1 := NO_CHUNKS]);
      SameLoose(r, r1, f);
      GiveAllLoose(r1, p.copying, f);
    }
  }

  lemma SameLoose(s: State, s': State, f: nat)
    requires s'.flags == s.flags && s'.pool == s.pool && s'.recycleQ == s.recycleQ
    ensures LooseFlag(s, f) <==> LooseFlag(s', f)
  {
  }

  lemma FailKeeps(c: Config, s: State, x: nat)
    requires ConfigOk(c) && Sized(c, s) && Running(s, x)
    ensures var s' := NextFail(c, s, x);
      && Sized(c, s') && s'.jobs == s.jobs && s'.reqQ == s.reqQ && s'.ct == s.ct && s'.resQ == s.resQ
    ensures forall f :: LooseFlag(Abandon(c, s, x, |c.pipes|), f) ==> LooseFlag(NextFail(c, s, x), f)
  {
    hide ConfigOk, Abandon, DropStages;
  }

  // After the cleanup nobody waits for the transfer's copies.
  lemma NobodyAfter(c: Config, s: State, x: nat, k: nat, j: nat)
    requires ConfigOk(c) && Sized(c, s) && Running(s, x)
    requires CopyingOk(c, s.pipes, s.stage, s.copies, s.nextId)
    requires k < |s.pipes| && c.pipes[k].xfer == x && j < |s.pipes[k].copying|
    ensures Nobody(NextFail(c, s, x), s.pipes[k].copying[j].id)
  {
    hide ConfigOk, Abandon, DropStages, CopyingOk;
    AbandonPipes(c, s, x, |c.pipes|);
    var s', id := NextFail(c, s, x), s.pipes[k].copying[j].id;
    forall l, i | 0 <= l < |s'.pipes| && 0 <= i < |s'.pipes[l].copying|
      ensures s'.pipes[l].copying[i].id != id
    {
      OtherPipe(c, s, k, j, l, i);
    }
  }

  lemma OtherPipe(c: Config, s: State, k: nat, j: nat, l: nat, i: nat)
    requires CopyingOk(c, s.pipes, s.stage, s.copies, s.nextId)
    requires k < |s.pipes| && l < |s.pipes| && c.pipes[k].xfer != c.pipes[l].xfer
    requires j < |s.pipes[k].copying| && i < |s.pipes[l].copying|
    ensures s.pipes[l].copying[i].id != s.pipes[k].copying[j].id
  {
    assert EntryOk(c, k, s.pipes[k].copying[j], s.stage, s.copies);
    assert EntryOk(c, l, s.pipes[l].copying[i], s.stage, s.copies);
  }

  // Where the copy of a chunk is whose result has not come and whose callback has not run.
  lemma FindPlace(c: Config, s: State, k: nat, j: nat) returns (place: Place)
    requires CopyingOk(c, s.pipes, s.stage, s.copies, s.nextId) && RequestsOk(c, s.reqQ, s.stage, s.copies)
    requires ThreadOk(c, s.ct, s.stage, s.copies) && ResultsOk(s.resQ, s.copies)
    requires UsedFlagsOk(s.copies, s.jobs, s.flags, s.pool, s.recycleQ)
    requires UnderWay(s, k, j) && !s.pipes[k].copying[j].received
    ensures Comes(s, s.pipes[k].copying[j].id, place)
  {
    hide RequestFields, UsedFlagsOk, CopyOk;
    var cc := s.pipes[k].copying[j];
    assert EntryOk(c, k, cc, s.stage, s.copies);
    match s.copies[cc.id].at
    case InRequests =>
      assert InRequestQ(s.reqQ, cc.id);
      var at :| 0 <= at < |s.reqQ| && s.reqQ[at].id == cc.id;
      place := Requested(at);
    case WithThread => place := Taken;
    case WithResult =>
      JobFlag(s, cc.id);
      place := InHand;
    case InResults =>
      JobFlag(s, cc.id);
      assert InResultQ(s.resQ, cc.id);
      var at :| 0 <= at < |s.resQ| && s.resQ[at].id == cc.id;
      assert ResultOk(s.resQ[at], InResults, s.copies);
      place := Returned(at);
  }

  lemma JobFlag(s: State, id: nat)
    requires UsedFlagsOk(s.copies, s.jobs, s.flags, s.pool, s.recycleQ) && id in s.jobs
    ensures id in s.copies && s.copies[id].flag == Some(s.jobs[id].flag)
  {
    assert InUse(s.copies, id);
  }

  // The cleanup of a transfer with a callback to come: some run from there ends badly.
  lemma FailLoosens(c: Config, s: State, x: nat, k: nat, j: nat) returns (steps: seq<Step>)
    requires Core(c, s) && ConfigOk(c) && Sized(c, s) && Enabled(c, s, Fail(x))
    requires UnderWay(s, k, j) && c.pipes[k].xfer == x
    ensures EndsLoose(c, Next(c, s, Fail(x)), steps)
  {
    hide Core, ConfigOk, XfersOk, StagesOk, PendingOk, CopyingOk, RequestsOk, FlagsOk, JobsOk, WrsOk, LostOk,
         RefusedOk, FlowOk, NextFail, LooseFlag, EndsLoose, Comes, Nobody, ThreadOk, ResultsOk, UsedFlagsOk,
         NextPostDirect, NextAssignProxy, NextSubmit, NextSubmitFull, NextLaunch, NextDispatch, NextDrain,
         NextPostProxy, NextPoll;
    CoreParts(c, s);
    FailKeeps(c, s, x);
    var cc := s.pipes[k].copying[j];
    if cc.received {
      ReceivedJob(c, s, k, j);
      AbandonLoose(c, s, x, |c.pipes|, k, j);
      LooseNow(c, NextFail(c, s, x), cc.id);
      steps := [];
    } else {
      UsedOk(s);
      var place := FindPlace(c, s, k, j);
      NobodyAfter(c, s, x, k, j);
      SamePlace(s, NextFail(c, s, x), cc.id, place);
      steps := LooseRun(c, NextFail(c, s, x), cc.id, place);
    }
  }

  lemma UsedOk(s: State)
    requires FlagsOk(s.copies, s.jobs, s.flags, s.pool, s.recycleQ)
    ensures UsedFlagsOk(s.copies, s.jobs, s.flags, s.pool, s.recycleQ)
  {
    hide UsedFlagsOk;
  }

  lemma SamePlace(s: State, s': State, id: nat, place: Place)
    requires Comes(s, id, place) && s'.jobs == s.jobs && s'.reqQ == s.reqQ && s'.ct == s.ct && s'.resQ == s.resQ
    ensures Comes(s', id, place)
  {
  }

  lemma ReceivedJob(c: Config, s: State, k: nat, j: nat)
    requires CopyingOk(c, s.pipes, s.stage, s.copies, s.nextId)
    requires FlagsOk(s.copies, s.jobs, s.flags, s.pool, s.recycleQ)
    requires UnderWay(s, k, j) && s.pipes[k].copying[j].received
    ensures var cc := s.pipes[k].copying[j];
      cc.id in s.jobs && cc.flag == Some(s.jobs[cc.id].flag)
  {
    hide FreeFlagsOk, NoneLost, CopyOk;
    var cc := s.pipes[k].copying[j];
    assert EntryOk(c, k, cc, s.stage, s.copies);
    assert s.copies[cc.id].at == Received;
    JobFlag(s, cc.id);
  }

  lemma JobLaunched(s: State, id: nat)
    requires UsedFlagsOk(s.copies, s.jobs, s.flags, s.pool, s.recycleQ)
    ensures id in s.jobs ==>
      InUse(s.copies, id) && s.copies[id].flag.value in s.flags && !s.flags[s.copies[id].flag.value]
  {
  }

  // Letting go of a failed transfer is harmless to the flags of every later moment iff the
  // callback of every copy that it handed to the copy thread has run.
  lemma CleanupHarmlessIff(c: Config, s: State, x: nat)
    requires Core(c, s) && ConfigOk(c) && Sized(c, s) && Enabled(c, s, Fail(x))
    ensures NeverLoose(c, Next(c, s, Fail(x))) <==> CalledBack(c, s, x)
  {
    hide Core, ConfigOk, Sized, Next, Enabled, NoneLoose, UnderWay, IsRun, AllCalledBack;
    var s' := Next(c, s, Fail(x));
    if CalledBack(c, s, x) {
      StepCore(c, s, Fail(x));
      forall steps: seq<Step> | IsRun(c, s', steps) && AllCalledBack(c, s', steps)
        ensures NoneLoose(After(c, s', steps))
      {
        RunCore(c, s', steps);
        CoreNoneLoose(c, After(c, s', steps));
      }
    } else {
      var k, j := SomeUnderWay(c, s, x);
      var steps := FailLoosens(c, s, x, k, j);
      assert IsRun(c, s', steps) && AllCalledBack(c, s', steps);
    }
  }

  lemma SomeUnderWay(c: Config, s: State, x: nat) returns (k: nat, j: nat)
    requires Sized(c, s) && !CalledBack(c, s, x)
    ensures UnderWay(s, k, j) && k < |c.pipes| && c.pipes[k].xfer == x
  {
    if k0: nat, j0: nat :| UnderWay(s, k0, j0) && k0 < |c.pipes| && c.pipes[k0].xfer == x {
      k, j := k0, j0;
    } else {
      NoneUnderWay(c, s, x);
      assert false;
    }
  }

  lemma NoneUnderWay(c: Config, s: State, x: nat)
    requires forall k: nat, j: nat :: UnderWay(s, k, j) && k < |c.pipes| ==> c.pipes[k].xfer != x
    ensures CalledBack(c, s, x)
  {
    forall k, j | 0 <= k < |s.pipes| && k < |c.pipes| && c.pipes[k].xfer == x && 0 <= j < |s.pipes[k].copying|
      ensures Launched(s, s.pipes[k].copying[j].id) && s.pipes[k].copying[j].id !in s.jobs
    {
      assert !UnderWay(s, k, j);
    }
  }

  ghost predicate SeenDone(s: State, cc: CopyingChunk) {
    cc.received && (cc.flag.Some? ==> cc.flag.value in s.flags && s.flags[cc.flag.value])
  }

  // What the worker can see is enough: every chunk has its result, and every flag is true.
  lemma SeenCalledBack(c: Config, s: State, x: nat)
    requires Core(c, s)
    requires forall k, j ::
      0 <= k < |s.pipes| && k < |c.pipes| && c.pipes[k].xfer == x && 0 <= j < |s.pipes[k].copying| ==>
        SeenDone(s, s.pipes[k].copying[j])
    ensures CalledBack(c, s, x)
  {
    hide XfersOk, StagesOk, PendingOk, RequestsOk, ThreadOk, ResultsOk, WrsOk, LostOk, RefusedOk, FlowOk, ConfigOk,
         FreeFlagsOk, NoneLost;
    forall k, j | 0 <= k < |s.pipes| && k < |c.pipes| && c.pipes[k].xfer == x && 0 <= j < |s.pipes[k].copying|
      ensures Launched(s, s.pipes[k].copying[j].id) && s.pipes[k].copying[j].id !in s.jobs
    {
      var cc := s.pipes[k].copying[j];
      assert EntryOk(c, k, cc, s.stage, s.copies);
      JobLaunched(s, cc.id);
    }
  }

  /* ---------- proxy memory in use ---------- */

  // The copy into the chunk's block, or the RDMA read from it, is outstanding.
  ghost predicate Touched(s: State, id: Cid) {
    id in s.stage && match s.stage[id]
      case Copying(_, r, _) => !(Launched(s, r) && (r !in s.jobs || s.jobs[r].landed))
      case Posted(w, _) => w.via.Some? && w in s.posted
      case _ => false
  }

  // The pipeline of a chunk that holds a block.
  ghost function PipeOfStage(st: Stage): nat {
    match st
    case Copying(k, _, _) => k
    case Posted(w, _) => if w.via.Some? then w.via.value else 0
    case _ => 0
  }

  // Requests for space and returns of space can follow by which a block is handed out that
  // overlaps b, although pipeline k gives nothing back.
  ghost predicate Exposed(c: Config, s: State, b: Blk, k: nat) {
    && b.gpu < |s.bufs| && b.gpu < |c.bufSize| && k < |s.pipes|
    && Reusable(s.bufs[b.gpu], c.bufSize[b.gpu], Owed(s.pipes[k]), Block(b.off, b.len))
  }

  lemma TouchedOwes(c: Config, s: State, id: Cid)
    requires ConfigOk(c) && XfersOk(c, s.xs, s.stage) && StagesOk(c, s.stage)
    requires CopyingOk(c, s.pipes, s.stage, s.copies, s.nextId) && WrsOk(s.posted, Back(s), s.stage)
    requires CountsOk(c, s.pipes, s.xs, Wrs(s)) && RecordsOk(c, s.pipes) && Touched(s, id)
    ensures var k := PipeOfStage(s.stage[id]);
      && k < |s.pipes| && k < |c.pipes| && Owed(s.pipes[k]) > 0 && c.pipes[k].xfer == id.x && Holds(s.stage, id)
      && Held(s.stage[id]).value.gpu == c.pipes[k].gpu
  {
    hide ConfigOk, XfersOk, StagesOk, CopyingOk, WrsOk, CountsOk, RecordsOk, Owed;
    StageAt(c, s.stage, id);
    if s.stage[id].Copying? {
      CopyingOwes(c, s.pipes, s.stage, s.copies, s.nextId, id);
    } else {
      PostedOwes(c, s, id);
    }
  }

  lemma StageAt(c: Config, stage: map<Cid, Stage>, id: Cid)
    requires StagesOk(c, stage) && id in stage
    ensures StageOk(c, id, stage[id])
  {
  }

  lemma HeldFacts(c: Config, s: State, id: Cid)
    requires Inv(c, s) && Touched(s, id)
    ensures var k := PipeOfStage(s.stage[id]);
      && k < |s.pipes| && k < |c.pipes| && Owed(s.pipes[k]) > 0 && c.pipes[k].xfer == id.x && Holds(s.stage, id)
      && Held(s.stage[id]).value.gpu == c.pipes[k].gpu && BlkOk(c, Held(s.stage[id]).value, s.bufs)
  {
    hide Core, Books, XfersOk, StagesOk, PendingOk, CopyingOk, RequestsOk, ThreadOk, ResultsOk, FlagsOk, JobsOk,
         WrsOk, LostOk, RefusedOk, FlowOk, CountsOk, RecordsOk, BufsOk, ConfigOk, BlkOk, Owed, Touched, PipeOfStage;
    CoreSized(c, s);
    CoreParts(c, s);
    BooksParts(c, s);
    TouchedOwes(c, s, id);
  }

  lemma BehindOf(c: Config, b: Blk, bufs: seq<Offsets>, o: Offsets, owed: nat)
    requires BlkOk(c, b, bufs) && o.alloc == bufs[b.gpu].alloc && BufOk(o, c.bufSize[b.gpu], owed)
    ensures Behind(o, c.bufSize[b.gpu], Block(b.off, b.len))
  {
    hide AlignUp;
  }

  // After the cleanup of transfer x the memory of an outstanding copy or read can be handed
  // out again iff the copy or read is the transfer's own.
  lemma CleanupExposesIff(c: Config, s: State, x: nat, id: Cid)
    requires Inv(c, s) && ConfigOk(c) && Sized(c, s) && Enabled(c, s, Fail(x)) && Touched(s, id)
    ensures Held(s.stage[id]).Some?
    ensures Exposed(c, Next(c, s, Fail(x)), Held(s.stage[id]).value, PipeOfStage(s.stage[id])) <==> id.x == x
  {
    hide Core, Books, XfersOk, StagesOk, PendingOk, CopyingOk, RequestsOk, ThreadOk, ResultsOk, FlagsOk, JobsOk,
         WrsOk, LostOk, RefusedOk, FlowOk, CountsOk, RecordsOk, BufsOk, BlocksOk, ConfigOk, BlkOk, Owed, Abandon,
         DropStages, Behind, Reusable, NextPostDirect, NextAssignProxy, NextSubmit, NextSubmitFull, NextLaunch,
         NextDispatch, NextDrain, NextPostProxy, NextPoll;
    BooksParts(c, s);
    HeldFacts(c, s, id);
    var s' := NextFail(c, s, x);
    var b, k := Held(s.stage[id]).value, PipeOfStage(s.stage[id]);
    AbandonPipes(c, s, x, |c.pipes|);
    AbandonBufs(c, s, x, |c.pipes|);
    OwesNothing();
    GpuIn(c, k);
    assert b.gpu < |s.bufs| == |c.bufSize|;
    BufAt(c, s'.pipes, s'.bufs, b.gpu);
    OwedOnAtLeast(c, s'.pipes, b.gpu, k, |s'.pipes|);
    BehindOf(c, b, s.bufs, s'.bufs[b.gpu], OwedOn(c, s'.pipes, b.gpu, |s'.pipes|));
    HandedOutIff(s'.bufs[b.gpu], c.bufSize[b.gpu], Owed(s'.pipes[k]), Block(b.off, b.len));
  }

  // No block handed out after the cleanup overlaps an outstanding copy or read, whatever else
  // is requested and given back, iff nothing of the transfer is outstanding.
  lemma CleanupMemoryIff(c: Config, s: State, x: nat)
    requires Inv(c, s) && ConfigOk(c) && Sized(c, s) && Enabled(c, s, Fail(x))
    ensures (forall id :: Touched(s, id) && Held(s.stage[id]).Some? ==>
               !Exposed(c, Next(c, s, Fail(x)), Held(s.stage[id]).value, PipeOfStage(s.stage[id])))
      <==> (forall id :: Touched(s, id) ==> id.x != x)
  {
    hide Inv, ConfigOk, Sized, Enabled, Next, Exposed, Held, PipeOfStage;
    forall id | Touched(s, id)
      ensures Held(s.stage[id]).Some?
      ensures Exposed(c, Next(c, s, Fail(x)), Held(s.stage[id]).value, PipeOfStage(s.stage[id])) <==> id.x == x
    {
      CleanupExposesIff(c, s, x, id);
    }
  }
}

/** When a transfer has an error: exactly when something of it failed, told from the steps that
    were taken. */
module PxnErrors {
  import opened Chunks
  import opened Layout
  import opened ProxyBuffer
  import opened FlowControl
  import opened PxnModel
  import opened PxnRuns
  import opened PxnInvariant
  import opened PxnSteps
  import opened PxnBooks
  import PxnAccounting

  /* ---------- errors, on steps alone ---------- */

  // What the GPU answered to the copy requests, in order: true where it took the copy.
  ghost function Answers(steps: seq<Step>): seq<bool> {
    if steps == [] then []
    else Answers(steps[..|steps| - 1]) + match steps[|steps| - 1]
                                         case Launch(_) => [true]
                                         case CopyFails => [false]
                                         case _ => []
  }

  // How many of the answers the worker has seen.
  ghost function Seen(steps: seq<Step>): nat {
    if steps == [] then 0
    else Seen(steps[..|steps| - 1]) + if steps[|steps| - 1].Dispatch? || steps[|steps| - 1].DropResult? then 1 else 0
  }

  // The worker sees an error of transfer x: a NIC refuses a post of it, direct or from one of
  // its pipelines, a work request of it comes back with an error, or the result that a chunk of
  // it receives is that of a copy that the GPU refused.
  ghost predicate Errs(c: Config, before: seq<Step>, step: Step, x: nat) {
    match step
    case PostFails(y, _, _) => y == x
    case PostProxyFails(k, _) => k < |c.pipes| && c.pipes[k].xfer == x
    case PollFails(w) => w.id.x == x
    case Dispatch(k, _) =>
      && k < |c.pipes| && c.pipes[k].xfer == x
      && Seen(before) < |Answers(before)| && !Answers(before)[Seen(before)]
    case _ => false
  }

  ghost predicate SomeError(c: Config, steps: seq<Step>, x: nat) {
    exists i :: 0 <= i < |steps| && Errs(c, steps[..i], steps[i], x)
  }

  lemma SomeErrorNext(c: Config, steps: seq<Step>, step: Step, x: nat)
    ensures SomeError(c, steps + [step], x) <==> SomeError(c, steps, x) || Errs(c, steps, step, x)
  {
    hide Errs;
    var all := steps + [step];
    assert all[|steps|] == step && all[..|steps|] == steps;
    forall i | 0 <= i < |steps|
      ensures all[i] == steps[i] && all[..i] == steps[..i]
    {
    }
  }

  /* ---------- the answers on their way ---------- */

  // The results in the queue and in the copy thread's hands, oldest first.
  ghost function OnTheWay(s: State): seq<bool> {
    Flagged(s.resQ) + if s.ct.Pushing? then [s.ct.res.flag.Some?] else []
  }

  ghost function Flagged(results: seq<CopyResult>): (r: seq<bool>)
    ensures |r| == |results|
    ensures forall i :: 0 <= i < |r| ==> r[i] == results[i].flag.Some?
  {
    seq(|results|, i requires 0 <= i < |results| => results[i].flag.Some?)
  }

  ghost predicate SameWay(s: State, s': State) {
    s'.resQ == s.resQ && s'.ct == s.ct
  }

  lemma ThreadWay(c: Config, s: State, step: Step)
    requires ConfigOk(c) && Sized(c, s) && Enabled(c, s, step)
    requires step.PopRequest? || step.Launch? || step.CopyFails? || step.PushResult?
    ensures OnTheWay(Next(c, s, step)) == OnTheWay(s)
      + if step.Launch? then [true] else if step.CopyFails? then [false] else []
  {
    hide ConfigOk, NextPoll, NextPostProxy, NextPostDirect, NextAssignProxy, NextSubmit, NextSubmitFull, NextDrain,
         NextDispatch, NextFail;
  }

  lemma WorkerWay(c: Config, s: State, step: Step)
    requires ConfigOk(c) && Sized(c, s) && Enabled(c, s, step) && (step.Dispatch? || step.DropResult?)
    ensures OnTheWay(s) == [s.resQ[0].flag.Some?] + OnTheWay(Next(c, s, step))
  {
    hide ConfigOk, Sized, Next, Enabled;
    WorkerTakes(c, s, step);
    assert Flagged(s.resQ) == [s.resQ[0].flag.Some?] + Flagged(s.resQ[1..]);
  }

  lemma WorkerTakes(c: Config, s: State, step: Step)
    requires ConfigOk(c) && Sized(c, s) && Enabled(c, s, step) && (step.Dispatch? || step.DropResult?)
    ensures s.resQ != [] && Next(c, s, step).ct == s.ct && Next(c, s, step).resQ == s.resQ[1..]
  {
    hide ConfigOk, Sized, NextPoll, NextPostProxy, NextPostDirect, NextAssignProxy, NextSubmit, NextSubmitFull,
         NextDrain, NextLaunch, NextFail;
  }

  lemma PostWay(c: Config, s: State, step: Step)
    requires ConfigOk(c) && Sized(c, s) && Enabled(c, s, step)
    requires step.PostDirect? || step.AssignProxy? || step.Submit? || step.SubmitFull? || step.Drain? || step.Cleanup?
    ensures SameWay(s, Next(c, s, step))
  {
    hide ConfigOk, ProxyRoom, NicRoom, TryAlloc, ChunkAt, Post, Complete, Awaits, Shape, NextPoll, NextPostProxy,
         NextDispatch, NextFail, NextLaunch;
  }

  lemma PollWay(c: Config, s: State, step: Step)
    requires ConfigOk(c) && Sized(c, s) && Enabled(c, s, step) && (step.Poll? || step.PostProxy?)
    ensures SameWay(s, Next(c, s, step))
  {
    hide ConfigOk, Post, Complete, ProxyWr, ChunkAt, NicRoom, CreditPipe, CountDone, Awaits, ProxyRoom, TryAlloc;
  }

  lemma OtherWay(c: Config, s: State, step: Step)
    requires ConfigOk(c) && Sized(c, s) && Enabled(c, s, step)
    requires !step.PostDirect? && !step.AssignProxy? && !step.Submit? && !step.SubmitFull? && !step.Drain?
    requires !step.Poll? && !step.PostProxy? && !step.Cleanup?
    requires !step.PopRequest? && !step.Launch? && !step.CopyFails? && !step.PushResult?
    requires !step.Dispatch? && !step.DropResult?
    ensures SameWay(s, Next(c, s, step))
  {
    hide ConfigOk, ProxyRoom, NicRoom, TryAlloc, ChunkAt, Post, Complete, Awaits, Shape, Abandon, DropStages,
         NextPoll, NextPostProxy, NextPostDirect, NextAssignProxy, NextSubmit, NextSubmitFull, NextDrain,
         NextDispatch, NextLaunch;
  }

  // The answers that the worker has not seen are those on their way, in order: a run's
  // results carry flags exactly as the GPU answered.
  lemma {:induction false} AnswersUnseen(c: Config, m0: Memory, steps: seq<Step>)
    requires ConfigOk(c) && IsRun(c, Init(c, m0), steps)
    ensures Sized(c, After(c, Init(c, m0), steps)) && Seen(steps) <= |Answers(steps)|
    ensures OnTheWay(After(c, Init(c, m0), steps)) == Answers(steps)[Seen(steps)..]
    decreases |steps|
  {
    hide ConfigOk, Next, Enabled, Sized, OnTheWay;
    if steps == [] {
      InitWay(c, m0);
    } else {
      var before, step := steps[..|steps| - 1], steps[|steps| - 1];
      LastStep(c, m0, steps);
      var s := After(c, Init(c, m0), before);
      AnswersUnseen(c, m0, before);
      StepSized(c, s, step);
      if step.PopRequest? || step.Launch? || step.CopyFails? || step.PushResult? {
        ThreadWay(c, s, step);
      } else if step.Dispatch? || step.DropResult? {
        WorkerWay(c, s, step);
        assert OnTheWay(Next(c, s, step)) == OnTheWay(s)[1..];
      } else {
        SameOnTheWay(c, s, step);
      }
    }
  }

  lemma SameOnTheWay(c: Config, s: State, step: Step)
    requires ConfigOk(c) && Sized(c, s) && Enabled(c, s, step)
    requires !step.PopRequest? && !step.Launch? && !step.CopyFails? && !step.PushResult?
    requires !step.Dispatch? && !step.DropResult?
    ensures OnTheWay(Next(c, s, step)) == OnTheWay(s)
  {
    hide ConfigOk, Next, Enabled, Sized;
    if step.Poll? || step.PostProxy? {
      PollWay(c, s, step);
    } else if step.PostDirect? || step.AssignProxy? || step.Submit? || step.SubmitFull? || step.Drain?
      || step.Cleanup? {
      PostWay(c, s, step);
    } else {
      OtherWay(c, s, step);
    }
  }

  lemma InitWay(c: Config, m0: Memory)
    requires ConfigOk(c)
    ensures Sized(c, Init(c, m0)) && OnTheWay(Init(c, m0)) == []
    ensures forall x :: 0 <= x < |c.reqs| ==> !Init(c, m0).xs[x].failed
  {
  }

  lemma LastStep(c: Config, m0: Memory, steps: seq<Step>)
    requires ConfigOk(c) && IsRun(c, Init(c, m0), steps) && steps != []
    ensures var before, step := steps[..|steps| - 1], steps[|steps| - 1];
      && IsRun(c, Init(c, m0), before) && Sized(c, After(c, Init(c, m0), before))
      && Enabled(c, After(c, Init(c, m0), before), step)
      && After(c, Init(c, m0), steps) == Next(c, After(c, Init(c, m0), before), step)
  {
    hide ConfigOk, Next, Enabled, Sized, Init;
    var before, step := steps[..|steps| - 1], steps[|steps| - 1];
    assert steps == before + [step];
    RunSplit(c, Init(c, m0), before, [step]);
    OneStep(c, After(c, Init(c, m0), before), step);
  }

  lemma OneStep(c: Config, s: State, step: Step)
    requires ConfigOk(c) && IsRun(c, s, [step])
    ensures Sized(c, s) && Enabled(c, s, step) && After(c, s, [step]) == Next(c, s, step)
  {
    hide ConfigOk, Next, Enabled, Sized;
    assert [step][1..] == [];
  }

  /* ---------- what a step records ---------- */

  // The step shows the worker an error of transfer x, told from the state.
  ghost predicate Shows(c: Config, s: State, step: Step, x: nat) {
    match step
    case PostFails(y, _, _) => y == x
    case PostProxyFails(k, _) => k < |c.pipes| && c.pipes[k].xfer == x
    case PollFails(w) => w.id.x == x
    case Dispatch(k, _) => k < |c.pipes| && c.pipes[k].xfer == x && s.resQ != [] && s.resQ[0].flag.None?
    case _ => false
  }

  ghost predicate Records(c: Config, s: State, step: Step, s': State) {
    && |s'.xs| == |s.xs|
    && forall x: nat :: x < |s.xs| ==> (s'.xs[x].failed <==> s.xs[x].failed || Shows(c, s, step, x))
  }

  lemma StepRecords(c: Config, s: State, step: Step)
    requires ConfigOk(c) && Sized(c, s) && Enabled(c, s, step)
    ensures Records(c, s, step, Next(c, s, step))
  {
    hide ConfigOk, Next, Enabled, Sized, Records;
    if step.PostFails? || step.PostProxyFails? || step.PollFails? || step.Dispatch? {
      ErrorRecords(c, s, step);
    } else if step.Poll? {
      PollRecords(c, s, step);
    } else if step.PostDirect? || step.AssignProxy? || step.PostProxy? {
      PostRecords(c, s, step);
    } else {
      OtherRecords(c, s, step);
    }
  }

  lemma ErrorRecords(c: Config, s: State, step: Step)
    requires ConfigOk(c) && Sized(c, s) && Enabled(c, s, step)
    requires step.PostFails? || step.PostProxyFails? || step.PollFails? || step.Dispatch?
    ensures Records(c, s, step, Next(c, s, step))
  {
    hide ConfigOk, ProxyRoom, NicRoom, TryAlloc, ChunkAt, Post, Complete, Awaits, Shape, NextPoll, NextPostProxy,
         NextPostDirect, NextAssignProxy, NextSubmit, NextSubmitFull, NextDrain, NextLaunch, NextFail;
  }

  lemma PollRecords(c: Config, s: State, step: Step)
    requires ConfigOk(c) && Sized(c, s) && Enabled(c, s, step) && step.Poll?
    ensures Records(c, s, step, Next(c, s, step))
  {
    hide ConfigOk, Sized, Complete, CreditPipe, NextPostDirect, NextAssignProxy, NextSubmit, NextSubmitFull,
         NextLaunch, NextDispatch, NextDrain, NextPostProxy, NextFail;
  }

  lemma PostRecords(c: Config, s: State, step: Step)
    requires ConfigOk(c) && Sized(c, s) && Enabled(c, s, step)
    requires step.PostDirect? || step.AssignProxy? || step.PostProxy?
    ensures Records(c, s, step, Next(c, s, step))
  {
    hide ConfigOk, ProxyRoom, NicRoom, TryAlloc, ChunkAt, Post, Awaits, Shape, NextSubmit, NextSubmitFull, NextLaunch,
         NextDispatch, NextDrain, NextPoll, NextFail;
  }

  lemma OtherRecords(c: Config, s: State, step: Step)
    requires ConfigOk(c) && Sized(c, s) && Enabled(c, s, step)
    requires !step.PostFails? && !step.PostProxyFails? && !step.PollFails? && !step.Dispatch?
    requires !step.Poll? && !step.PostDirect? && !step.AssignProxy? && !step.PostProxy?
    ensures Records(c, s, step, Next(c, s, step))
  {
    hide ConfigOk, ProxyRoom, NicRoom, TryAlloc, ChunkAt, Post, Complete, Awaits, Shape, Abandon, DropStages,
         NextPostDirect, NextAssignProxy, NextPostProxy, NextPoll, NextDispatch;
  }

  // Nothing is taken to succeed: wherever a post, a copy or a completion is possible, it can
  // also fail, in every state of the invariant.
  lemma AnythingCanFail(c: Config, s: State, step: Step)
    requires ConfigOk(c) && Core(c, s) && Sized(c, s) && Enabled(c, s, step)
    ensures step.PostDirect? ==> Enabled(c, s, PostFails(step.x, step.n, step.q))
    ensures step.PostProxy? ==> Enabled(c, s, PostProxyFails(step.k, step.q))
    ensures step.Launch? ==> Enabled(c, s, CopyFails)
    ensures step.Execute? || step.Poll? ==> Enabled(c, s, PollFails(step.wr))
  {
    hide Core, ConfigOk, Sized, NicRoom, Awaits, ProxyRoom, TryAlloc, ChunkAt;
    if step.Execute? {
      OutstandingNic(c, s, step.wr);
    }
  }

  lemma OutstandingNic(c: Config, s: State, w: Wr)
    requires ConfigOk(c) && Core(c, s) && w in s.posted
    ensures w.nic < c.nics && w.qp < c.qps
  {
    hide Core, XfersOk, StagesOk, PendingOk, CopyingOk, RequestsOk, ThreadOk, ResultsOk, FlagsOk, JobsOk, WrsOk, LostOk,
         RefusedOk, FlowOk;
    CoreParts(c, s);
    OutstandingWr(c, s, w);
  }

  /* ---------- whole runs ---------- */

  // What the worker sees at its next step is what the steps before it say.
  lemma ShowsIff(c: Config, m0: Memory, before: seq<Step>, step: Step, x: nat)
    requires ConfigOk(c) && IsRun(c, Init(c, m0), before)
    requires Sized(c, After(c, Init(c, m0), before)) && Enabled(c, After(c, Init(c, m0), before), step)
    ensures Shows(c, After(c, Init(c, m0), before), step, x) <==> Errs(c, before, step, x)
  {
    hide ConfigOk, Next, Sized, Init, NicRoom, Awaits, ProxyRoom, TryAlloc, ChunkAt, Answers, Seen;
    AnswersUnseen(c, m0, before);
    var s := After(c, Init(c, m0), before);
    if step.Dispatch? {
      assert OnTheWay(s)[0] == s.resQ[0].flag.Some?;
    }
  }

  // After any run from the start, in order or not, a transfer has an error exactly if the
  // worker has seen one of it.
  lemma {:induction false} FailedIff(c: Config, m0: Memory, steps: seq<Step>, x: nat)
    requires ConfigOk(c) && IsRun(c, Init(c, m0), steps) && x < |c.reqs|
    ensures |After(c, Init(c, m0), steps).xs| == |c.reqs|
    ensures After(c, Init(c, m0), steps).xs[x].failed <==> SomeError(c, steps, x)
    decreases |steps|
  {
    hide ConfigOk, Next, Enabled, SomeError, Errs, Shows, Init;
    if steps == [] {
      InitWay(c, m0);
      NoStepNoError(c, x);
    } else {
      var before, step := steps[..|steps| - 1], steps[|steps| - 1];
      LastStep(c, m0, steps);
      FailedIff(c, m0, before, x);
      StepRecords(c, After(c, Init(c, m0), before), step);
      ShowsIff(c, m0, before, step, x);
      SomeErrorNext(c, before, step, x);
      assert steps == before + [step];
    }
  }

  lemma NoStepNoError(c: Config, x: nat)
    ensures !SomeError(c, [], x)
  {
  }

  // The worker finishes only transfers without an error, and lets go only of those with one.
  lemma EndsByErrors(c: Config, m0: Memory, steps: seq<Step>, x: nat)
    requires ConfigOk(c)
    ensures IsRun(c, Init(c, m0), steps + [Finish(x)]) ==> !SomeError(c, steps, x)
    ensures IsRun(c, Init(c, m0), steps + [Fail(x)]) ==> SomeError(c, steps, x)
  {
    hide ConfigOk, SomeError, Init, IsRun;
    if IsRun(c, Init(c, m0), steps + [Finish(x)]) {
      EndGuard(c, m0, steps, Finish(x));
      FailedIff(c, m0, steps, x);
    }
    if IsRun(c, Init(c, m0), steps + [Fail(x)]) {
      EndGuard(c, m0, steps, Fail(x));
      FailedIff(c, m0, steps, x);
    }
  }

  lemma EndGuard(c: Config, m0: Memory, steps: seq<Step>, step: Step)
    requires ConfigOk(c) && IsRun(c, Init(c, m0), steps + [step]) && (step.Finish? || step.Fail?)
    ensures IsRun(c, Init(c, m0), steps)
    ensures var xs := After(c, Init(c, m0), steps).xs;
      step.x < |c.reqs| && step.x < |xs| && (xs[step.x].failed <==> step.Fail?)
  {
    hide ConfigOk, Init, Next, IsRun;
    RunSplit(c, Init(c, m0), steps, [step]);
    OneStep(c, After(c, Init(c, m0), steps), step);
  }

  /* ---------- after the end ---------- */

  // Nothing of a finished transfer can fail any more.
  lemma NoLateError(c: Config, s: State, step: Step, x: nat)
    requires ConfigOk(c) && Inv(c, s) && Sized(c, s) && Enabled(c, s, step)
    requires x < |s.xs| && s.xs[x].status == Finished
    ensures !Shows(c, s, step, x)
  {
    hide FlowOk, LostOk, RefusedOk, JobsOk, CopyingOk, PendingOk, StagesOk, FlagsOk, ConfigOk, XfersOk, Books, Next,
         NicRoom, Awaits, ProxyRoom, TryAlloc, ChunkAt, WrsOk, ThreadOk, ResultsOk, RequestsOk;
    CoreParts(c, s);
    if step.PollFails? && step.wr.id.x == x {
      OutstandingWr(c, s, step.wr);
      NotAllDone(c, s.xs, s.stage, step.wr.id);
      FinishedIsDone(c, s.xs, s.stage, x);
    }
  }

  lemma FinishedIsDone(c: Config, xs: seq<Xfer>, stage: map<Cid, Stage>, x: nat)
    requires XfersOk(c, xs, stage) && x < |xs| && xs[x].status == Finished
    ensures AllDone(c, xs, x)
  {
    assert XferOk(c, xs[x], x, stage);
  }

  ghost predicate FinishedClean(s: State, x: nat) {
    x < |s.xs| && s.xs[x].status == Finished ==> !s.xs[x].failed
  }

  lemma {:induction false} RunFinishedClean(c: Config, s: State, steps: seq<Step>, x: nat)
    requires ConfigOk(c) && Inv(c, s) && Sized(c, s) && IsRun(c, s, steps) && AllInOrder(c, s, steps)
    requires FinishedClean(s, x)
    ensures FinishedClean(After(c, s, steps), x)
    decreases |steps|
  {
    hide ConfigOk, Inv, Next, Enabled, Sized, Shows, InOrder;
    if steps != [] {
      var n := Next(c, s, steps[0]);
      StepInv(c, s, steps[0]);
      StepSized(c, s, steps[0]);
      StepRecords(c, s, steps[0]);
      PxnAccounting.StepStatus(c, s, steps[0]);
      if x < |s.xs| && s.xs[x].status == Finished {
        NoLateError(c, s, steps[0], x);
      } else if steps[0] == Finish(x) {
        FinishGuard(c, s, x);
      }
      RunFinishedClean(c, n, steps[1..], x);
    }
  }

  lemma FinishGuard(c: Config, s: State, x: nat)
    requires ConfigOk(c) && Sized(c, s) && Enabled(c, s, Finish(x))
    ensures x < |s.xs| && !s.xs[x].failed && !Shows(c, s, Finish(x), x)
  {
  }

  // A run with a finished transfer has no error of it, before or after its end.
  lemma FinishedNoError(c: Config, m0: Memory, steps: seq<Step>, x: nat)
    requires ConfigOk(c) && IsRun(c, Init(c, m0), steps) && AllInOrder(c, Init(c, m0), steps) && x < |c.reqs|
    ensures |After(c, Init(c, m0), steps).xs| == |c.reqs|
    ensures After(c, Init(c, m0), steps).xs[x].status == Finished ==> !SomeError(c, steps, x)
    ensures After(c, Init(c, m0), steps).xs[x].status == Failed ==> SomeError(c, steps, x)
  {
    hide ConfigOk, Inv, Next, Enabled, Sized, SomeError, AllInOrder;
    InitInv(c, m0);
    InitWay(c, m0);
    RunFinishedClean(c, Init(c, m0), steps, x);
    FailedIff(c, m0, steps, x);
    RunInv(c, Init(c, m0), steps);
    if After(c, Init(c, m0), steps).xs[x].status == Failed {
      FailedHasError(c, After(c, Init(c, m0), steps), x);
    }
  }

  lemma FailedHasError(c: Config, s: State, x: nat)
    requires Inv(c, s) && x < |s.xs| && s.xs[x].status == Failed
    ensures s.xs[x].failed
  {
    hide FlowOk, LostOk, RefusedOk, JobsOk, CopyingOk, PendingOk, StagesOk, FlagsOk, ConfigOk, Books, WrsOk, ThreadOk,
         ResultsOk, RequestsOk;
    assert XferOk(c, s.xs[x], x, s.stage);
  }
}

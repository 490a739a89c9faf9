/** Exactly-once accounting over whole runs: how often a chunk is posted and polled, how
    many bytes a finished transfer reports, how many staged transfers are active, and what
    the worker's snapshot of assigned chunks is while it posts. */
module PxnAccounting {
  import opened Chunks
  import opened Layout
  import opened ProxyBuffer
  import opened FlowControl
  import opened PxnModel
  import opened PxnRuns
  import opened PxnInvariant
  import opened PxnQueues
  import opened PxnCounts
  import opened PxnSteps
  import opened PxnFailure
  import opened PxnBooks
  import opened PxnDelivery

  /* ---------- what a step posts and polls ---------- */

  ghost function PostedBy(c: Config, s: State, step: Step): Option<Cid>
    requires ConfigOk(c) && Sized(c, s) && Enabled(c, s, step)
  {
    match step
    case PostDirect(x, _, _) => Some(Cid(x, s.xs[x].next))
    case PostProxy(k, _) => Some(Cid(c.pipes[k].xfer, s.pipes[k].copying[0].chunk))
    case _ => None
  }

  ghost function PolledBy(step: Step): Option<Cid> {
    if step.Poll? then Some(step.wr.id) else None
  }

  ghost predicate IsPosted(stage: map<Cid, Stage>, id: Cid) {
    id in stage && (stage[id].Posted? || stage[id].Done? || (stage[id].Dropped? && stage[id].sent))
  }

  ghost predicate IsDone(stage: map<Cid, Stage>, id: Cid) {
    id in stage && stage[id].Done?
  }

  ghost predicate PostsOnly(stage: map<Cid, Stage>, stage': map<Cid, Stage>, who: Option<Cid>) {
    && (who.Some? ==> !IsPosted(stage, who.value))
    && forall id :: IsPosted(stage', id) <==> IsPosted(stage, id) || who == Some(id)
  }

  ghost predicate DonesOnly(stage: map<Cid, Stage>, stage': map<Cid, Stage>, who: Option<Cid>) {
    && (who.Some? ==> !IsDone(stage, who.value))
    && forall id :: IsDone(stage', id) <==> IsDone(stage, id) || who == Some(id)
  }

  // The parts of the invariant that say where the chunks are.
  ghost predicate Listed(c: Config, s: State) {
    && ConfigOk(c) && Sized(c, s)
    && XfersOk(c, s.xs, s.stage) && StagesOk(c, s.stage) && PendingOk(c, s.pipes, s.stage)
    && CopyingOk(c, s.pipes, s.stage, s.copies, s.nextId) && WrsOk(s.posted, Back(s), s.stage)
  }

  lemma InvListed(c: Config, s: State)
    requires Inv(c, s)
    ensures Listed(c, s)
  {
    hide Core, Books, ConfigOk, XfersOk, StagesOk, PendingOk, CopyingOk, WrsOk, Sized;
    CoreSized(c, s);
    CoreParts(c, s);
  }

  lemma PostDirectStages(c: Config, s: State, step: Step)
    requires Listed(c, s) && Enabled(c, s, step) && (step.PostDirect? || step.AssignProxy?)
    ensures PostsOnly(s.stage, Next(c, s, step).stage, PostedBy(c, s, step))
    ensures DonesOnly(s.stage, Next(c, s, step).stage, PolledBy(step))
  {
    hide ConfigOk, PendingOk, CopyingOk, WrsOk, StagesOk, ProxyRoom, NicRoom, ChunkAt, XferOk;
  }

  lemma SubmitStages(c: Config, s: State, k: nat)
    requires Listed(c, s) && Enabled(c, s, Submit(k))
    ensures PostsOnly(s.stage, Next(c, s, Submit(k)).stage, None)
    ensures DonesOnly(s.stage, Next(c, s, Submit(k)).stage, None)
  {
    hide ConfigOk, CopyingOk, WrsOk, StagesOk, TryAlloc, ChunkAt, XferOk;
    assert IsPending(s.stage, Cid(c.pipes[k].xfer, s.pipes[k].pending[0]), k);
  }

  lemma PostProxyStages(c: Config, s: State, step: Step)
    requires Listed(c, s) && Enabled(c, s, step) && step.PostProxy?
    ensures PostsOnly(s.stage, Next(c, s, step).stage, PostedBy(c, s, step))
    ensures DonesOnly(s.stage, Next(c, s, step).stage, None)
  {
    hide ConfigOk, PendingOk, XfersOk, WrsOk, StagesOk, ChunkAt, NicRoom;
    assert EntryOk(c, step.k, s.pipes[step.k].copying[0], s.stage, s.copies);
  }

  lemma PollStages(c: Config, s: State, step: Step)
    requires Listed(c, s) && Enabled(c, s, step) && step.Poll?
    ensures PostsOnly(s.stage, Next(c, s, step).stage, None)
    ensures DonesOnly(s.stage, Next(c, s, step).stage, PolledBy(step))
  {
    hide ConfigOk, PendingOk, CopyingOk, XfersOk, StagesOk, NextPoll;
    PollStage(c, s, step.wr);
    assert s.stage[step.wr.id].Posted?;
  }

  lemma PollStage(c: Config, s: State, w: Wr)
    requires ConfigOk(c) && Sized(c, s) && Enabled(c, s, Poll(w))
    ensures Next(c, s, Poll(w)).stage == s.stage[w.id := Done]
  {
    hide ConfigOk, Sized, Complete, CreditPipe, CountDone, NextPostDirect, NextAssignProxy, NextSubmit,
         NextSubmitFull, NextLaunch, NextDispatch, NextDrain, NextPostProxy;
  }

  predicate MovesNoChunk(step: Step) {
    !step.PostDirect? && !step.AssignProxy? && !step.Submit? && !step.PostProxy? && !step.Poll? && !step.Fail?
  }

  lemma OtherStages(c: Config, s: State, step: Step)
    requires ConfigOk(c) && Sized(c, s) && Enabled(c, s, step) && MovesNoChunk(step)
    ensures Next(c, s, step).stage == s.stage
  {
    hide ConfigOk, ProxyRoom, NicRoom, TryAlloc, ChunkAt, NextPostDirect, NextAssignProxy, NextSubmit, NextPostProxy,
         NextPoll, NextFail;
  }

  lemma FailStages(c: Config, s: State, x: nat)
    requires ConfigOk(c) && Sized(c, s) && Enabled(c, s, Fail(x))
    ensures PostsOnly(s.stage, Next(c, s, Fail(x)).stage, None) && DonesOnly(s.stage, Next(c, s, Fail(x)).stage, None)
  {
    hide ConfigOk, Abandon;
  }

  lemma StepStages(c: Config, s: State, step: Step)
    requires Inv(c, s) && Enabled(c, s, step)
    ensures PostsOnly(s.stage, Next(c, s, step).stage, PostedBy(c, s, step))
    ensures DonesOnly(s.stage, Next(c, s, step).stage, PolledBy(step))
  {
    hide Inv, Enabled, Next, Listed, ConfigOk, Sized;
    InvListed(c, s);
    InvSized(c, s);
    match step
    case PostDirect(_, _, _) => PostDirectStages(c, s, step);
    case AssignProxy(_) => PostDirectStages(c, s, step);
    case Submit(k) => SubmitStages(c, s, k);
    case PostProxy(_, _) => PostProxyStages(c, s, step);
    case Poll(_) => PollStages(c, s, step);
    case Fail(x) => FailStages(c, s, x);
    case _ => OtherStages(c, s, step);
  }

  /* ---------- exactly once ---------- */

  ghost function One(who: Option<Cid>, id: Cid): nat {
    if who == Some(id) then 1 else 0
  }

  // How many steps of the run post chunk id to a NIC.
  ghost function Posts(c: Config, s: State, steps: seq<Step>, id: Cid): nat
    requires ConfigOk(c) && IsRun(c, s, steps)
    decreases |steps|
  {
    if steps == [] then 0
    else One(PostedBy(c, s, steps[0]), id) + Posts(c, Next(c, s, steps[0]), steps[1..], id)
  }

  // How many steps of the run poll a completion of chunk id.
  ghost function Polls(steps: seq<Step>, id: Cid): nat {
    if steps == [] then 0 else One(PolledBy(steps[0]), id) + Polls(steps[1..], id)
  }

  lemma {:induction false} PostsCounted(c: Config, s: State, steps: seq<Step>, id: Cid)
    requires Inv(c, s) && IsRun(c, s, steps) && AllInOrder(c, s, steps)
    ensures (if IsPosted(s.stage, id) then 1 else 0) + Posts(c, s, steps, id)
      == if IsPosted(After(c, s, steps).stage, id) then 1 else 0
    ensures (if IsDone(s.stage, id) then 1 else 0) + Polls(steps, id)
      == if IsDone(After(c, s, steps).stage, id) then 1 else 0
    decreases |steps|
  {
    hide Inv, ConfigOk, Sized, Enabled, Next, PostedBy, PolledBy, IsPosted, IsDone;
    if steps != [] {
      InvSized(c, s);
      StepStages(c, s, steps[0]);
      StepInv(c, s, steps[0]);
      PostsCounted(c, Next(c, s, steps[0]), steps[1..], id);
    }
  }

  // In every run a chunk is posted at most once and polled at most once, and polled only
  // if it was posted; in a run that finishes a transfer each chunk of it is posted exactly
  // once and polled exactly once.
  lemma ExactlyOnce(c: Config, m0: Memory, steps: seq<Step>, id: Cid)
    requires ConfigOk(c) && IsRun(c, Init(c, m0), steps) && AllInOrder(c, Init(c, m0), steps)
    ensures Polls(steps, id) <= Posts(c, Init(c, m0), steps, id) <= 1
    ensures ValidCid(c, id) && Status(After(c, Init(c, m0), steps), id.x) == Finished ==>
      Polls(steps, id) == Posts(c, Init(c, m0), steps, id) == 1
  {
    hide Core, Books, FlowOk, LostOk, RefusedOk, WrsOk, JobsOk, CopyingOk, PendingOk, StagesOk, FlagsOk, ConfigOk,
         XfersOk;
    InitInv(c, m0);
    RunInv(c, Init(c, m0), steps);
    PostsCounted(c, Init(c, m0), steps, id);
    var s := After(c, Init(c, m0), steps);
    CoreParts(c, s);
    if ValidCid(c, id) && Status(s, id.x) == Finished {
      FinishedAllDone(c, s.xs, s.stage, id);
    }
  }

  ghost function Status(s: State, x: nat): Status {
    if x < |s.xs| then s.xs[x].status else Waiting
  }

  lemma FinishedAllDone(c: Config, xs: seq<Xfer>, stage: map<Cid, Stage>, id: Cid)
    requires XfersOk(c, xs, stage) && id.x < |xs| && xs[id.x].status == Finished
    requires id.x < |c.reqs| && c.reqs[id.x].max > 0 && id.i < Total(c.reqs[id.x])
    ensures IsDone(stage, id)
  {
    assert XferOk(c, xs[id.x], id.x, stage);
    CompletedIffAllDone(c, xs, stage, id.x);
  }

  /* ---------- reported bytes ---------- */

  ghost function BytesPosted(req: Request, x: nat, stage: map<Cid, Stage>, n: nat): nat
    requires req.max > 0 && |req.remoteAddrs| == |req.lengths| > 0
  {
    if n == 0 then 0
    else BytesPosted(req, x, stage, n - 1) + if IsPosted(stage, Cid(x, n - 1)) then ChunkAt(req, n - 1).len else 0
  }

  lemma {:induction false} BytesChange(req: Request, x: nat, stage: map<Cid, Stage>, stage': map<Cid, Stage>,
                                       who: Option<Cid>, n: nat)
    requires req.max > 0 && |req.remoteAddrs| == |req.lengths| > 0 && PostsOnly(stage, stage', who)
    ensures BytesPosted(req, x, stage', n)
      == BytesPosted(req, x, stage, n)
      + if who.Some? && who.value.x == x && who.value.i < n then ChunkAt(req, who.value.i).len else 0
  {
    hide IsPosted, ChunkAt;
    if n > 0 {
      BytesChange(req, x, stage, stage', who, n - 1);
    }
  }

  ghost predicate BytesOk(c: Config, xs: seq<Xfer>, stage: map<Cid, Stage>)
    requires ConfigOk(c)
  {
    && |xs| == |c.reqs|
    && forall x :: 0 <= x < |xs| ==> xs[x].bytes == BytesPosted(c.reqs[x], x, stage, Total(c.reqs[x]))
  }

  // A step adds to a transfer's bytes the length of the chunk that it posts for it.
  ghost predicate BytesStep(c: Config, s: State, step: Step, s': State)
    requires ConfigOk(c) && Sized(c, s) && Enabled(c, s, step)
  {
    var who := PostedBy(c, s, step);
    && |s'.xs| == |s.xs|
    && (who.Some? ==> ValidCid(c, who.value))
    && forall x :: 0 <= x < |s.xs| ==>
         s'.xs[x].bytes == s.xs[x].bytes + if who.Some? && who.value.x == x then Len(c, who.value) else 0
  }

  lemma PostDirectBytes(c: Config, s: State, step: Step)
    requires Listed(c, s) && Enabled(c, s, step) && (step.PostDirect? || step.AssignProxy?)
    ensures BytesStep(c, s, step, Next(c, s, step))
  {
    hide PendingOk, CopyingOk, WrsOk, StagesOk, ProxyRoom, NicRoom, ChunkAt;
  }

  lemma PostProxyBytes(c: Config, s: State, step: Step)
    requires Listed(c, s) && Enabled(c, s, step) && step.PostProxy?
    ensures BytesStep(c, s, step, Next(c, s, step))
  {
    hide ConfigOk, PendingOk, XfersOk, WrsOk, ChunkAt, NicRoom;
    var k := step.k;
    assert EntryOk(c, k, s.pipes[k].copying[0], s.stage, s.copies);
    var id := Cid(c.pipes[k].xfer, s.pipes[k].copying[0].chunk);
    assert StageOk(c, id, s.stage[id]);
  }

  lemma OtherBytes(c: Config, s: State, step: Step)
    requires ConfigOk(c) && Sized(c, s) && Enabled(c, s, step)
    requires !step.PostDirect? && !step.AssignProxy? && !step.PostProxy?
    ensures BytesStep(c, s, step, Next(c, s, step))
  {
    hide ConfigOk, ProxyRoom, NicRoom, TryAlloc, ChunkAt, NextPostDirect, NextAssignProxy, NextPostProxy, Abandon;
  }

  lemma StepBytes(c: Config, s: State, step: Step)
    requires Inv(c, s) && Enabled(c, s, step) && ConfigOk(c) && Sized(c, s)
    ensures BytesStep(c, s, step, Next(c, s, step))
  {
    hide Inv, Enabled, Next, Listed, BytesStep;
    InvListed(c, s);
    if step.PostDirect? || step.AssignProxy? {
      PostDirectBytes(c, s, step);
    } else if step.PostProxy? {
      PostProxyBytes(c, s, step);
    } else {
      OtherBytes(c, s, step);
    }
  }

  lemma StepBytesOk(c: Config, s: State, step: Step)
    requires Inv(c, s) && ConfigOk(c) && Sized(c, s) && Enabled(c, s, step) && BytesOk(c, s.xs, s.stage)
    ensures BytesOk(c, Next(c, s, step).xs, Next(c, s, step).stage)
  {
    hide Inv, Enabled, Next, PostedBy, PostsOnly, ChunkAt, BytesPosted;
    var s' := Next(c, s, step);
    StepStages(c, s, step);
    StepBytes(c, s, step);
    forall x | 0 <= x < |s'.xs|
      ensures s'.xs[x].bytes == BytesPosted(c.reqs[x], x, s'.stage, Total(c.reqs[x]))
    {
      BytesChange(c.reqs[x], x, s.stage, s'.stage, PostedBy(c, s, step), Total(c.reqs[x]));
    }
  }

  lemma {:induction false} RunBytes(c: Config, s: State, steps: seq<Step>)
    requires ConfigOk(c) && Inv(c, s) && IsRun(c, s, steps) && AllInOrder(c, s, steps) && BytesOk(c, s.xs, s.stage)
    ensures BytesOk(c, After(c, s, steps).xs, After(c, s, steps).stage)
    decreases |steps|
  {
    hide Inv, ConfigOk, Sized, Enabled, Next, BytesOk;
    if steps != [] {
      InvSized(c, s);
      StepInv(c, s, steps[0]);
      StepBytesOk(c, s, steps[0]);
      RunBytes(c, Next(c, s, steps[0]), steps[1..]);
    }
  }

  lemma {:induction false} BytesNone(req: Request, x: nat, n: nat)
    requires req.max > 0 && |req.remoteAddrs| == |req.lengths| > 0
    ensures BytesPosted(req, x, map[], n) == 0
  {
    if n > 0 {
      BytesNone(req, x, n - 1);
    }
  }

  lemma {:induction false} BytesAll(req: Request, x: nat, stage: map<Cid, Stage>, n: nat)
    requires req.max > 0 && |req.remoteAddrs| == |req.lengths| > 0
    requires forall i: nat :: i < n ==> IsPosted(stage, Cid(x, i))
    ensures BytesPosted(req, x, stage, n) == ChunkLens(req, n)
  {
    if n > 0 {
      BytesAll(req, x, stage, n - 1);
    }
  }

  lemma InitBytes(c: Config, m0: Memory)
    requires ConfigOk(c)
    ensures BytesOk(c, Init(c, m0).xs, Init(c, m0).stage)
  {
    forall x | 0 <= x < |c.reqs|
      ensures BytesPosted(c.reqs[x], x, map[], Total(c.reqs[x])) == 0
    {
      BytesNone(c.reqs[x], x, Total(c.reqs[x]));
    }
  }

  // The bytes that a finished transfer reports are the sum of its lengths.
  lemma FinishedBytes(c: Config, m0: Memory, steps: seq<Step>, x: nat)
    requires ConfigOk(c) && IsRun(c, Init(c, m0), steps) && AllInOrder(c, Init(c, m0), steps)
    requires x < |c.reqs| && Status(After(c, Init(c, m0), steps), x) == Finished
    ensures After(c, Init(c, m0), steps).xs[x].bytes == SumLengths(c.reqs[x].lengths, |c.reqs[x].lengths|)
  {
    hide Core, Books, FlowOk, LostOk, RefusedOk, WrsOk, JobsOk, CopyingOk, PendingOk, StagesOk, FlagsOk, XfersOk,
         Next, Enabled, BytesPosted;
    InitInv(c, m0);
    InitBytes(c, m0);
    RunInv(c, Init(c, m0), steps);
    RunBytes(c, Init(c, m0), steps);
    var s := After(c, Init(c, m0), steps);
    CoreParts(c, s);
    FinishedBytesOf(c, s.xs, s.stage, x);
  }

  lemma FinishedBytesOf(c: Config, xs: seq<Xfer>, stage: map<Cid, Stage>, x: nat)
    requires ConfigOk(c) && XfersOk(c, xs, stage) && BytesOk(c, xs, stage)
    requires x < |xs| && xs[x].status == Finished
    ensures xs[x].bytes == SumLengths(c.reqs[x].lengths, |c.reqs[x].lengths|)
  {
    var req := c.reqs[x];
    forall i: nat | i < Total(req)
      ensures IsPosted(stage, Cid(x, i))
    {
      FinishedAllDone(c, xs, stage, Cid(x, i));
    }
    BytesAll(req, x, stage, Total(req));
    AllLens(req);
  }

  /* ---------- admission ---------- */

  // A step changes the status of at most one transfer: the one it starts or ends.
  ghost predicate StatusStep(xs: seq<Xfer>, xs': seq<Xfer>, step: Step) {
    && |xs'| == |xs|
    && forall x: nat :: x < |xs| ==> xs'[x].status == StatusAfter(xs[x].status, x, step)
  }

  ghost function StatusAfter(was: Status, x: nat, step: Step): Status {
    if step == Begin(x) then Queued else if step == Activate(x) then Active else if step == Finish(x) then Finished
    else if step == Fail(x) then Failed else was
  }

  lemma PollStatus(c: Config, s: State, step: Step)
    requires ConfigOk(c) && Sized(c, s) && Enabled(c, s, step) && step.Poll?
    ensures StatusStep(s.xs, Next(c, s, step).xs, step)
  {
    hide ConfigOk, Sized, Complete, CreditPipe, NextPostDirect, NextAssignProxy, NextSubmit, NextSubmitFull,
         NextLaunch, NextDispatch, NextDrain, NextPostProxy;
  }

  lemma StepStatus(c: Config, s: State, step: Step)
    requires ConfigOk(c) && Sized(c, s) && Enabled(c, s, step)
    ensures StatusStep(s.xs, Next(c, s, step).xs, step)
  {
    hide ConfigOk, ProxyRoom, NicRoom, TryAlloc, ChunkAt, Post, Awaits, Shape, NextPostDirect, NextAssignProxy,
         NextSubmit, NextSubmitFull, NextLaunch, NextDispatch, NextDrain, NextPostProxy, NextPoll, Abandon, DropStages;
    if step.Poll? {
      PollStatus(c, s, step);
    } else if step.PostDirect? || step.AssignProxy? || step.PostProxy? {
      HandOutStatus(c, s, step);
    } else if step.Submit? || step.SubmitFull? || step.Launch? || step.Dispatch? || step.Drain? {
      PassOnStatus(c, s, step);
    } else if !step.Begin? && !step.Activate? && !step.Finish? && !step.Fail? {
      OtherStatus(c, s, step);
    }
  }

  lemma OtherStatus(c: Config, s: State, step: Step)
    requires ConfigOk(c) && Sized(c, s) && Enabled(c, s, step)
    requires !step.Begin? && !step.Activate? && !step.Finish? && !step.Fail?
    requires !step.Poll? && !step.PostDirect? && !step.AssignProxy? && !step.PostProxy?
    requires !(step.Submit? || step.SubmitFull? || step.Launch? || step.Dispatch? || step.Drain?)
    ensures StatusStep(s.xs, Next(c, s, step).xs, step)
  {
    hide ConfigOk, ProxyRoom, NicRoom, TryAlloc, ChunkAt, Post, Awaits, Shape, NextPostDirect, NextAssignProxy,
         NextSubmit, NextSubmitFull, NextLaunch, NextDispatch, NextDrain, NextPostProxy, NextPoll, NextFail;
  }

  lemma HandOutStatus(c: Config, s: State, step: Step)
    requires ConfigOk(c) && Sized(c, s) && Enabled(c, s, step)
    requires step.PostDirect? || step.AssignProxy? || step.PostProxy?
    ensures StatusStep(s.xs, Next(c, s, step).xs, step)
  {
    hide ConfigOk, ProxyRoom, NicRoom, TryAlloc, ChunkAt, Post, Awaits, Shape, NextSubmit, NextSubmitFull, NextLaunch,
         NextDispatch, NextDrain, NextPoll, NextFail;
  }

  lemma PassOnStatus(c: Config, s: State, step: Step)
    requires ConfigOk(c) && Sized(c, s) && Enabled(c, s, step)
    requires step.Submit? || step.SubmitFull? || step.Launch? || step.Dispatch? || step.Drain?
    ensures StatusStep(s.xs, Next(c, s, step).xs, step)
  {
    hide ConfigOk, ProxyRoom, NicRoom, TryAlloc, ChunkAt, Post, Awaits, Shape, NextPostDirect, NextAssignProxy,
         NextPostProxy, NextPoll, NextFail;
  }

  // The set of active PXN transfers grows by at most the one activated.
  lemma ActiveGrows(c: Config, xs: seq<Xfer>, xs': seq<Xfer>, step: Step)
    requires |xs| == |c.pxn| && StatusStep(xs, xs', step)
    ensures |ActivePxn(c, xs')| <= |ActivePxn(c, xs)|
      + if step.Activate? && step.x < |c.pxn| && c.pxn[step.x] then 1 else 0
  {
    var now, was := ActivePxn(c, xs'), ActivePxn(c, xs);
    if step.Activate? && step.x < |c.pxn| && c.pxn[step.x] {
      assert now <= was + {step.x};
      SubsetSize(now, was + {step.x});
    } else {
      SubsetSize(now, was);
    }
  }

  lemma StepActive(c: Config, s: State, step: Step)
    requires ConfigOk(c) && Sized(c, s) && Enabled(c, s, step) && |ActivePxn(c, s.xs)| <= MAX_ACTIVE_PXN
    ensures |Next(c, s, step).xs| == |s.xs| && |ActivePxn(c, Next(c, s, step).xs)| <= MAX_ACTIVE_PXN
  {
    hide Next, ProxyRoom, NicRoom, TryAlloc, ChunkAt, ActivePxn, Awaits, Shape;
    StepStatus(c, s, step);
    ActiveGrows(c, s.xs, Next(c, s, step).xs, step);
  }

  lemma SubsetSize(a: set<nat>, b: set<nat>)
    requires a <= b
    ensures |a| <= |b|
  {
    assert b == a + (b - a);
  }

  lemma {:induction false} RunActive(c: Config, s: State, steps: seq<Step>)
    requires ConfigOk(c) && Sized(c, s) && IsRun(c, s, steps) && |ActivePxn(c, s.xs)| <= MAX_ACTIVE_PXN
    ensures Sized(c, After(c, s, steps)) && |ActivePxn(c, After(c, s, steps).xs)| <= MAX_ACTIVE_PXN
    decreases |steps|
  {
    hide ConfigOk, Enabled, Next, ActivePxn, Sized;
    if steps != [] {
      StepSized(c, s, steps[0]);
      StepActive(c, s, steps[0]);
      RunActive(c, Next(c, s, steps[0]), steps[1..]);
    }
  }

  // At most five PXN transfers are active and unfinished at any time, whatever is reset.
  lemma AtMostFiveActive(c: Config, m0: Memory, steps: seq<Step>)
    requires ConfigOk(c) && IsRun(c, Init(c, m0), steps)
    ensures Sized(c, After(c, Init(c, m0), steps)) && |ActivePxn(c, After(c, Init(c, m0), steps).xs)| <= 5
  {
    hide Inv, Next, Enabled;
    InitInv(c, m0);
    InvSized(c, Init(c, m0));
    assert ActivePxn(c, Init(c, m0).xs) == {};
    RunActive(c, Init(c, m0), steps);
  }

  /* ---------- the snapshot of assigned chunks ---------- */

  // What the worker adds up at the top of its loop: the active PXN transfers only.
  ghost function ActiveAssigned(c: Config, s: State, n: nat, upTo: nat): nat
    requires Sized(c, s) && upTo <= |s.pipes|
  {
    if upTo == 0 then 0
    else
      ActiveAssigned(c, s, n, upTo - 1)
      + (if c.pipes[upTo - 1].nic == n && Running(s, c.pipes[upTo - 1].xfer) then s.pipes[upTo - 1].assignedOut else 0)
  }

  ghost predicate IdleUnassigned(c: Config, s: State)
    requires Sized(c, s)
  {
    forall k :: 0 <= k < |s.pipes| && !Running(s, c.pipes[k].xfer) ==> s.pipes[k].assignedOut == 0
  }

  lemma {:induction false} ActiveAssignedIsAll(c: Config, s: State, n: nat, upTo: nat)
    requires Sized(c, s) && upTo <= |s.pipes| && IdleUnassigned(c, s)
    ensures ActiveAssigned(c, s, n, upTo) == AssignedOn(c, s.pipes, n, upTo)
  {
    if upTo > 0 {
      ActiveAssignedIsAll(c, s, n, upTo - 1);
    }
  }

  // A pipeline of a transfer that is not running has nothing assigned.
  lemma NotRunningUnassigned(c: Config, s: State, k: nat)
    requires ConfigOk(c) && Sized(c, s) && k < |s.pipes| && !Running(s, c.pipes[k].xfer)
    requires XfersOk(c, s.xs, s.stage) && StagesOk(c, s.stage) && PendingOk(c, s.pipes, s.stage)
    requires CopyingOk(c, s.pipes, s.stage, s.copies, s.nextId) && WrsOk(s.posted, Back(s), s.stage)
    requires CountsOk(c, s.pipes, s.xs, Wrs(s))
    ensures s.pipes[k].assignedOut == 0
  {
    hide XfersOk, PendingOk, CopyingOk, StagesOk, WrsOk;
    assert CountOk(c, s.pipes[k], k, s.xs, Wrs(s));
    if !HasFailed(s.xs, c.pipes[k].xfer) {
      RestingLists(c, s, k);
      RestingVia(c, s, k);
    }
  }

  // A transfer at rest that has not failed has no chunk under way.
  lemma RestingDone(c: Config, xs: seq<Xfer>, stage: map<Cid, Stage>, id: Cid)
    requires XfersOk(c, xs, stage) && StagesOk(c, stage) && id in stage && id.x < |xs|
    requires xs[id.x].status != Active && xs[id.x].status != Failed
    ensures stage[id].Done?
  {
    assert StageOk(c, id, stage[id]);
    assert XferOk(c, xs[id.x], id.x, stage);
    CompletedIffAllDone(c, xs, stage, id.x);
  }

  lemma RestingLists(c: Config, s: State, k: nat)
    requires ConfigOk(c) && Sized(c, s) && k < |s.pipes| && !Running(s, c.pipes[k].xfer)
    requires XfersOk(c, s.xs, s.stage) && StagesOk(c, s.stage) && PendingOk(c, s.pipes, s.stage)
    requires CopyingOk(c, s.pipes, s.stage, s.copies, s.nextId) && !HasFailed(s.xs, c.pipes[k].xfer)
    ensures s.pipes[k].pending == [] && s.pipes[k].copying == []
  {
    hide XfersOk, PendingOk, CopyingOk, StagesOk;
    assert PipeOk(c, c.pipes[k]);
    HeadsStaged(c, s.pipes, s.stage, s.copies, s.nextId, k);
    if s.pipes[k].pending != [] {
      RestingDone(c, s.xs, s.stage, Cid(c.pipes[k].xfer, s.pipes[k].pending[0]));
    } else if s.pipes[k].copying != [] {
      RestingDone(c, s.xs, s.stage, Cid(c.pipes[k].xfer, s.pipes[k].copying[0].chunk));
    }
  }

  lemma RestingVia(c: Config, s: State, k: nat)
    requires ConfigOk(c) && Sized(c, s) && k < |s.pipes| && !Running(s, c.pipes[k].xfer)
    requires XfersOk(c, s.xs, s.stage) && StagesOk(c, s.stage) && WrsOk(s.posted, Back(s), s.stage)
    requires !HasFailed(s.xs, c.pipes[k].xfer)
    ensures Via(Wrs(s), k) == {}
  {
    hide XfersOk, StagesOk, WrsOk, WrOk;
    forall w | w in Wrs(s)
      ensures w.via != Some(k)
    {
      if w.via == Some(k) {
        ViaTransfer(c, s, w);
        OutstandingWr(c, s, w);
        RestingDone(c, s.xs, s.stage, w.id);
      }
    }
  }

  lemma IdleHasNone(c: Config, s: State)
    requires Inv(c, s) && Sized(c, s)
    ensures IdleUnassigned(c, s)
  {
    hide Core, Books, BlocksOk, BufsOk, RecordsOk, FlowOk, LostOk, RefusedOk, CountsOk, WrsOk, JobsOk, CopyingOk,
         PendingOk, StagesOk, FlagsOk, XfersOk;
    CoreSized(c, s);
    CoreParts(c, s);
    BooksParts(c, s);
    forall k | 0 <= k < |s.pipes| && !Running(s, c.pipes[k].xfer)
      ensures s.pipes[k].assignedOut == 0
    {
      NotRunningUnassigned(c, s, k);
    }
  }

  // The steps of the posting phase that give a chunk to a pipeline on NIC n.
  ghost function AssignsTo(c: Config, steps: seq<Step>, n: nat): nat {
    if steps == [] then 0
    else
      AssignsTo(c, steps[1..], n)
      + (if steps[0].AssignProxy? && steps[0].k < |c.pipes| && c.pipes[steps[0].k].nic == n then 1 else 0)
  }

  lemma {:induction false} AssignedChange(c: Config, pipes: seq<Pipe>, n: nat, k: nat, p': Pipe, upTo: nat)
    requires upTo <= |pipes| == |c.pipes| && k < |pipes|
    ensures AssignedOn(c, pipes[k := p'], n, upTo)
      == AssignedOn(c, pipes, n, upTo)
      + if k < upTo && c.pipes[k].nic == n then p'.assignedOut - pipes[k].assignedOut else 0
  {
    if upTo > 0 {
      AssignedChange(c, pipes, n, k, p', upTo - 1);
    }
  }

  // Between two polls the sum changes only by what is assigned.
  lemma StepAssigned(c: Config, s: State, step: Step, n: nat)
    requires ConfigOk(c) && Sized(c, s) && Enabled(c, s, step) && !step.Poll? && !step.Fail?
    requires |Next(c, s, step).pipes| == |s.pipes|
    ensures AssignedOn(c, Next(c, s, step).pipes, n, |s.pipes|)
      == AssignedOn(c, s.pipes, n, |s.pipes|) + AssignsTo(c, [step], n)
  {
    hide ProxyRoom, NicRoom, TryAlloc, ChunkAt, ConfigOk, AssignedOn, Post, Awaits, Shape, NextSubmit, NextDispatch,
         NextDrain, NextPostProxy, NextPoll, NextFail;
    match step
    case AssignProxy(k) => AssignedChange(c, s.pipes, n, k, Next(c, s, step).pipes[k], |s.pipes|);
    case Submit(k) => SubmitAssigned(c, s, step, n);
    case Dispatch(k, j) => SubmitAssigned(c, s, step, n);
    case Drain(k) => PostAssigned(c, s, step, n);
    case PostProxy(k, q) => PostAssigned(c, s, step, n);
    case Cleanup(k) => AssignedChange(c, s.pipes, n, k, Next(c, s, step).pipes[k], |s.pipes|);
    case _ =>
  }

  lemma SubmitAssigned(c: Config, s: State, step: Step, n: nat)
    requires ConfigOk(c) && Sized(c, s) && Enabled(c, s, step) && (step.Submit? || step.Dispatch?)
    ensures |Next(c, s, step).pipes| == |s.pipes|
    ensures AssignedOn(c, Next(c, s, step).pipes, n, |s.pipes|) == AssignedOn(c, s.pipes, n, |s.pipes|)
  {
    hide ProxyRoom, NicRoom, TryAlloc, ChunkAt, ConfigOk, AssignedOn, Post, Awaits, Shape, NextPostDirect,
         NextAssignProxy, NextSubmitFull, NextLaunch, NextDrain, NextPostProxy, NextPoll, NextFail;
    AssignedChange(c, s.pipes, n, step.k, Next(c, s, step).pipes[step.k], |s.pipes|);
  }

  lemma PostAssigned(c: Config, s: State, step: Step, n: nat)
    requires ConfigOk(c) && Sized(c, s) && Enabled(c, s, step) && (step.PostProxy? || step.Drain?)
    ensures |Next(c, s, step).pipes| == |s.pipes|
    ensures AssignedOn(c, Next(c, s, step).pipes, n, |s.pipes|) == AssignedOn(c, s.pipes, n, |s.pipes|)
  {
    hide ProxyRoom, NicRoom, TryAlloc, ChunkAt, ConfigOk, AssignedOn, Post, Awaits, Shape, NextPostDirect,
         NextAssignProxy, NextSubmit, NextSubmitFull, NextLaunch, NextDispatch, NextPoll, NextFail;
    AssignedChange(c, s.pipes, n, step.k, Next(c, s, step).pipes[step.k], |s.pipes|);
  }

  // From the top of the worker's loop up to its polls no completion is polled, and no failed
  // transfer let go.
  ghost predicate NoPoll(steps: seq<Step>) {
    forall j :: 0 <= j < |steps| ==> !steps[j].Poll? && !steps[j].Fail?
  }

  lemma {:induction false} RunAssigned(c: Config, s: State, steps: seq<Step>, n: nat)
    requires ConfigOk(c) && Inv(c, s) && Sized(c, s) && IsRun(c, s, steps) && AllInOrder(c, s, steps) && NoPoll(steps)
    ensures Sized(c, After(c, s, steps))
    ensures AssignedOn(c, After(c, s, steps).pipes, n, |c.pipes|)
      == AssignedOn(c, s.pipes, n, |c.pipes|) + AssignsTo(c, steps, n)
    decreases |steps|
  {
    hide Inv, ConfigOk, Enabled, Next, AssignedOn;
    if steps != [] {
      StepInv(c, s, steps[0]);
      InvSized(c, Next(c, s, steps[0]));
      StepAssigned(c, s, steps[0], n);
      RunAssigned(c, Next(c, s, steps[0]), steps[1..], n);
    }
  }

  // The worker takes the sum over the active PXN transfers once, at the top of its loop,
  // and adds one for each chunk it assigns. Up to its next poll that running number is what
  // the sum over the active transfers would be if taken again.
  lemma SnapshotStaysExact(c: Config, m0: Memory, before: seq<Step>, during: seq<Step>, n: nat)
    requires ConfigOk(c) && IsRun(c, Init(c, m0), before) && AllInOrder(c, Init(c, m0), before)
    requires IsRun(c, After(c, Init(c, m0), before), during) && NoPoll(during)
    requires AllInOrder(c, After(c, Init(c, m0), before), during)
    ensures var s := After(c, Init(c, m0), before); var s' := After(c, s, during);
      && Sized(c, s) && Sized(c, s')
      && ActiveAssigned(c, s', n, |s'.pipes|) == ActiveAssigned(c, s, n, |s.pipes|) + AssignsTo(c, during, n)
  {
    hide Inv, Next, Enabled, ConfigOk;
    InitInv(c, m0);
    var s := After(c, Init(c, m0), before);
    RunInv(c, Init(c, m0), before);
    RunInv(c, s, during);
    var s' := After(c, s, during);
    InvSized(c, s);
    InvSized(c, s');
    RunAssigned(c, s, during, n);
    IdleHasNone(c, s);
    IdleHasNone(c, s');
    ActiveAssignedIsAll(c, s, n, |s.pipes|);
    ActiveAssignedIsAll(c, s', n, |s'.pipes|);
  }
}

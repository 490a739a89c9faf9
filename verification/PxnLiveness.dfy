/** Every fair behaviour finishes every transfer: infinite schedules of the data plane, in
    which a step that could move something on is not passed over for ever. */
module PxnLiveness {
  import opened Chunks
  import opened Layout
  import opened ProxyBuffer
  import opened FlowControl
  import opened PxnModel
  import opened PxnInvariant
  import opened PxnQueues
  import opened PxnSteps
  import opened PxnFailure
  import opened PxnBooks
  import opened PxnDelivery
  import opened PxnWork
  import opened PxnProgress
  import PxnAccounting
  import opened PxnRuns
  import opened PxnErrors

  /* ---------- steps that move nothing take no moving step away ---------- */

  // The two states agree on all that the guards read, but for the allocators and the
  // snapshots.
  ghost predicate Alike(s: State, s': State) {
    && s'.xs == s.xs && s'.reqQ == s.reqQ && s'.ct == s.ct && s'.resQ == s.resQ && s'.jobs == s.jobs
    && s'.posted == s.posted && s'.executed == s.executed && s'.flow == s.flow && s'.flags == s.flags
    && s'.copies == s.copies
    && |s'.pipes| == |s.pipes| && |s'.bufs| == |s.bufs|
    && forall k :: 0 <= k < |s.pipes| ==> SamePipe(s.pipes[k], s'.pipes[k])
  }

  ghost predicate SamePipe(p: Pipe, p': Pipe) {
    p' == p.(snapshot := p'.snapshot)
  }

  lemma {:induction false} AssignedAlike(c: Config, s: State, s': State, n: nat, upTo: nat)
    requires Alike(s, s') && upTo <= |s.pipes| == |c.pipes|
    ensures AssignedOn(c, s'.pipes, n, upTo) == AssignedOn(c, s.pipes, n, upTo)
  {
    if upTo > 0 {
      AssignedAlike(c, s, s', n, upTo - 1);
      assert SamePipe(s.pipes[upTo - 1], s'.pipes[upTo - 1]);
    }
  }

  lemma AlikeHelps(c: Config, s: State, s': State, p: Step)
    requires ConfigOk(c) && Sized(c, s) && Sized(c, s') && Alike(s, s') && Helps(c, s, p)
    requires !p.Submit? && !p.Drain? && (p.Launch? ==> s'.pool == s.pool)
    ensures Helps(c, s', p)
  {
    hide ConfigOk, TryAlloc, ChunkAt, NicRoom, AssignedOn, ProxyRoom, Awaits, SamePipe;
    match p
    case AssignProxy(k) => AssignAlike(c, s, s', k);
    case Dispatch(k, j) => FrontAlike(c, s, s', p);
    case PostProxy(k, q) => FrontAlike(c, s, s', p);
    case Cleanup(k) => FrontAlike(c, s, s', p);
    case Finish(x) => FinishAlike(c, s, s', x);
    case DropResult => DropAlike(c, s, s');
    case Fail(x) => FailAlike(c, s, s', x);
    case _ =>
  }

  lemma DropAlike(c: Config, s: State, s': State)
    requires ConfigOk(c) && Sized(c, s) && Sized(c, s') && Alike(s, s') && Helps(c, s, DropResult)
    ensures Helps(c, s', DropResult)
  {
    hide ConfigOk;
    forall k: nat, j: nat | PipeRunning(c, s', k)
      ensures !Awaits(s', k, j, s'.resQ[0].id)
    {
      assert SamePipe(s.pipes[k], s'.pipes[k]) && !Awaits(s, k, j, s.resQ[0].id);
    }
  }

  lemma FailAlike(c: Config, s: State, s': State, x: nat)
    requires ConfigOk(c) && Sized(c, s) && Sized(c, s') && Alike(s, s') && Helps(c, s, Fail(x))
    ensures Helps(c, s', Fail(x))
  {
    hide ConfigOk;
    forall k, j | 0 <= k < |s'.pipes| && k < |c.pipes| && c.pipes[k].xfer == x && 0 <= j < |s'.pipes[k].copying|
      ensures Launched(s', s'.pipes[k].copying[j].id) && s'.pipes[k].copying[j].id !in s'.jobs
    {
      assert SamePipe(s.pipes[k], s'.pipes[k]) && Launched(s, s.pipes[k].copying[j].id);
    }
  }

  // What is under way does not depend on the transfers' records.
  lemma QuietSame(c: Config, s: State, s': State, x: nat)
    requires Quiet(c, s, x) && s'.pipes == s.pipes && s'.copies == s.copies && s'.jobs == s.jobs
    requires s'.posted == s.posted && s'.executed == s.executed
    ensures Quiet(c, s', x)
  {
    forall k, j | 0 <= k < |s'.pipes| && k < |c.pipes| && c.pipes[k].xfer == x && 0 <= j < |s'.pipes[k].copying|
      ensures Launched(s', s'.pipes[k].copying[j].id)
    {
      assert Launched(s, s.pipes[k].copying[j].id);
    }
  }

  lemma DropSameState(c: Config, s: State, s': State)
    requires ConfigOk(c) && Sized(c, s) && Sized(c, s') && Helps(c, s, DropResult)
    requires s'.pipes == s.pipes && s'.resQ == s.resQ && |s'.xs| == |s.xs|
    requires forall y: nat :: Running(s', y) ==> Running(s, y)
    ensures Helps(c, s', DropResult)
  {
    hide ConfigOk;
    forall k: nat, j: nat | PipeRunning(c, s', k)
      ensures !Awaits(s', k, j, s'.resQ[0].id)
    {
      assert PipeRunning(c, s, k) && !Awaits(s, k, j, s.resQ[0].id);
    }
  }

  lemma AssignAlike(c: Config, s: State, s': State, k: nat)
    requires ConfigOk(c) && Sized(c, s) && Sized(c, s') && Alike(s, s') && Helps(c, s, AssignProxy(k))
    ensures Helps(c, s', AssignProxy(k))
  {
    hide ConfigOk, TryAlloc, ChunkAt, NicRoom, AssignedOn, Awaits;
    assert SamePipe(s.pipes[k], s'.pipes[k]);
    AssignedAlike(c, s, s', c.pipes[k].nic, |s.pipes|);
  }

  lemma FrontAlike(c: Config, s: State, s': State, p: Step)
    requires ConfigOk(c) && Sized(c, s) && Sized(c, s') && Alike(s, s') && Helps(c, s, p)
    requires p.Dispatch? || p.PostProxy? || p.Cleanup?
    ensures Helps(c, s', p)
  {
    hide ConfigOk, TryAlloc, ChunkAt, NicRoom, ProxyRoom;
    assert SamePipe(s.pipes[p.k], s'.pipes[p.k]);
  }

  lemma FinishAlike(c: Config, s: State, s': State, x: nat)
    requires ConfigOk(c) && Sized(c, s) && Sized(c, s') && Alike(s, s') && Helps(c, s, Finish(x))
    ensures Helps(c, s', Finish(x))
  {
    hide ConfigOk, TryAlloc, ChunkAt, NicRoom, AssignedOn, Awaits, ProxyRoom;
    forall k | 0 <= k < |c.pipes| && c.pipes[k].xfer == x
      ensures s'.pipes[k].inflight == []
    {
      assert SamePipe(s.pipes[k], s'.pipes[k]);
    }
  }

  // A submit keeps its room when its allocator is as it was or starts over.
  lemma SubmitHelps(c: Config, s: State, s': State, k: nat)
    requires ConfigOk(c) && Sized(c, s) && Sized(c, s') && Alike(s, s') && Helps(c, s, Submit(k))
    requires forall g :: 0 <= g < |s.bufs| ==> s'.bufs[g] == s.bufs[g] || s'.bufs[g] == Offsets(0, 0)
    ensures Helps(c, s', Submit(k))
  {
    hide TryAlloc, ChunkAt;
    assert SamePipe(s.pipes[k], s'.pipes[k]);
    var g := c.pipes[k].gpu;
    assert PipeOk(c, c.pipes[k]);
    MetSucceeds(Offsets(0, 0), c.bufSize[g], ChunkAt(c.reqs[c.pipes[k].xfer], s.pipes[k].pending[0]).len);
  }

  lemma PassKeeps(c: Config, s: State, k: nat, s': State)
    requires ConfigOk(c) && Sized(c, s) && PipeRunning(c, s, k)
    requires (s' == Next(c, s, Drain(k)) && DrainCount(s.pipes[k]) == 0)
      || (Enabled(c, s, Cleanup(k)) && s' == Next(c, s, Cleanup(k)) && s.pipes[k].inflight == [])
    ensures Alike(s, s') && s'.bufs == s.bufs && s'.pool == s.pool
    ensures forall l :: 0 <= l < |s.pipes| && l != k ==> s'.pipes[l] == s.pipes[l]
  {
    assert PipeOk(c, c.pipes[k]);
    var p := s.pipes[k];
    assert p.inflight[..0] == [] && p.inflight[0..] == p.inflight;
    assert SumUp([]) == 0;
    assert SamePipe(p, s'.pipes[k]);
    assert s'.bufs[c.pipes[k].gpu] == s.bufs[c.pipes[k].gpu];
  }

  lemma CleanupPasses(c: Config, s: State, k: nat)
    requires ConfigOk(c) && Sized(c, s) && Enabled(c, s, Cleanup(k)) && s.pipes[k].inflight == []
    ensures Next(c, s, Cleanup(k)).pipes == s.pipes
  {
    hide ConfigOk;
  }

  // Whether nothing happens or something that moves nothing: what could move still can.
  lemma StillHelps(c: Config, s: State, step: Step, p: Step)
    requires Tidy(c, s) && ConfigOk(c) && Sized(c, s) && Helps(c, s, p)
    requires Enabled(c, s, step) && !Moves(c, s, step) && Sized(c, Next(c, s, step))
    ensures Helps(c, Next(c, s, step), p)
  {
    hide Inv, ConfigOk, TryAlloc, ChunkAt, NicRoom, ProxyRoom, Helps, Clean, Alike, NextPostDirect, NextAssignProxy,
         NextSubmit, NextSubmitFull, NextLaunch, NextDispatch, NextDrain, NextPostProxy, NextPoll, NextFail;
    var s' := Next(c, s, step);
    match step
    case Begin(x) => BeginKeeps(c, s, x, p);
    case UserWrite(at, value) => WriteKeeps(c, s, at, value, p);
    case SubmitFull(k) => FullKeeps(c, s, k, p);
    case Recycle => RecycleKeeps(c, s, p);
    case Reset(g) => ResetKeeps(c, s, g, p);
    case PostFails(_, _, _) => MarkKeeps(c, s, step, p);
    case PostProxyFails(_, _) => MarkKeeps(c, s, step, p);
    case Drain(k) =>
      PassKeeps(c, s, k, s');
      if p.Submit? { SubmitHelps(c, s, s', p.k); }
      else if p.Drain? { DrainKeeps(c, s, s', k, p.k); }
      else { AlikeHelps(c, s, s', p); }
    case Cleanup(k) =>
      PassKeeps(c, s, k, s');
      CleanupPasses(c, s, k);
      if p.Submit? { SubmitHelps(c, s, s', p.k); }
      else if p.Drain? { SameDrain(c, s, s', p.k); }
      else { AlikeHelps(c, s, s', p); }
  }

  lemma DrainKeeps(c: Config, s: State, s': State, k: nat, l: nat)
    requires ConfigOk(c) && Sized(c, s) && Sized(c, s') && Alike(s, s') && Helps(c, s, Drain(l))
    requires k < |s.pipes| && DrainCount(s.pipes[k]) == 0
    requires forall i :: 0 <= i < |s.pipes| && i != k ==> s'.pipes[i] == s.pipes[i]
    ensures Helps(c, s', Drain(l))
  {
    hide ConfigOk;
  }

  lemma SameDrain(c: Config, s: State, s': State, l: nat)
    requires ConfigOk(c) && Sized(c, s) && Sized(c, s') && s'.xs == s.xs && s'.pipes == s.pipes && Helps(c, s, Drain(l))
    ensures Helps(c, s', Drain(l))
  {
    hide ConfigOk;
  }

  lemma FullKeeps(c: Config, s: State, k: nat, p: Step)
    requires ConfigOk(c) && Sized(c, s) && Helps(c, s, p) && Enabled(c, s, SubmitFull(k))
    requires Sized(c, Next(c, s, SubmitFull(k)))
    ensures Helps(c, Next(c, s, SubmitFull(k)), p)
  {
    hide ConfigOk, TryAlloc, ChunkAt, ProxyRoom, NicRoom;
    var s' := Next(c, s, SubmitFull(k));
    assert Alike(s, s') && s'.pool == s.pool && s'.pipes == s.pipes;
    if p.Drain? {
      SameDrain(c, s, s', p.k);
    } else {
      AlikeHelps(c, s, s', p);
    }
  }

  lemma WriteKeeps(c: Config, s: State, at: Loc, value: Byte, p: Step)
    requires ConfigOk(c) && Sized(c, s) && Helps(c, s, p)
    requires Enabled(c, s, UserWrite(at, value)) && Sized(c, Next(c, s, UserWrite(at, value)))
    ensures Helps(c, Next(c, s, UserWrite(at, value)), p)
  {
    hide ConfigOk, TryAlloc, ChunkAt, ProxyRoom, NicRoom;
    var s' := Next(c, s, UserWrite(at, value));
    assert Alike(s, s') && s'.pipes == s.pipes && s'.bufs == s.bufs && s'.pool == s.pool;
    if p.Drain? {
      SameDrain(c, s, s', p.k);
    } else if p.Submit? {
      SubmitHelps(c, s, s', p.k);
    } else {
      AlikeHelps(c, s, s', p);
    }
  }

  // A new transfer changes nothing for those that run.
  lemma BeginKeeps(c: Config, s: State, x: nat, p: Step)
    requires ConfigOk(c) && Sized(c, s) && Helps(c, s, p) && Enabled(c, s, Begin(x)) && Sized(c, Next(c, s, Begin(x)))
    ensures Helps(c, Next(c, s, Begin(x)), p)
  {
    hide Next, Helps;
    BeginOthers(c, s, x);
    if p.Activate? || p.AssignProxy? {
      BeginKeepsLoad(c, s, x, p, Next(c, s, Begin(x)));
    } else {
      BeginKeepsOther(c, s, x, p, Next(c, s, Begin(x)));
    }
  }

  // The states differ in the transfer that was waiting and is queued now.
  ghost predicate NewlyQueued(s: State, x: nat, s': State) {
    && x < |s.xs| == |s'.xs| && s.xs[x].status == Waiting && s'.xs[x].status == Queued
    && (forall y: nat :: y < |s.xs| && y != x ==> s'.xs[y] == s.xs[y])
    && s' == s.(xs := s'.xs, base := s'.base)
  }

  lemma BeginOthers(c: Config, s: State, x: nat)
    requires ConfigOk(c) && Sized(c, s) && Enabled(c, s, Begin(x))
    ensures NewlyQueued(s, x, Next(c, s, Begin(x)))
  {
    hide ConfigOk, Sized;
  }

  lemma LoadSized(c: Config)
    requires ConfigOk(c)
    ensures |c.pxn| == |c.alpha| == |c.reqs|
  {
  }

  lemma SameActives(c: Config, s: State, x: nat, s': State)
    requires |s.xs| == |c.pxn| && NewlyQueued(s, x, s')
    ensures ActivePxn(c, s'.xs) == ActivePxn(c, s.xs)
  {
  }

  lemma SameRoom(c: Config, s: State, s': State, x: nat, n: nat)
    requires Sized(c, s) && Sized(c, s') && |c.pxn| == |c.alpha| == |c.reqs| && x < |c.reqs| && n < c.nics
    requires s'.flow == s.flow && s'.pipes == s.pipes && ActivePxn(c, s'.xs) == ActivePxn(c, s.xs)
    ensures ProxyRoom(c, s', x, n) <==> ProxyRoom(c, s, x, n)
  {
    hide AssignedOn, NicOut, Shape, ActivePxn;
  }

  lemma BeginKeepsLoad(c: Config, s: State, x: nat, p: Step, s': State)
    requires ConfigOk(c) && Sized(c, s) && Sized(c, s') && Helps(c, s, p) && NewlyQueued(s, x, s')
    requires p.Activate? || p.AssignProxy?
    ensures Helps(c, s', p)
  {
    hide ConfigOk, ProxyRoom, Shape, ActivePxn;
    LoadSized(c);
    SameActives(c, s, x, s');
    if p.AssignProxy? {
      PipeNic(c, p.k);
      SameRoom(c, s, s', c.pipes[p.k].xfer, c.pipes[p.k].nic);
    }
  }

  lemma PipeNic(c: Config, k: nat)
    requires ConfigOk(c) && k < |c.pipes|
    ensures c.pipes[k].xfer < |c.reqs| && c.pipes[k].nic < c.nics
  {
    assert PipeOk(c, c.pipes[k]);
  }

  lemma BeginKeepsOther(c: Config, s: State, x: nat, p: Step, s': State)
    requires ConfigOk(c) && Sized(c, s) && Sized(c, s') && Helps(c, s, p) && NewlyQueued(s, x, s')
    requires !p.Activate? && !p.AssignProxy?
    ensures Helps(c, s', p)
  {
    hide ConfigOk, ProxyRoom, NicRoom, TryAlloc, ChunkAt, Shape, ActivePxn, Quiet;
    if p.Fail? {
      QuietSame(c, s, s', p.x);
    } else if p.DropResult? {
      DropSameState(c, s, s');
    }
  }

  /* ---------- an error is recorded ---------- */

  // The states differ in the mark of one transfer.
  ghost predicate NewlyMarked(s: State, x: nat, s': State) {
    && x < |s.xs| == |s'.xs| && s'.xs[x] == s.xs[x].(failed := true)
    && (forall y: nat :: y < |s.xs| && y != x ==> s'.xs[y] == s.xs[y])
    && s' == s.(xs := s'.xs)
  }

  // A transfer with a chunk to post has not completed every chunk: what its error takes away
  // was not there.
  lemma MarkedUndone(c: Config, s: State, step: Step, x: nat)
    requires ConfigOk(c) && Sized(c, s) && Inv(c, s) && Enabled(c, s, step)
    requires (step.PostFails? && x == step.x) || (step.PostProxyFails? && x == c.pipes[step.k].xfer)
    ensures x < |s.xs| && s.xs[x].completed < Total(c.reqs[x])
  {
    hide Core, Books, XfersOk, StagesOk, CopyingOk, PendingOk, WrsOk, FlagsOk, JobsOk, LostOk, RefusedOk, FlowOk,
         RequestsOk, NicRoom, ThreadOk, ResultsOk, ConfigOk, ProxyRoom, TryAlloc, ChunkAt, Awaits;
    CoreSized(c, s);
    CoreParts(c, s);
    if step.PostFails? {
      CompletedIffAllDone(c, s.xs, s.stage, x);
    } else {
      FrontUndone(c, s, step.k);
    }
  }

  lemma FrontUndone(c: Config, s: State, k: nat)
    requires Sized(c, s) && k < |s.pipes| && s.pipes[k].copying != []
    requires XfersOk(c, s.xs, s.stage) && StagesOk(c, s.stage)
    requires CopyingOk(c, s.pipes, s.stage, s.copies, s.nextId)
    ensures !AllDone(c, s.xs, c.pipes[k].xfer)
    ensures c.pipes[k].xfer < |c.reqs| && c.reqs[c.pipes[k].xfer].max > 0
  {
    hide XfersOk, StagesOk, Sized;
    var id := Cid(c.pipes[k].xfer, s.pipes[k].copying[0].chunk);
    assert EntryOk(c, k, s.pipes[k].copying[0], s.stage, s.copies);
    StageValid(c, s.stage, id);
    NotAllDone(c, s.xs, s.stage, id);
  }

  lemma StageValid(c: Config, stage: map<Cid, Stage>, id: Cid)
    requires StagesOk(c, stage) && id in stage
    ensures ValidCid(c, id)
  {
    assert StageOk(c, id, stage[id]);
  }

  lemma MarkKeeps(c: Config, s: State, step: Step, p: Step)
    requires Inv(c, s) && ConfigOk(c) && Sized(c, s) && Helps(c, s, p) && Enabled(c, s, step)
    requires (step.PostFails? || step.PostProxyFails?) && Sized(c, Next(c, s, step))
    ensures Helps(c, Next(c, s, step), p)
  {
    hide Inv, ConfigOk, NicRoom, ProxyRoom, Helps, NextPostDirect, NextAssignProxy, NextSubmit, NextSubmitFull,
         NextLaunch, NextDispatch, NextDrain, NextPostProxy, NextPoll, NextFail;
    var x := if step.PostFails? then step.x else c.pipes[step.k].xfer;
    var s' := Next(c, s, step);
    MarkedUndone(c, s, step, x);
    if p.Activate? || p.AssignProxy? {
      MarkKeepsLoad(c, s, x, p, s');
    } else {
      MarkKeepsOther(c, s, x, p, s');
    }
  }

  lemma MarkKeepsLoad(c: Config, s: State, x: nat, p: Step, s': State)
    requires ConfigOk(c) && Sized(c, s) && Sized(c, s') && Helps(c, s, p) && NewlyMarked(s, x, s')
    requires p.Activate? || p.AssignProxy?
    ensures Helps(c, s', p)
  {
    hide ConfigOk, ProxyRoom, Shape, ActivePxn;
    LoadSized(c);
    MarkedActives(c, s, x, s');
    if p.AssignProxy? {
      PipeNic(c, p.k);
      SameRoom(c, s, s', c.pipes[p.k].xfer, c.pipes[p.k].nic);
    }
  }

  lemma MarkedActives(c: Config, s: State, x: nat, s': State)
    requires |s.xs| == |c.pxn| && NewlyMarked(s, x, s')
    ensures ActivePxn(c, s'.xs) == ActivePxn(c, s.xs)
  {
  }

  lemma MarkKeepsOther(c: Config, s: State, x: nat, p: Step, s': State)
    requires ConfigOk(c) && Sized(c, s) && Sized(c, s') && Helps(c, s, p) && NewlyMarked(s, x, s')
    requires s.xs[x].completed < Total(c.reqs[x]) && !p.Activate? && !p.AssignProxy?
    ensures Helps(c, s', p)
  {
    hide ConfigOk, ProxyRoom, NicRoom, TryAlloc, ChunkAt, Shape, ActivePxn, Total, Quiet;
    if p.Fail? {
      QuietSame(c, s, s', p.x);
    } else if p.DropResult? {
      DropSameState(c, s, s');
    }
  }

  lemma RecycleKeeps(c: Config, s: State, p: Step)
    requires ConfigOk(c) && Sized(c, s) && Helps(c, s, p) && Enabled(c, s, Recycle)
    requires Sized(c, Next(c, s, Recycle))
    ensures Helps(c, Next(c, s, Recycle), p)
  {
    hide ConfigOk, TryAlloc, ChunkAt, ProxyRoom, NicRoom;
    var s' := Next(c, s, Recycle);
    assert Alike(s, s') && s'.pipes == s.pipes && s'.bufs == s.bufs;
    if p.Drain? {
      SameDrain(c, s, s', p.k);
    } else if p.Submit? {
      SubmitHelps(c, s, s', p.k);
    } else {
      AlikeHelps(c, s, s', p);
    }
  }

  lemma ResetKeeps(c: Config, s: State, g: nat, p: Step)
    requires ConfigOk(c) && Sized(c, s) && Helps(c, s, p) && Enabled(c, s, Reset(g))
    requires Sized(c, Next(c, s, Reset(g)))
    ensures Helps(c, Next(c, s, Reset(g)), p)
  {
    hide ConfigOk, TryAlloc, ChunkAt, ProxyRoom, NicRoom;
    var s' := Next(c, s, Reset(g));
    assert Alike(s, s') && s'.pool == s.pool && s'.pipes == s.pipes;
    if p.Drain? {
      SameDrain(c, s, s', p.k);
    } else if p.Submit? {
      SubmitHelps(c, s, s', p.k);
    } else {
      AlikeHelps(c, s, s', p);
    }
  }

  /* ---------- infinite behaviours ---------- */

  // States and steps by time; None is a moment in which nothing happens.
  datatype Behaviour = Behaviour(at: nat -> State, does: nat -> Option<Step>)

  ghost predicate Tick(c: Config, b: Behaviour, i: nat)
    requires ConfigOk(c)
  {
    && Sized(c, b.at(i))
    && match b.does(i)
       case None => b.at(i + 1) == b.at(i)
       case Some(step) => Enabled(c, b.at(i), step) && b.at(i + 1) == Next(c, b.at(i), step)
  }

  ghost predicate IsBehaviour(c: Config, m0: Memory, b: Behaviour)
    requires ConfigOk(c)
  {
    b.at(0) == Init(c, m0) && forall i: nat :: Tick(c, b, i)
  }

  ghost predicate CanMove(c: Config, s: State, p: Step)
    requires ConfigOk(c)
  {
    Sized(c, s) && Helps(c, s, p)
  }

  ghost predicate MovesAt(c: Config, b: Behaviour, i: nat)
    requires ConfigOk(c)
  {
    b.does(i).Some? && CanMove(c, b.at(i), b.does(i).value)
  }

  ghost predicate AlwaysCan(c: Config, b: Behaviour, i: nat, p: Step)
    requires ConfigOk(c)
  {
    forall j: nat :: i <= j ==> CanMove(c, b.at(j), p)
  }

  ghost predicate MovesFrom(c: Config, b: Behaviour, i: nat)
    requires ConfigOk(c)
  {
    exists j: nat :: i <= j && MovesAt(c, b, j)
  }

  // If from some moment on a step could always move something, then something does move
  // from that moment on. Weak fairness to each step implies it.
  ghost predicate Fair(c: Config, b: Behaviour)
    requires ConfigOk(c)
  {
    forall i: nat, p: Step :: AlwaysCan(c, b, i, p) ==> MovesFrom(c, b, i)
  }

  // No allocator is reset in use, and no failed transfer let go with something of its pipelines
  // under way.
  ghost predicate Orderly(c: Config, b: Behaviour)
    requires ConfigOk(c)
  {
    forall i: nat :: b.does(i).Some? ==> InOrder(c, b.at(i), b.does(i).value)
  }

  lemma OrderlyAt(c: Config, b: Behaviour, i: nat)
    requires ConfigOk(c) && Orderly(c, b) && b.does(i).Some?
    ensures InOrder(c, b.at(i), b.does(i).value)
  {
    hide InOrder;
  }

  // A step in order that moves something is one that helps.
  lemma HelpsIff(c: Config, s: State, step: Step)
    requires ConfigOk(c) && Sized(c, s) && Enabled(c, s, step) && InOrder(c, s, step)
    ensures Helps(c, s, step) <==> Moves(c, s, step)
  {
    hide ConfigOk, Sized, Enabled, Moves, Quiet;
  }

  ghost predicate CarefulAt(c: Config, b: Behaviour, i: nat)
    requires ConfigOk(c)
  {
    b.does(i).Some? && Sized(c, b.at(i)) ==> Careful(c, b.at(i), b.does(i).value)
  }

  lemma {:induction false} TidyAt(c: Config, m0: Memory, b: Behaviour, i: nat)
    requires ConfigOk(c) && IsBehaviour(c, m0, b) && Orderly(c, b)
    ensures Tidy(c, b.at(i)) && Sized(c, b.at(i))
  {
    hide ConfigOk, Tidy, Next, Enabled, Sized, Init, InOrder;
    if i == 0 {
      InitTidy(c, m0);
    } else {
      TidyAt(c, m0, b, i - 1);
      assert Tick(c, b, i - 1);
      if b.does(i - 1).Some? {
        StepTidy(c, b.at(i - 1), b.does(i - 1).value);
      }
    }
  }

  lemma TickWork(c: Config, m0: Memory, b: Behaviour, i: nat)
    requires ConfigOk(c) && IsBehaviour(c, m0, b) && Orderly(c, b) && Sized(c, b.at(i)) && Sized(c, b.at(i + 1))
    ensures Work(c, b.at(i + 1)) <= Work(c, b.at(i))
    ensures MovesAt(c, b, i) ==> Work(c, b.at(i + 1)) < Work(c, b.at(i))
  {
    hide ConfigOk, Inv, Clean, Next, Enabled, Sized, Init, Work, Moves, Orderly;
    TidyAt(c, m0, b, i);
    assert Tick(c, b, i);
    if b.does(i).Some? {
      StepWork(c, b.at(i), b.does(i).value);
    }
  }

  lemma {:induction false} WorkFallsTo(c: Config, m0: Memory, b: Behaviour, i: nat, j: nat)
    requires ConfigOk(c) && IsBehaviour(c, m0, b) && Orderly(c, b) && i <= j
    ensures Sized(c, b.at(i)) && Sized(c, b.at(j)) && Work(c, b.at(j)) <= Work(c, b.at(i))
    decreases j
  {
    hide ConfigOk, Tidy, IsBehaviour, Work, Sized, Orderly;
    TidyAt(c, m0, b, i);
    TidyAt(c, m0, b, j);
    if i < j {
      WorkFallsTo(c, m0, b, i, j - 1);
      TickWork(c, m0, b, j - 1);
    }
  }

  // As long as nothing moves, a step that could move something still could.
  lemma {:induction false} KeepsHelping(c: Config, m0: Memory, b: Behaviour, i: nat, j: nat, p: Step)
    requires ConfigOk(c) && IsBehaviour(c, m0, b) && Orderly(c, b) && i <= j && CanMove(c, b.at(i), p)
    requires forall l: nat :: i <= l ==> !MovesAt(c, b, l)
    ensures CanMove(c, b.at(j), p)
    decreases j
  {
    hide ConfigOk, Tidy, Next, Enabled, Sized, Moves, Init, Orderly;
    if i < j {
      KeepsHelping(c, m0, b, i, j - 1, p);
      TidyAt(c, m0, b, j - 1);
      TidyAt(c, m0, b, j);
      assert Tick(c, b, j - 1) && !MovesAt(c, b, j - 1);
      if b.does(j - 1).Some? {
        OrderlyAt(c, b, j - 1);
        HelpsIff(c, b.at(j - 1), b.does(j - 1).value);
        StillHelps(c, b.at(j - 1), b.does(j - 1).value, p);
      }
    }
  }

  // A behaviour stuck while a transfer runs passes over a step for ever.
  lemma AlwaysHelped(c: Config, m0: Memory, b: Behaviour, i: nat, x: nat) returns (p: Step)
    requires ConfigOk(c) && IsBehaviour(c, m0, b) && Orderly(c, b) && Live(b.at(i).xs, x) && !MovesFrom(c, b, i)
    ensures AlwaysCan(c, b, i, p)
  {
    hide ConfigOk, Tidy, Next, Enabled, Sized, Moves, IsBehaviour, MovesAt, Live, Orderly;
    TidyAt(c, m0, b, i);
    p := NoDeadlock(c, b.at(i), x);
    forall l: nat | i <= l
      ensures CanMove(c, b.at(l), p)
    {
      KeepsHelping(c, m0, b, i, l, p);
    }
  }

  lemma NextMove(c: Config, m0: Memory, b: Behaviour, i: nat, x: nat) returns (j: nat)
    requires ConfigOk(c) && IsBehaviour(c, m0, b) && Orderly(c, b) && Fair(c, b) && Live(b.at(i).xs, x)
    ensures i <= j && MovesAt(c, b, j)
  {
    hide ConfigOk, IsBehaviour, MovesAt, CanMove, Live, Orderly;
    if !MovesFrom(c, b, i) {
      var p := AlwaysHelped(c, m0, b, i, x);
    }
    j :| i <= j && MovesAt(c, b, j);
  }

  /* ---------- one transfer from its start to its end ---------- */

  ghost predicate FinishesAt(b: Behaviour, j: nat, x: nat) {
    b.does(j) == Some(Finish(x))
  }

  ghost predicate FailsAt(b: Behaviour, j: nat, x: nat) {
    b.does(j) == Some(Fail(x))
  }

  // A transfer that runs goes on running until the worker lets go of it.
  lemma StepRuns(c: Config, s: State, step: Step, x: nat)
    requires ConfigOk(c) && Sized(c, s) && Enabled(c, s, step) && Live(s.xs, x)
    ensures Live(Next(c, s, step).xs, x) || step == Finish(x) || step == Fail(x)
  {
    hide Next, ConfigOk, ProxyRoom, NicRoom, TryAlloc, ChunkAt, Awaits, Shape;
    PxnAccounting.StepStatus(c, s, step);
  }

  lemma {:induction false} RunsUntil(c: Config, m0: Memory, b: Behaviour, i: nat, j: nat, x: nat)
    requires ConfigOk(c) && IsBehaviour(c, m0, b) && i <= j && Live(b.at(i).xs, x)
    ensures Live(b.at(j).xs, x) || exists l: nat :: i <= l < j && (FinishesAt(b, l, x) || FailsAt(b, l, x))
    decreases j
  {
    hide ConfigOk, Next, Enabled, Sized, Init, Live;
    if i < j {
      RunsUntil(c, m0, b, i, j - 1, x);
      assert Tick(c, b, j - 1);
      if Live(b.at(j - 1).xs, x) && b.does(j - 1).Some? {
        StepRuns(c, b.at(j - 1), b.does(j - 1).value, x);
        assert b.does(j - 1).value == Finish(x) ==> FinishesAt(b, j - 1, x);
        assert b.does(j - 1).value == Fail(x) ==> FailsAt(b, j - 1, x);
      }
    }
  }

  // Under fairness the worker finishes every transfer that was started, or lets go of it
  // because of an error.
  lemma {:induction false} EveryTransferEnds(c: Config, m0: Memory, b: Behaviour, i: nat, x: nat) returns (j: nat)
    requires ConfigOk(c) && IsBehaviour(c, m0, b) && Orderly(c, b) && Fair(c, b) && Live(b.at(i).xs, x)
    ensures i <= j && (FinishesAt(b, j, x) || FailsAt(b, j, x))
    decreases WorkAt(c, b, i)
  {
    hide ConfigOk, Tidy, Next, Enabled, Sized, Moves, IsBehaviour, MovesAt, Work, Fair, Live, Orderly;
    var m := NextMove(c, m0, b, i, x);
    WorkFallsTo(c, m0, b, i, m);
    TidyAt(c, m0, b, m + 1);
    TickWork(c, m0, b, m);
    RunsUntil(c, m0, b, i, m + 1, x);
    if Live(b.at(m + 1).xs, x) {
      j := EveryTransferEnds(c, m0, b, m + 1, x);
    } else {
      j :| i <= j < m + 1 && (FinishesAt(b, j, x) || FailsAt(b, j, x));
    }
  }

  // The steps taken before moment i.
  ghost function StepsTo(b: Behaviour, i: nat): seq<Step> {
    if i == 0 then []
    else StepsTo(b, i - 1) + match b.does(i - 1)
                             case None => []
                             case Some(step) => [step]
  }

  lemma {:induction false} RunTo(c: Config, m0: Memory, b: Behaviour, i: nat)
    requires ConfigOk(c) && IsBehaviour(c, m0, b)
    ensures IsRun(c, Init(c, m0), StepsTo(b, i)) && After(c, Init(c, m0), StepsTo(b, i)) == b.at(i)
  {
    hide ConfigOk, Enabled, Next, Init, Sized;
    if i > 0 {
      RunTo(c, m0, b, i - 1);
      assert Tick(c, b, i - 1);
      if b.does(i - 1).Some? {
        RunNext(c, Init(c, m0), StepsTo(b, i - 1), b.does(i - 1).value);
      } else {
        assert StepsTo(b, i) == StepsTo(b, i - 1);
      }
    }
  }

  // No post of transfer x is refused, none of its copies, and no work request of it comes back
  // with an error.
  ghost predicate NoError(c: Config, b: Behaviour, x: nat) {
    forall i: nat :: !SomeError(c, StepsTo(b, i), x)
  }

  // A transfer without an error is finished.
  lemma EveryTransferFinishes(c: Config, m0: Memory, b: Behaviour, i: nat, x: nat) returns (j: nat)
    requires ConfigOk(c) && IsBehaviour(c, m0, b) && Orderly(c, b) && Fair(c, b) && Live(b.at(i).xs, x)
    requires NoError(c, b, x)
    ensures i <= j && FinishesAt(b, j, x)
  {
    hide ConfigOk, Next, IsBehaviour, Fair, Live, Orderly, Sized, Enabled, SomeError, StepsTo;
    j := EveryTransferEnds(c, m0, b, i, x);
    EndsAt(c, m0, b, j, x);
  }

  // What the worker has seen of a transfer that it finishes or lets go of.
  lemma EndsAt(c: Config, m0: Memory, b: Behaviour, j: nat, x: nat)
    requires ConfigOk(c) && IsBehaviour(c, m0, b)
    ensures FinishesAt(b, j, x) ==> !SomeError(c, StepsTo(b, j), x)
    ensures FailsAt(b, j, x) ==> SomeError(c, StepsTo(b, j), x)
  {
    hide ConfigOk, Next, IsBehaviour, Sized, Enabled, SomeError, Init, StepsTo;
    if FinishesAt(b, j, x) || FailsAt(b, j, x) {
      RunTo(c, m0, b, j);
      EnabledAt(c, m0, b, j, b.does(j).value);
      RunNext(c, Init(c, m0), StepsTo(b, j), b.does(j).value);
      EndsByErrors(c, m0, StepsTo(b, j), x);
    }
  }

  ghost function WorkAt(c: Config, b: Behaviour, i: nat): nat
    requires ConfigOk(c)
  {
    if Sized(c, b.at(i)) then Work(c, b.at(i)) else 0
  }

  /* ---------- and its data ---------- */

  lemma {:induction false} DataAt(c: Config, m0: Memory, b: Behaviour, i: nat)
    requires ConfigOk(c) && IsBehaviour(c, m0, b) && Orderly(c, b) && forall j: nat :: CarefulAt(c, b, j)
    ensures Inv(c, b.at(i)) && Sized(c, b.at(i)) && DataInv(c, b.at(i))
  {
    hide ConfigOk, Inv, Clean, Next, Enabled, Sized, Init, DataInv, Careful, Orderly;
    TidyAt(c, m0, b, i);
    if i == 0 {
      InitData(c, m0);
    } else {
      DataAt(c, m0, b, i - 1);
      assert Tick(c, b, i - 1) && CarefulAt(c, b, i - 1);
      if b.does(i - 1).Some? {
        OrderlyAt(c, b, i - 1);
        FailsCalledBack(c, b.at(i - 1), b.does(i - 1).value);
        StepData(c, b.at(i - 1), b.does(i - 1).value);
      }
    }
  }

  lemma {:induction false} BaseAt(c: Config, m0: Memory, b: Behaviour, i: nat, j: nat, x: nat)
    requires ConfigOk(c) && IsBehaviour(c, m0, b) && i <= j && x < |b.at(i).xs| && b.at(i).xs[x].status != Waiting
    ensures x < |b.at(j).xs| && b.at(j).xs[x].status != Waiting
    ensures BaseOf(b.at(j).base, x) == BaseOf(b.at(i).base, x)
    decreases j
  {
    hide ConfigOk, Next, Enabled, Sized, Init, BaseOf;
    if i < j {
      BaseAt(c, m0, b, i, j - 1, x);
      assert Tick(c, b, j - 1);
      if b.does(j - 1).Some? {
        StepBase(c, b.at(j - 1), b.does(j - 1).value, x);
      }
    }
  }

  // Total correctness: in every fair behaviour of users who keep to the rules, every
  // transfer that is started comes to the moment at which the worker finishes it, and then
  // every host's range holds exactly its slice of what the source held at the start; or the
  // worker lets go of it, which it does if and only if something of it has failed. What other
  // transfers run into makes no difference to it.
  lemma EveryTransferDelivered(c: Config, m0: Memory, b: Behaviour, i: nat, x: nat) returns (j: nat)
    requires ConfigOk(c) && IsBehaviour(c, m0, b) && Orderly(c, b) && (forall l: nat :: CarefulAt(c, b, l))
      && Fair(c, b)
    requires b.does(i) == Some(Begin(x))
    ensures i < j && (FinishesAt(b, j, x) || FailsAt(b, j, x))
    ensures FinishesAt(b, j, x) ==>
      x < |c.reqs| && WellFormed(c.reqs[x]) && Delivered(c.reqs[x], b.at(i).mem, b.at(j).mem)
    ensures FinishesAt(b, j, x) <==> !SomeError(c, StepsTo(b, j), x)
  {
    hide ConfigOk, Inv, DataInv, Next, IsBehaviour, Fair, Delivered, BaseOf, Orderly, CarefulAt, Sized, Live, SomeError,
         StepsTo;
    BegunAt(c, m0, b, i, x);
    j := EveryTransferEnds(c, m0, b, i + 1, x);
    BaseAt(c, m0, b, i + 1, j, x);
    DataAt(c, m0, b, j);
    if FinishesAt(b, j, x) {
      EnabledAt(c, m0, b, j, Finish(x));
      FinishDelivers(c, b.at(j), x);
    }
    EndsAt(c, m0, b, j, x);
  }

  lemma EnabledAt(c: Config, m0: Memory, b: Behaviour, i: nat, step: Step)
    requires ConfigOk(c) && IsBehaviour(c, m0, b) && b.does(i) == Some(step)
    ensures Sized(c, b.at(i)) && Enabled(c, b.at(i), step) && b.at(i + 1) == Next(c, b.at(i), step)
  {
    hide ConfigOk, Sized, Enabled, Next, Init;
    assert Tick(c, b, i);
  }

  lemma BegunAt(c: Config, m0: Memory, b: Behaviour, i: nat, x: nat)
    requires ConfigOk(c) && IsBehaviour(c, m0, b) && b.does(i) == Some(Begin(x))
    ensures Live(b.at(i + 1).xs, x) && x < |b.at(i + 1).xs| && b.at(i + 1).xs[x].status != Waiting
    ensures BaseOf(b.at(i + 1).base, x) == b.at(i).mem
  {
    EnabledAt(c, m0, b, i, Begin(x));
    StartRecords(c, b.at(i), x);
  }
}

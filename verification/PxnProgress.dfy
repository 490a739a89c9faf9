/** No deadlock: in every reachable state with an unfinished transfer some actor has a step
    that moves something on. With the falling measure, every transfer can finish, and no
    run takes more such steps than the measure of its first state. */
module PxnProgress {
  import opened Chunks
  import opened Layout
  import opened ProxyBuffer
  import opened FlowControl
  import opened PxnModel
  import opened PxnInvariant
  import opened PxnQueues
  import opened PxnFlags
  import opened PxnCounts
  import opened PxnSteps
  import opened PxnFailure
  import opened PxnBooks
  import opened PxnDelivery
  import opened PxnAccounting
  import opened PxnWork

  /* ---------- records of transfers that are not running ---------- */

  ghost predicate Active(xs: seq<Xfer>, x: nat) {
    x < |xs| && xs[x].status == Status.Active
  }

  // A transfer that is not running owes its buffers no record.
  ghost predicate Clean(c: Config, xs: seq<Xfer>, pipes: seq<Pipe>) {
    && |pipes| == |c.pipes|
    && forall k :: 0 <= k < |pipes| && pipes[k].inflight != [] ==> Active(xs, c.pipes[k].xfer)
  }

  lemma PollClean(c: Config, s: State, w: Wr)
    requires ConfigOk(c) && Sized(c, s) && Enabled(c, s, Poll(w)) && Clean(c, s.xs, s.pipes)
    ensures Clean(c, Next(c, s, Poll(w)).xs, Next(c, s, Poll(w)).pipes)
  {
    hide ConfigOk, Complete, PipeOn, Shape, NextPostDirect, NextAssignProxy, NextSubmit, NextSubmitFull, NextLaunch,
         NextDispatch, NextDrain, NextPostProxy;
  }

  // A pipeline's records only shrink, but for a post by a running transfer; and a running
  // transfer ends only with no record left.
  lemma CleanKept(c: Config, xs: seq<Xfer>, pipes: seq<Pipe>, xs': seq<Xfer>, pipes': seq<Pipe>)
    requires Clean(c, xs, pipes) && |pipes'| == |pipes| && |xs'| == |xs|
    requires forall k :: 0 <= k < |pipes| && pipes'[k].inflight != [] ==>
      (pipes[k].inflight != [] || Active(xs, c.pipes[k].xfer))
    requires forall k :: 0 <= k < |pipes| && pipes'[k].inflight != [] && Active(xs, c.pipes[k].xfer) ==>
      Active(xs', c.pipes[k].xfer)
    ensures Clean(c, xs', pipes')
  {
  }

  lemma StepClean(c: Config, s: State, step: Step)
    requires ConfigOk(c) && Sized(c, s) && Enabled(c, s, step) && Clean(c, s.xs, s.pipes)
    ensures Clean(c, Next(c, s, step).xs, Next(c, s, step).pipes)
  {
    hide ConfigOk, ProxyRoom, NicRoom, TryAlloc, ChunkAt, Clean, Post, Awaits, Shape, NextPostDirect, NextAssignProxy,
         NextSubmit, NextDispatch, NextDrain, NextPostProxy, NextPoll, NextFail;
    if step.Poll? {
      PollClean(c, s, step.wr);
    } else if step.Fail? {
      FailClean(c, s, step.x);
    } else if step.PostDirect? || step.AssignProxy? || step.PostProxy? {
      HandOutClean(c, s, step);
    } else if step.Submit? || step.Dispatch? || step.Drain? {
      PassOnClean(c, s, step);
    } else {
      CleanKept(c, s.xs, s.pipes, Next(c, s, step).xs, Next(c, s, step).pipes);
    }
  }

  lemma FailClean(c: Config, s: State, x: nat)
    requires ConfigOk(c) && Sized(c, s) && Enabled(c, s, Fail(x)) && Clean(c, s.xs, s.pipes)
    ensures Clean(c, NextFail(c, s, x).xs, NextFail(c, s, x).pipes)
  {
    hide ConfigOk, Abandon, DropStages;
    AbandonPipes(c, s, x, |c.pipes|);
  }

  lemma HandOutClean(c: Config, s: State, step: Step)
    requires ConfigOk(c) && Sized(c, s) && Enabled(c, s, step) && Clean(c, s.xs, s.pipes)
    requires step.PostDirect? || step.AssignProxy? || step.PostProxy?
    ensures Clean(c, Next(c, s, step).xs, Next(c, s, step).pipes)
  {
    hide ConfigOk, ProxyRoom, NicRoom, TryAlloc, ChunkAt, Clean, Post, Awaits, Shape, NextSubmit, NextSubmitFull,
         NextLaunch, NextDispatch, NextDrain, NextPoll, NextFail;
    CleanKept(c, s.xs, s.pipes, Next(c, s, step).xs, Next(c, s, step).pipes);
  }

  lemma PassOnClean(c: Config, s: State, step: Step)
    requires ConfigOk(c) && Sized(c, s) && Enabled(c, s, step) && Clean(c, s.xs, s.pipes)
    requires step.Submit? || step.Dispatch? || step.Drain?
    ensures Clean(c, Next(c, s, step).xs, Next(c, s, step).pipes)
  {
    hide ConfigOk, ProxyRoom, NicRoom, TryAlloc, ChunkAt, Clean, Post, Awaits, Shape, NextPostDirect, NextAssignProxy,
         NextSubmitFull, NextLaunch, NextPostProxy, NextPoll, NextFail;
    CleanKept(c, s.xs, s.pipes, Next(c, s, step).xs, Next(c, s, step).pipes);
  }

  // The invariant of runs, with nothing owed by transfers at rest.
  ghost predicate Tidy(c: Config, s: State) {
    Inv(c, s) && Clean(c, s.xs, s.pipes)
  }

  lemma InitTidy(c: Config, m0: Memory)
    requires ConfigOk(c)
    ensures Tidy(c, Init(c, m0)) && Sized(c, Init(c, m0))
  {
    hide Inv;
    InitInv(c, m0);
    InvSized(c, Init(c, m0));
  }

  lemma StepTidy(c: Config, s: State, step: Step)
    requires Tidy(c, s) && ConfigOk(c) && Sized(c, s) && Enabled(c, s, step) && InOrder(c, s, step)
    ensures Tidy(c, Next(c, s, step)) && Sized(c, Next(c, s, step))
  {
    hide Inv, Next, Enabled, ConfigOk, Sized, Clean, InOrder;
    StepInv(c, s, step);
    InvSized(c, Next(c, s, step));
    StepClean(c, s, step);
  }

  /* ---------- the case split ---------- */

  // A step of worker, copy thread, GPU or NICs that moves something on. A failed transfer is
  // let go only when that is in order.
  ghost predicate Helps(c: Config, s: State, step: Step)
    requires ConfigOk(c) && Sized(c, s)
  {
    Enabled(c, s, step) && Moves(c, s, step) && (step.Fail? ==> Quiet(c, s, step.x))
  }

  // A work request is outstanding: the NIC executes it or the worker polls it.
  lemma WrHelps(c: Config, s: State) returns (step: Step)
    requires ConfigOk(c) && Sized(c, s) && StagesOk(c, s.stage) && WrsOk(s.posted, Back(s), s.stage)
    requires s.posted + s.executed != {}
    ensures Helps(c, s, step)
  {
    hide ConfigOk, Sized, Helps;
    var w :| w in s.posted + s.executed;
    WrBounds(c, s, w);
    if w in s.posted {
      step := Execute(w);
      ExecuteHelps(c, s, w);
    } else {
      step := Poll(w);
      PollHelps(c, s, w);
    }
  }

  lemma ExecuteHelps(c: Config, s: State, w: Wr)
    requires ConfigOk(c) && Sized(c, s) && w in s.posted
    ensures Helps(c, s, Execute(w))
  {
    hide ConfigOk, Sized, ProxyRoom, NicRoom, TryAlloc, Awaits, CanSubmit, DrainCount;
  }

  lemma PollHelps(c: Config, s: State, w: Wr)
    requires ConfigOk(c) && Sized(c, s) && w in s.executed && w.nic < c.nics && w.qp < c.qps
    ensures Helps(c, s, Poll(w))
  {
    hide ConfigOk, Sized, ProxyRoom, NicRoom, TryAlloc, Awaits, CanSubmit, DrainCount;
  }

  lemma WrBounds(c: Config, s: State, w: Wr)
    requires StagesOk(c, s.stage) && WrsOk(s.posted, Back(s), s.stage) && w in Wrs(s)
    ensures w.nic < c.nics && w.qp < c.qps
  {
    assert StageOk(c, w.id, s.stage[w.id]);
  }

  lemma FreshFlag(flags: set<nat>) returns (f: nat)
    ensures f !in flags
  {
    f := 0;
    var rest := flags;
    while f in flags
      invariant rest <= flags
      invariant forall g :: g in flags && g >= f ==> g in rest
      decreases rest
    {
      rest := rest - {f};
      f := f + 1;
    }
  }

  lemma LaunchHelps(c: Config, s: State) returns (step: Step)
    requires ConfigOk(c) && Sized(c, s) && s.ct.Popped?
    ensures Helps(c, s, step)
  {
    hide ConfigOk, Sized;
    var f := 0;
    if s.pool != [] {
      f := s.pool[|s.pool| - 1];
    } else {
      f := FreshFlag(s.flags.Keys);
    }
    step := Launch(f);
  }

  // A result in the queue is awaited, so the worker can dispatch it, or belongs to a dropped
  // chunk, and the worker drops it.
  lemma DispatchHelps(c: Config, s: State) returns (step: Step)
    requires Inv(c, s) && ConfigOk(c) && Sized(c, s) && s.resQ != []
    ensures Helps(c, s, step)
  {
    hide Core, Books, ConfigOk, Sized, PipeRunning, Awaits, Orphan;
    ResultAwaited(c, s);
    if Orphan(s.stage, s.copies, s.resQ[0].id) {
      step := DropResult;
    } else {
      var k: nat, j: nat :| PipeRunning(c, s, k) && Awaits(s, k, j, s.resQ[0].id);
      step := Dispatch(k, j);
    }
  }

  lemma PushHelps(c: Config, s: State) returns (step: Step)
    requires Inv(c, s) && ConfigOk(c) && Sized(c, s) && s.ct.Pushing?
    ensures Helps(c, s, step)
  {
    hide Inv, ConfigOk, Sized;
    if |s.resQ| < COPY_QUEUE_CAPACITY {
      step := PushResult;
    } else {
      step := DispatchHelps(c, s);
    }
  }

  // A busy copy thread or a waiting request: the thread goes on, or the worker makes room
  // for its result.
  lemma ThreadHelps(c: Config, s: State) returns (step: Step)
    requires Inv(c, s) && ConfigOk(c) && Sized(c, s)
    requires !s.ct.Looking? || s.reqQ != []
    ensures Helps(c, s, step)
  {
    hide Inv, ConfigOk, Sized;
    match s.ct
    case Looking => step := PopRequest;
    case Popped(_) => step := LaunchHelps(c, s);
    case Pushing(_) => step := PushHelps(c, s);
  }

  lemma JobHelps(c: Config, s: State, id: nat) returns (step: Step)
    requires ConfigOk(c) && Sized(c, s) && id in s.jobs
    ensures Helps(c, s, step)
  {
    hide ConfigOk, Sized;
    step := if s.jobs[id].landed then Callback(id) else Land(id);
  }

  // With nothing outstanding every queue pair has room.
  lemma IdleRoom(c: Config, s: State, n: nat)
    requires ConfigOk(c) && Sized(c, s) && FlowOk(c, s.flow, {}) && n < c.nics
    ensures NicOut(s.flow, n) == 0 && NicRoom(c, s.flow, n, 0) && c.MaxPerNic() > 0
  {
    forall q | 0 <= q < c.qps
      ensures QpOut(s.flow, n, q) == 0
    {
      assert OnQp({}, n, q) == {};
    }
    SumQpsZero(s.flow, c.nics, c.qps, n, c.qps);
    assert c.maxPerQp * c.qps > 0;
  }

  // Chunk j of the copying list of pipeline k still waits for its copy's callback.
  ghost predicate UnderWay(s: State, k: nat, j: nat) {
    && k < |s.pipes| && j < |s.pipes[k].copying|
    && !(Launched(s, s.pipes[k].copying[j].id) && s.pipes[k].copying[j].id !in s.jobs)
  }

  // A copy that is not launched, or whose callback has yet to run: somebody goes on with it.
  lemma CopyHelps(c: Config, s: State, k: nat, j: nat) returns (step: Step)
    requires Inv(c, s) && ConfigOk(c) && Sized(c, s) && UnderWay(s, k, j)
    ensures Helps(c, s, step)
  {
    hide Books, FlowOk, WrsOk, LostOk, RefusedOk, JobsOk, PendingOk, StagesOk, FlagsOk, XfersOk, Helps, ConfigOk,
         Sized;
    var cc := s.pipes[k].copying[j];
    assert EntryOk(c, k, cc, s.stage, s.copies);
    if cc.id in s.jobs {
      step := JobHelps(c, s, cc.id);
    } else {
      assert s.copies[cc.id].at == InRequests ==> InRequestQ(s.reqQ, cc.id);
      step := ThreadHelps(c, s);
    }
  }

  // Every copy of the lists has had its callback.
  ghost predicate AllBack(s: State) {
    forall k: nat, j: nat :: !UnderWay(s, k, j)
  }

  // Then a transfer that has failed can be let go.
  lemma FailHelps(c: Config, s: State, x: nat)
    requires ConfigOk(c) && Sized(c, s) && AllBack(s) && s.posted + s.executed == {}
    requires Running(s, x) && s.xs[x].failed
    ensures Helps(c, s, Fail(x))
  {
    hide ConfigOk, Sized, AllBack;
    forall k, j | 0 <= k < |s.pipes| && k < |c.pipes| && c.pipes[k].xfer == x && 0 <= j < |s.pipes[k].copying|
      ensures Launched(s, s.pipes[k].copying[j].id) && s.pipes[k].copying[j].id !in s.jobs
    {
      BackAt(s, k, j);
    }
  }

  // And a front chunk with a flag can be posted; without one its transfer has failed.
  lemma FrontHelps(c: Config, s: State, k: nat) returns (step: Step)
    requires Inv(c, s) && ConfigOk(c) && Sized(c, s) && k < |s.pipes| && s.pipes[k].copying != []
    requires AllBack(s) && s.posted + s.executed == {}
    ensures Helps(c, s, step)
  {
    hide Books, FlowOk, WrsOk, LostOk, RefusedOk, JobsOk, PendingOk, StagesOk, FlagsOk, XfersOk, Helps, ConfigOk,
         Sized, AllBack;
    BackAt(s, k, 0);
    var cc := s.pipes[k].copying[0];
    assert EntryOk(c, k, cc, s.stage, s.copies);
    match s.copies[cc.id].at
    case WithResult => step := ThreadHelps(c, s);
    case InResults =>
      assert InResultQ(s.resQ, cc.id);
      step := DispatchHelps(c, s);
    case Received =>
      FrontRunning(c, s, k);
      if cc.flag.None? {
        step := Fail(c.pipes[k].xfer);
        FailHelps(c, s, c.pipes[k].xfer);
      } else {
        step := PostProxy(k, 0);
        PostHelps(c, s, k);
      }
  }

  lemma BackAt(s: State, k: nat, j: nat)
    requires AllBack(s) && k < |s.pipes| && j < |s.pipes[k].copying|
    ensures Launched(s, s.pipes[k].copying[j].id) && s.pipes[k].copying[j].id !in s.jobs
  {
    assert !UnderWay(s, k, j);
  }

  lemma FrontRunning(c: Config, s: State, k: nat)
    requires ConfigOk(c) && Sized(c, s) && k < |s.pipes| && s.pipes[k].copying != []
    requires XfersOk(c, s.xs, s.stage) && StagesOk(c, s.stage) && RefusedOk(c, s.pipes, s.xs)
    requires CopyingOk(c, s.pipes, s.stage, s.copies, s.nextId) && s.pipes[k].copying[0].received
    ensures PipeRunning(c, s, k)
    ensures s.pipes[k].copying[0].flag.None? ==> s.xs[c.pipes[k].xfer].failed
  {
    hide XfersOk, StagesOk, ConfigOk, CopyOk;
    var cc := s.pipes[k].copying[0];
    assert EntryOk(c, k, cc, s.stage, s.copies);
    UndoneRunning(c, s.xs, s.stage, Cid(c.pipes[k].xfer, cc.chunk));
    assert Refused(cc) <==> cc.flag.None?;
  }

  lemma PostHelps(c: Config, s: State, k: nat)
    requires ConfigOk(c) && Sized(c, s) && PipeRunning(c, s, k) && k < |s.pipes| && s.pipes[k].copying != []
    requires CopyingOk(c, s.pipes, s.stage, s.copies, s.nextId) && FlowOk(c, s.flow, s.posted + s.executed)
    requires FlagsOk(s.copies, s.jobs, s.flags, s.pool, s.recycleQ) && s.posted + s.executed == {}
    requires var cc := s.pipes[k].copying[0]; cc.received && cc.flag.Some? && cc.id !in s.jobs
    ensures Helps(c, s, PostProxy(k, 0))
  {
    hide FreeFlagsOk, NoneLost, FlowOk, NicRoom, CopyOk, ChunkAt;
    var cc := s.pipes[k].copying[0];
    assert EntryOk(c, k, cc, s.stage, s.copies);
    assert InUse(s.copies, cc.id);
    assert PipeOk(c, c.pipes[k]);
    IdleRoom(c, s, c.pipes[k].nic);
  }

  // Records with nothing outstanding: completions are in, and the pass over the pipeline
  // gives records back; or the requests were lost, and the transfer has failed.
  lemma RecordHelps(c: Config, s: State, k: nat) returns (step: Step)
    requires ConfigOk(c) && Sized(c, s) && k < |s.pipes| && s.pipes[k].inflight != [] && AllBack(s)
    requires StagesOk(c, s.stage) && WrsOk(s.posted, Back(s), s.stage) && LostOk(s.xs, s.executed, s.lost)
    requires CountsOk(c, s.pipes, s.xs, Wrs(s)) && Clean(c, s.xs, s.pipes) && s.posted + s.executed == {}
    ensures Helps(c, s, step)
  {
    hide ConfigOk, StagesOk, WrsOk, AllBack, Quiet;
    assert CountOk(c, s.pipes[k], k, s.xs, Wrs(s));
    if DrainCount(s.pipes[k]) > 0 {
      step := Drain(k);
    } else {
      assert |Via(Wrs(s), k)| > 0;
      var w :| w in Via(Wrs(s), k);
      OutstandingLost(c, s, w);
      step := Fail(c.pipes[k].xfer);
      FailHelps(c, s, c.pipes[k].xfer);
    }
  }

  lemma OutstandingLost(c: Config, s: State, w: Wr)
    requires StagesOk(c, s.stage) && WrsOk(s.posted, Back(s), s.stage) && LostOk(s.xs, s.executed, s.lost)
    requires w in Wrs(s) && w.via.Some? && s.posted + s.executed == {}
    ensures w.via.value < |c.pipes| && c.pipes[w.via.value].xfer == w.id.x
    ensures w.id.x < |s.xs| && s.xs[w.id.x].failed
  {
    hide StagesOk, WrsOk;
    assert w !in s.posted + s.executed;
    ViaTransfer(c, s, w);
  }

  ghost predicate NoneStaged(pipes: seq<Pipe>) {
    forall k :: 0 <= k < |pipes| ==> pipes[k].copying == [] && pipes[k].inflight == []
  }

  // Nothing uses the buffers, so a pending chunk finds room in its own.
  lemma PendingHelps(c: Config, s: State, k: nat) returns (step: Step)
    requires ConfigOk(c) && Sized(c, s) && k < |s.pipes| && s.pipes[k].pending != [] && NoneStaged(s.pipes)
    requires XfersOk(c, s.xs, s.stage) && StagesOk(c, s.stage) && PendingOk(c, s.pipes, s.stage)
    requires BufsOk(c, s.pipes, s.bufs) && s.reqQ == []
    ensures Helps(c, s, step)
  {
    hide XfersOk, ChunkAt, TryAlloc, OwedOn;
    var id := Cid(c.pipes[k].xfer, s.pipes[k].pending[0]);
    assert IsPending(s.stage, id, k);
    UndoneRunning(c, s.xs, s.stage, id);
    assert PipeOk(c, c.pipes[k]);
    var g := c.pipes[k].gpu;
    OwedNothing(c, s.pipes, g, |s.pipes|);
    assert BufOk(s.bufs[g], c.bufSize[g], 0);
    MetSucceeds(s.bufs[g], c.bufSize[g], ChunkAt(c.reqs[id.x], id.i).len);
    step := Submit(k);
  }

  lemma MetSucceeds(o: Offsets, size: nat, len: nat)
    requires o.free >= o.alloc
    ensures TryAlloc(o, size, len).Some?
  {
  }

  lemma {:induction false} NoneAssigned(c: Config, pipes: seq<Pipe>, n: nat, upTo: nat)
    requires upTo <= |pipes| == |c.pipes| && forall k :: 0 <= k < |pipes| ==> pipes[k].assignedOut == 0
    ensures AssignedOn(c, pipes, n, upTo) == 0
  {
    if upTo > 0 {
      NoneAssigned(c, pipes, n, upTo - 1);
    }
  }

  lemma IdleProxyRoom(c: Config, s: State, x: nat, n: nat)
    requires ConfigOk(c) && Sized(c, s) && x < |c.reqs| && n < c.nics && FlowOk(c, s.flow, {})
    requires forall k :: 0 <= k < |s.pipes| ==> s.pipes[k].assignedOut == 0
    ensures ProxyRoom(c, s, x, n)
  {
    hide AssignedOn, NicOut, NicRoom;
    IdleRoom(c, s, n);
    NoneAssigned(c, s.pipes, n, |s.pipes|);
    ZeroLoad(c.alpha[x], c.MaxPerNic(), |ActivePxn(c, s.xs)|);
  }

  lemma ZeroLoad(alpha: real, m: nat, actives: nat)
    requires m > 0
    ensures (0 as real * alpha + 0 as real).Floor < m + 2 * m * (if actives == 0 then 1 else actives)
  {
    assert 0 as real * alpha == 0.0;
    assert 2 * m * (if actives == 0 then 1 else actives) >= 0;
  }

  // A running transfer with chunks to hand out, and nothing assigned anywhere.
  lemma HandOutHelps(c: Config, s: State, x: nat) returns (step: Step)
    requires ConfigOk(c) && Sized(c, s) && Running(s, x) && s.xs[x].next < Total(c.reqs[x])
    requires FlowOk(c, s.flow, {}) && forall k :: 0 <= k < |s.pipes| ==> s.pipes[k].assignedOut == 0
    ensures Helps(c, s, step)
  {
    hide FlowOk, ProxyRoom, NicRoom;
    if c.direct[x] != {} {
      var n :| n in c.direct[x];
      IdleRoom(c, s, n);
      step := PostDirect(x, n, 0);
    } else {
      var k: nat :| k < |c.pipes| && c.pipes[k].xfer == x;
      assert PipeOk(c, c.pipes[k]);
      IdleProxyRoom(c, s, x, c.pipes[k].nic);
      step := AssignProxy(k);
    }
  }

  // What is left when every list is empty and no request is with a NIC.
  ghost predicate AtRest(s: State) {
    && (forall id :: id in s.stage ==>
          s.stage[id].Done? || s.stage[id].Dropped? || (s.stage[id].Posted? && s.stage[id].wr in s.lost))
    && (forall k :: 0 <= k < |s.pipes| ==>
          s.pipes[k].assignedOut == 0 && s.pipes[k].copying == [] && s.pipes[k].inflight == [])
    && s.posted + s.executed == {}
  }

  // The transfer hands out, ends, or starts.
  lemma TransferHelps(c: Config, s: State, x: nat) returns (step: Step)
    requires ConfigOk(c) && Sized(c, s) && Live(s.xs, x) && AtRest(s)
    requires FlowOk(c, s.flow, s.posted + s.executed) && XfersOk(c, s.xs, s.stage)
    requires StagesOk(c, s.stage) && WrsOk(s.posted, Back(s), s.stage) && LostOk(s.xs, s.executed, s.lost)
    ensures Helps(c, s, step)
  {
    hide FlowOk, WrsOk, LostOk, StagesOk, XfersOk, ProxyRoom, NicRoom, AtRest;
    if s.xs[x].status == Queued {
      if y :| y in ActivePxn(c, s.xs) {
        step := RunningHelps(c, s, y);
      } else {
        assert ActivePxn(c, s.xs) == {};
        step := Activate(x);
      }
    } else {
      step := RunningHelps(c, s, x);
    }
  }

  lemma RunningHelps(c: Config, s: State, x: nat) returns (step: Step)
    requires ConfigOk(c) && Sized(c, s) && Running(s, x) && AtRest(s)
    requires FlowOk(c, s.flow, s.posted + s.executed) && XfersOk(c, s.xs, s.stage)
    requires StagesOk(c, s.stage) && WrsOk(s.posted, Back(s), s.stage) && LostOk(s.xs, s.executed, s.lost)
    ensures Helps(c, s, step)
  {
    hide FlowOk, WrsOk, LostOk, StagesOk, XfersOk, ProxyRoom, NicRoom, Helps;
    if s.xs[x].next < Total(c.reqs[x]) {
      step := HandOutHelps(c, s, x);
    } else if s.xs[x].failed {
      step := Fail(x);
      FailHelps(c, s, x);
    } else {
      step := Finish(x);
      FinishHelps(c, s, x);
    }
  }

  // A transfer that has handed out every chunk, with no error, has completed them.
  lemma FinishHelps(c: Config, s: State, x: nat)
    requires ConfigOk(c) && Sized(c, s) && Running(s, x) && AtRest(s) && !s.xs[x].failed
    requires XfersOk(c, s.xs, s.stage) && s.xs[x].next >= Total(c.reqs[x])
    requires StagesOk(c, s.stage) && WrsOk(s.posted, Back(s), s.stage) && LostOk(s.xs, s.executed, s.lost)
    ensures Helps(c, s, Finish(x))
  {
    hide ConfigOk, StagesOk;
    forall i: nat | i < Total(c.reqs[x])
      ensures Cid(x, i) in s.stage && s.stage[Cid(x, i)].Done?
    {
      assert XferOk(c, s.xs[x], x, s.stage);
      assert Cid(x, i) in s.stage && StatusFits(s.xs[x].status, s.stage[Cid(x, i)]);
    }
    CompletedIffAllDone(c, s.xs, s.stage, x);
  }

  /* ---------- no deadlock ---------- */

  lemma NothingPending(c: Config, s: State)
    requires ConfigOk(c) && Sized(c, s) && NoneStaged(s.pipes) && s.posted + s.executed == {}
    requires forall k :: 0 <= k < |s.pipes| ==> s.pipes[k].pending == []
    requires PendingOk(c, s.pipes, s.stage) && CopyingOk(c, s.pipes, s.stage, s.copies, s.nextId)
    requires WrsOk(s.posted, Back(s), s.stage) && CountsOk(c, s.pipes, s.xs, Wrs(s))
    requires XfersOk(c, s.xs, s.stage) && StagesOk(c, s.stage)
    ensures AtRest(s)
  {
    hide ConfigOk, XfersOk, StagesOk, CountsOk;
    assert Wrs(s) == s.lost;
    forall id | id in s.stage
      ensures s.stage[id].Done? || s.stage[id].Dropped? || (s.stage[id].Posted? && s.stage[id].wr in s.lost)
    {
      assert s.stage[id].Copying? ==> CopyOk(s.pipes, s.stage, s.copies, s.stage[id].id);
    }
    forall k | 0 <= k < |s.pipes|
      ensures s.pipes[k].assignedOut == 0
    {
      DoneNoVia(c, s, k);
      NoneAssignedAt(c, s, k);
    }
  }

  // A transfer that has completed every chunk has no request.
  lemma DoneNoVia(c: Config, s: State, k: nat)
    requires ConfigOk(c) && k < |c.pipes| && XfersOk(c, s.xs, s.stage) && StagesOk(c, s.stage)
    requires WrsOk(s.posted, Back(s), s.stage)
    ensures AllDone(c, s.xs, c.pipes[k].xfer) ==> Via(Wrs(s), k) == {}
  {
    hide ConfigOk, XfersOk, StagesOk, WrsOk, WrOk, AllDone;
    forall w | w in Via(Wrs(s), k)
      ensures !AllDone(c, s.xs, c.pipes[k].xfer)
    {
      ViaTransfer(c, s, w);
      OutstandingWr(c, s, w);
      NotAllDone(c, s.xs, s.stage, w.id);
    }
  }

  // No record means no staged request, and nothing assigned.
  lemma NoneAssignedAt(c: Config, s: State, k: nat)
    requires k < |s.pipes| && CountsOk(c, s.pipes, s.xs, Wrs(s)) && s.pipes[k].pending == []
    requires s.pipes[k].copying == [] && s.pipes[k].inflight == []
    requires AllDone(c, s.xs, c.pipes[k].xfer) ==> Via(Wrs(s), k) == {}
    ensures s.pipes[k].assignedOut == 0
  {
    assert CountOk(c, s.pipes[k], k, s.xs, Wrs(s));
  }

  lemma NoRequest(c: Config, s: State)
    requires NoneStaged(s.pipes) && CopyingOk(c, s.pipes, s.stage, s.copies, s.nextId)
    requires RequestsOk(c, s.reqQ, s.stage, s.copies)
    ensures s.reqQ == []
  {
    assert s.reqQ != [] ==> RequestOk(c, s.reqQ[0], InRequests, s.stage, s.copies);
  }

  lemma LastCases(c: Config, s: State, x: nat) returns (step: Step)
    requires Inv(c, s) && ConfigOk(c) && Sized(c, s) && NoneStaged(s.pipes) && s.posted + s.executed == {}
    requires Live(s.xs, x)
    ensures Helps(c, s, step)
  {
    hide Core, Books, BlocksOk, BufsOk, RecordsOk, FlowOk, CountsOk, WrsOk, LostOk, RefusedOk, JobsOk, PendingOk,
         StagesOk, FlagsOk, XfersOk, Helps, RequestsOk, CopyingOk, ConfigOk, Sized, AtRest;
    CoreParts(c, s);
    BooksParts(c, s);
    NoRequest(c, s);
    if k: nat :| k < |s.pipes| && s.pipes[k].pending != [] {
      step := PendingHelps(c, s, k);
    } else {
      NothingPending(c, s);
      step := TransferHelps(c, s, x);
    }
  }

  // In every state that a run can reach, as long as some started transfer is neither finished
  // nor failed, some step of the worker, the copy thread, the GPU or a NIC is enabled that
  // moves something on, and is in order.
  lemma NoDeadlock(c: Config, s: State, x: nat) returns (step: Step)
    requires Tidy(c, s) && ConfigOk(c) && Sized(c, s)
    requires Live(s.xs, x)
    ensures Enabled(c, s, step) && Moves(c, s, step) && InOrder(c, s, step)
  {
    hide Core, Books, BlocksOk, BufsOk, RecordsOk, FlowOk, CountsOk, WrsOk, LostOk, RefusedOk, JobsOk, PendingOk,
         StagesOk, FlagsOk, XfersOk, RequestsOk, CopyingOk, ConfigOk, Sized, Helps, Launched;
    CoreParts(c, s);
    BooksParts(c, s);
    if s.posted + s.executed != {} {
      step := WrHelps(c, s);
    } else if k: nat, j: nat :| UnderWay(s, k, j) {
      step := CopyHelps(c, s, k, j);
    } else if k: nat :| k < |s.pipes| && s.pipes[k].copying != [] {
      step := FrontHelps(c, s, k);
    } else if k: nat :| k < |s.pipes| && s.pipes[k].inflight != [] {
      step := RecordHelps(c, s, k);
    } else {
      step := LastCases(c, s, x);
    }
    HelpsInOrder(c, s, step);
  }

  // A step that moves something is no reset.
  lemma HelpsInOrder(c: Config, s: State, step: Step)
    requires ConfigOk(c) && Sized(c, s) && Helps(c, s, step)
    ensures Enabled(c, s, step) && Moves(c, s, step) && InOrder(c, s, step)
  {
    hide ConfigOk, ProxyRoom, NicRoom, TryAlloc, ChunkAt, Quiet;
  }

  /* ---------- bounded work, and a way to the end ---------- */

  // How many steps of the run move something on.
  ghost function MoveCount(c: Config, s: State, steps: seq<Step>): nat
    requires ConfigOk(c) && IsRun(c, s, steps)
    decreases |steps|
  {
    if steps == [] then 0
    else (if Moves(c, s, steps[0]) then 1 else 0) + MoveCount(c, Next(c, s, steps[0]), steps[1..])
  }

  // No run takes more moving steps than the work of its first state.
  lemma {:induction false} MovesBounded(c: Config, s: State, steps: seq<Step>)
    requires Tidy(c, s) && ConfigOk(c) && Sized(c, s) && IsRun(c, s, steps) && AllInOrder(c, s, steps)
    ensures Sized(c, After(c, s, steps))
    ensures MoveCount(c, s, steps) + Work(c, After(c, s, steps)) <= Work(c, s)
    decreases |steps|
  {
    hide Inv, Next, Enabled, ConfigOk, Sized, Work, Clean, Moves;
    if steps != [] {
      StepTidy(c, s, steps[0]);
      StepWork(c, s, steps[0]);
      MovesBounded(c, Next(c, s, steps[0]), steps[1..]);
    }
  }

  ghost predicate NoneRuns(s: State) {
    forall x: nat :: !Live(s.xs, x)
  }

  // From every reachable state some run of at most the remaining work's length, of steps of
  // worker, copy thread, GPU and NICs alone, brings every started transfer to its end.
  lemma {:induction false} CanFinish(c: Config, s: State) returns (steps: seq<Step>)
    requires Tidy(c, s) && ConfigOk(c) && Sized(c, s)
    ensures IsRun(c, s, steps) && AllInOrder(c, s, steps) && NoneRuns(After(c, s, steps)) && |steps| <= Work(c, s)
    ensures MoveCount(c, s, steps) == |steps|
    decreases Work(c, s)
  {
    hide Inv, Next, Enabled, ConfigOk, Sized, Work, Clean, Moves, Live, InOrder;
    steps := [];
    if x: nat :| Live(s.xs, x) {
      var step := NoDeadlock(c, s, x);
      StepTidy(c, s, step);
      StepWork(c, s, step);
      var rest := CanFinish(c, Next(c, s, step));
      steps := [step] + rest;
      assert steps[1..] == rest;
    }
  }
}

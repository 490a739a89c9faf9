/** Every step of the data plane keeps the transfers, lists, queues, flags and work requests
    in order: one lemma for each step, the larger ones in parts. */
module PxnSteps {
  import opened Chunks
  import opened Layout
  import opened ProxyBuffer
  import opened FlowControl
  import opened PxnModel
  import opened PxnInvariant
  import opened PxnQueues
  import opened PxnFlags
  import opened PxnCounts

  /* ---------- the first state ---------- */

  lemma InitFlow(c: Config, mem: Memory)
    requires ConfigOk(c)
    ensures var s := Init(c, mem); FlowOk(c, s.flow, s.posted + s.executed)
  {
    var s := Init(c, mem);
    assert s.posted + s.executed == {};
    IdleBalanced(c.nics, c.qps, c.maxPerQp);
    forall n, q | 0 <= n < c.nics && 0 <= q < c.qps
      ensures QpOut(s.flow, n, q) == |OnQp({}, n, q)|
    {
      assert OnQp({}, n, q) == {};
    }
  }

  lemma InitXfers(c: Config, mem: Memory)
    requires ConfigOk(c)
    ensures var s := Init(c, mem); XfersOk(c, s.xs, s.stage)
  {
    var s := Init(c, mem);
    forall x | 0 <= x < |s.xs|
      ensures XferOk(c, s.xs[x], x, s.stage)
    {
      assert DoneOf(s.stage, x) == {};
    }
  }

  lemma InitCore(c: Config, mem: Memory)
    requires ConfigOk(c)
    ensures Core(c, Init(c, mem))
  {
    hide XfersOk, FlowOk;
    InitXfers(c, mem);
    InitFlow(c, mem);
    assert Back(Init(c, mem)) == {};
  }

  /* ---------- a transfer starts, ends, or records an error ---------- */

  // Errors recorded stay recorded.
  lemma LostSame(xs: seq<Xfer>, executed: set<Wr>, lost: set<Wr>, xs': seq<Xfer>)
    requires LostOk(xs, executed, lost) && |xs'| == |xs|
    requires forall x :: 0 <= x < |xs| && xs[x].failed ==> xs'[x].failed
    ensures LostOk(xs', executed, lost)
  {
  }

  // A refused copy's transfer has recorded it.
  lemma RefusedSame(c: Config, pipes: seq<Pipe>, xs: seq<Xfer>, pipes': seq<Pipe>, xs': seq<Xfer>)
    requires RefusedOk(c, pipes, xs) && |pipes'| == |pipes| && |xs'| == |xs|
    requires forall x :: 0 <= x < |xs| && xs[x].failed ==> xs'[x].failed
    requires forall k, j :: 0 <= k < |pipes| && 0 <= j < |pipes'[k].copying| && Refused(pipes'[k].copying[j]) ==>
      pipes'[k].copying[j] in pipes[k].copying
    ensures RefusedOk(c, pipes', xs')
  {
  }

  lemma StatusCore(c: Config, s: State, step: Step)
    requires Core(c, s) && Enabled(c, s, step) && (step.Begin? || step.Activate? || step.Finish?)
    ensures Core(c, Next(c, s, step))
  {
    hide FlowOk, WrsOk, LostOk, RefusedOk, JobsOk, FlagsOk, ResultsOk, ThreadOk, RequestsOk, CopyingOk, PendingOk,
         StagesOk, XferOk, NextPostDirect, NextAssignProxy, NextSubmit, NextSubmitFull, NextLaunch, NextDispatch,
         NextDrain, NextPostProxy, NextPoll, NextFail;
    var s' := Next(c, s, step);
    XfersSame(c, s.xs, s.stage, s'.xs, s.stage);
    LostSame(s.xs, s.executed, s.lost, s'.xs);
    RefusedSame(c, s.pipes, s.xs, s'.pipes, s'.xs);
  }

  // Nothing that the worker keeps depends on the bytes in memory, or on the allocators.
  lemma QuietCore(c: Config, s: State, step: Step)
    requires Core(c, s) && Enabled(c, s, step) && (step.UserWrite? || step.Reset?)
    ensures Core(c, Next(c, s, step))
  {
    hide FlowOk, WrsOk, LostOk, RefusedOk, JobsOk, FlagsOk, ResultsOk, ThreadOk, RequestsOk, CopyingOk, PendingOk,
         StagesOk, XfersOk, NextPostDirect, NextAssignProxy, NextSubmit, NextSubmitFull, NextLaunch, NextDispatch,
         NextDrain, NextPostProxy, NextPoll, NextFail;
  }

  lemma XfersMark(c: Config, xs: seq<Xfer>, stage: map<Cid, Stage>, x: nat)
    requires XfersOk(c, xs, stage) && (x < |xs| ==> !Early(xs[x].status))
    ensures XfersOk(c, Mark(xs, x), stage)
  {
    XfersSame(c, xs, stage, Mark(xs, x), stage);
  }

  lemma MarkCore(c: Config, s: State, step: Step)
    requires Core(c, s) && Enabled(c, s, step) && (step.PostFails? || step.PostProxyFails?)
    ensures Core(c, Next(c, s, step))
  {
    hide FlowOk, WrsOk, LostOk, RefusedOk, JobsOk, FlagsOk, ResultsOk, ThreadOk, RequestsOk, CopyingOk, PendingOk,
         StagesOk, XfersOk, NicRoom, NextPostDirect, NextAssignProxy, NextSubmit, NextSubmitFull, NextLaunch,
         NextDispatch, NextDrain, NextPostProxy, NextPoll, NextFail;
    var x := if step.PostFails? then step.x else c.pipes[step.k].xfer;
    XfersMark(c, s.xs, s.stage, x);
    LostSame(s.xs, s.executed, s.lost, Mark(s.xs, x));
    RefusedSame(c, s.pipes, s.xs, s.pipes, Mark(s.xs, x));
  }

  /* ---------- a chunk is handed out ---------- */

  // A new stage for a chunk that no list held so far.
  lemma FreshStage(c: Config, s: State, id: Cid, st: Stage)
    requires id !in s.stage && StageOk(c, id, st) && !st.Copying?
    requires StagesOk(c, s.stage) && CopyingOk(c, s.pipes, s.stage, s.copies, s.nextId)
    requires RequestsOk(c, s.reqQ, s.stage, s.copies) && ThreadOk(c, s.ct, s.stage, s.copies)
    requires JobsOk(c, s.jobs, s.stage, s.copies)
    ensures var stage' := s.stage[id := st];
      && StagesOk(c, stage')
      && CopyingOk(c, s.pipes, stage', s.copies, s.nextId)
      && RequestsOk(c, s.reqQ, stage', s.copies)
      && ThreadOk(c, s.ct, stage', s.copies)
      && JobsOk(c, s.jobs, stage', s.copies)
  {
    hide RequestOk, StageOk, EntryOk, RequestFields;
    var stage' := s.stage[id := st];
    CopyingSame(c, s.pipes, s.stage, s.copies, s.nextId, s.pipes, stage', s.copies, s.nextId);
    RequestsSame(c, s.reqQ, s.stage, s.copies, stage', s.copies);
    ThreadSame(c, s.ct, s.stage, s.copies, stage', s.copies);
    JobsSame(c, s.jobs, s.stage, s.copies, s.jobs, stage', s.copies);
  }

  lemma PostDirectWr(c: Config, s: State, x: nat, n: nat, q: nat)
    requires Core(c, s) && Enabled(c, s, PostDirect(x, n, q))
    ensures var id := Cid(x, s.xs[x].next);
      && id !in s.stage && ValidCid(c, id)
      && StageOk(c, id, Posted(Wr(n, q, id, None, Src(c, id), Dst(c, id), Sge(Len(c, id))), None))
  {
    hide FlowOk, WrsOk, LostOk, RefusedOk, JobsOk, FlagsOk, ResultsOk, ThreadOk, RequestsOk, CopyingOk, PendingOk,
         StagesOk, Sge, NicRoom, ChunkAt;
    WholeLen(c, Cid(x, s.xs[x].next));
  }

  // The work request of a chunk carries all of it.
  lemma WholeLen(c: Config, id: Cid)
    requires ConfigOk(c) && ValidCid(c, id)
    ensures Sge(Len(c, id)) == Len(c, id)
  {
    SgeWhole(c.reqs[id.x], id.i);
  }

  lemma PostDirectWrs(c: Config, s: State, x: nat, n: nat, q: nat)
    requires Core(c, s) && Enabled(c, s, PostDirect(x, n, q))
    ensures var s' := Next(c, s, PostDirect(x, n, q)); var id := Cid(x, s.xs[x].next);
      && WrsOk(s'.posted, Back(s'), s'.stage)
      && FlowOk(c, s'.flow, s'.posted + s'.executed)
      && Wr(n, q, id, None, Src(c, id), Dst(c, id), Sge(Len(c, id))) !in Wrs(s)
  {
    hide LostOk, RefusedOk, JobsOk, FlagsOk, ResultsOk, ThreadOk, RequestsOk, CopyingOk, PendingOk, StagesOk, XferOk,
         NextAssignProxy, NextSubmit, NextSubmitFull, NextLaunch, NextDispatch, NextDrain, NextPostProxy, NextPoll,
         NextFail, WrsOk, FlowOk, XfersOk, Post, Sge, ChunkAt;
    var s' := Next(c, s, PostDirect(x, n, q));
    var id := Cid(x, s.xs[x].next);
    var w := Wr(n, q, id, None, Src(c, id), Dst(c, id), Sge(Len(c, id)));
    PostDirectWr(c, s, x, n, q);
    WrsPost(s.posted, Back(s), s.stage, w, None);
    assert s'.posted + s'.executed == s.posted + s.executed + {w};
    FlowPost(c, s.flow, s.posted + s.executed, w);
  }

  lemma PostDirectCore(c: Config, s: State, x: nat, n: nat, q: nat)
    requires Core(c, s) && Enabled(c, s, PostDirect(x, n, q))
    ensures Core(c, Next(c, s, PostDirect(x, n, q)))
  {
    hide FlowOk, WrsOk, LostOk, RefusedOk, JobsOk, FlagsOk, ResultsOk, ThreadOk, RequestsOk, CopyingOk, PendingOk,
         StagesOk, StageOk, XfersOk;
    PostDirectWr(c, s, x, n, q);
    var id := Cid(x, s.xs[x].next);
    var w := Wr(n, q, id, None, Src(c, id), Dst(c, id), Sge(Len(c, id)));
    PostDirectWrs(c, s, x, n, q);
    FreshStage(c, s, id, Posted(w, None));
    FreshPending(c, s, id, Posted(w, None));
    XfersAssign(c, s.xs, s.stage, x, Posted(w, None), s.xs[x].bytes + Len(c, id));
    LostSame(s.xs, s.executed, s.lost, Next(c, s, PostDirect(x, n, q)).xs);
    RefusedSame(c, s.pipes, s.xs, s.pipes, Next(c, s, PostDirect(x, n, q)).xs);
  }

  lemma FreshPending(c: Config, s: State, id: Cid, st: Stage)
    requires id !in s.stage && !st.Pending? && PendingOk(c, s.pipes, s.stage)
    ensures PendingOk(c, s.pipes, s.stage[id := st])
  {
    PendingSame(c, s.pipes, s.stage, s.pipes, s.stage[id := st]);
  }

  lemma AssignProxyStage(c: Config, s: State, k: nat)
    requires ConfigOk(c) && Sized(c, s) && Enabled(c, s, AssignProxy(k))
    ensures StageOk(c, Cid(c.pipes[k].xfer, s.xs[c.pipes[k].xfer].next), Pending(k))
  {
  }

  lemma AssignProxyCore(c: Config, s: State, k: nat)
    requires Core(c, s) && Enabled(c, s, AssignProxy(k))
    ensures Core(c, Next(c, s, AssignProxy(k)))
  {
    hide FlowOk, WrsOk, LostOk, RefusedOk, JobsOk, FlagsOk, ResultsOk, ThreadOk, RequestsOk, CopyingOk, PendingOk,
         StagesOk, StageOk, XfersOk, ProxyRoom;
    var s' := Next(c, s, AssignProxy(k));
    var x := c.pipes[k].xfer;
    var id := Cid(x, s.xs[x].next);
    AssignProxyStage(c, s, k);
    XfersAssign(c, s.xs, s.stage, x, Pending(k), s.xs[x].bytes);
    FreshStage(c, s, id, Pending(k));
    WrsSame(s.posted, Back(s), s.stage, id, Pending(k));
    PendingAssign(c, s.pipes, s.stage, k, s.xs[x].next, s'.pipes[k]);
    CopyingSame(c, s.pipes, s'.stage, s.copies, s.nextId, s'.pipes, s'.stage, s.copies, s.nextId);
    LostSame(s.xs, s.executed, s.lost, s'.xs);
    RefusedSame(c, s.pipes, s.xs, s'.pipes, s'.xs);
  }

  /* ---------- a copy is submitted ---------- */

  // The chunk at the head of a pending list.
  ghost function Head(c: Config, s: State, k: nat): Cid
    requires k < |c.pipes| && k < |s.pipes| && s.pipes[k].pending != []
  {
    Cid(c.pipes[k].xfer, s.pipes[k].pending[0])
  }

  lemma HeadFacts(c: Config, s: State, k: nat)
    requires ConfigOk(c) && Sized(c, s) && CanSubmit(c, s, k)
    requires PendingOk(c, s.pipes, s.stage) && StagesOk(c, s.stage)
    requires CopyingOk(c, s.pipes, s.stage, s.copies, s.nextId)
    ensures IsPending(s.stage, Head(c, s, k), k) && ValidCid(c, Head(c, s, k))
    ensures c.pipes[k].gpu < |c.bufSize| && 1 <= Len(c, Head(c, s, k)) <= c.bufSize[c.pipes[k].gpu]
    ensures Len(c, Head(c, s, k)) == ChunkAt(c.reqs[Head(c, s, k).x], Head(c, s, k).i).len
    ensures Src(c, Head(c, s, k)) == Local(ChunkAt(c.reqs[Head(c, s, k).x], Head(c, s, k).i).localAddr)
    ensures s.nextId !in s.copies
  {
    var id := Head(c, s, k);
    assert IsPending(s.stage, Cid(c.pipes[k].xfer, s.pipes[k].pending[0]), k);
    assert StageOk(c, id, s.stage[id]);
    assert PipeOk(c, c.pipes[k]);
    ChunkInside(c.reqs[id.x], id.i);
  }

  lemma SubmitLists(c: Config, s: State, k: nat)
    requires ConfigOk(c) && Sized(c, s) && CanSubmit(c, s, k)
    requires XfersOk(c, s.xs, s.stage) && StagesOk(c, s.stage)
    requires PendingOk(c, s.pipes, s.stage) && CopyingOk(c, s.pipes, s.stage, s.copies, s.nextId)
    ensures var s' := NextSubmit(c, s, k);
      && XfersOk(c, s'.xs, s'.stage) && StagesOk(c, s'.stage)
      && PendingOk(c, s'.pipes, s'.stage)
  {
    hide XferOk, PendingOk, CopyingOk, EntryOk, IsPending, Total, ChunkAt, TryAlloc;
    var s' := NextSubmit(c, s, k);
    SubmitStage(c, s, k);
    var cid := Head(c, s, k);
    XfersSame(c, s.xs, s.stage, s'.xs, s'.stage);
    StagesUpdate(c, s.stage, cid, s'.stage[cid]);
    PendingSubmit(c, s.pipes, s.stage, k, s'.pipes[k], s'.stage[cid]);
  }

  lemma SubmitCopying(c: Config, s: State, k: nat, s': State)
    requires ConfigOk(c) && Sized(c, s) && CanSubmit(c, s, k) && s' == NextSubmit(c, s, k)
    requires PendingOk(c, s.pipes, s.stage) && StagesOk(c, s.stage)
    requires CopyingOk(c, s.pipes, s.stage, s.copies, s.nextId)
    ensures CopyingOk(c, s'.pipes, s'.stage, s'.copies, s'.nextId)
  {
    hide PendingOk, StagesOk, CopyingOk, EntryOk, ChunkAt, TryAlloc;
    HeadFacts(c, s, k);
    SubmitStage(c, s, k);
    var cid := Head(c, s, k);
    CopyingSubmit(c, s.pipes, s.stage, s.copies, s.nextId, k, s'.pipes[k], cid, s'.stage[cid].blk.off,
                  s'.stage[cid].blk.len);
  }

  lemma SubmitStage(c: Config, s: State, k: nat)
    requires ConfigOk(c) && Sized(c, s) && CanSubmit(c, s, k)
    requires PendingOk(c, s.pipes, s.stage) && StagesOk(c, s.stage)
    requires CopyingOk(c, s.pipes, s.stage, s.copies, s.nextId)
    ensures var s' := NextSubmit(c, s, k); var cid := Head(c, s, k); var g := c.pipes[k].gpu;
      && cid in s.stage && s.stage[cid] == Pending(k)
      && s'.stage == s.stage[cid := s'.stage[cid]]
      && StageOk(c, cid, s'.stage[cid])
      && s'.stage[cid] == Copying(k, s.nextId, Blk(g, s'.stage[cid].blk.off, Len(c, cid)))
      && s'.reqQ == s.reqQ + [CopyRequest(Src(c, cid), Proxy(g, s'.stage[cid].blk.off), Len(c, cid), s.nextId)]
  {
    HeadFacts(c, s, k);
  }

  lemma SubmitQueues(c: Config, s: State, k: nat, s': State)
    requires ConfigOk(c) && Sized(c, s) && CanSubmit(c, s, k) && s' == NextSubmit(c, s, k)
    requires PendingOk(c, s.pipes, s.stage) && StagesOk(c, s.stage)
    requires CopyingOk(c, s.pipes, s.stage, s.copies, s.nextId)
    requires RequestsOk(c, s.reqQ, s.stage, s.copies) && ThreadOk(c, s.ct, s.stage, s.copies)
    requires ResultsOk(s.resQ, s.copies)
    ensures RequestsOk(c, s'.reqQ, s'.stage, s'.copies) && ThreadOk(c, s'.ct, s'.stage, s'.copies)
    ensures ResultsOk(s'.resQ, s'.copies)
  {
    hide StagesOk, PendingOk, RequestsOk, ThreadOk, ResultsOk, EntryOk, RequestOk, ChunkAt, TryAlloc;
    HeadFacts(c, s, k);
    SubmitStage(c, s, k);
    var cid := Head(c, s, k);
    CopyStagesApart(c, s, cid);
    RequestsSubmit(c, s.reqQ, s.stage, s.copies, s'.reqQ[|s.reqQ|], s'.stage, cid);
    ThreadSame(c, s.ct, s.stage, s.copies, s'.stage, s'.copies);
    ResultsSame(s.resQ, s.copies, s'.copies);
  }

  // A chunk that is neither being copied nor dropped belongs to no copy.
  lemma CopyStagesApart(c: Config, s: State, cid: Cid)
    requires CopyingOk(c, s.pipes, s.stage, s.copies, s.nextId)
    requires cid in s.stage ==> !s.stage[cid].Copying? && !s.stage[cid].Dropped?
    ensures forall id :: id in s.copies ==> s.copies[id].cid != cid
  {
    forall id | id in s.copies
      ensures s.copies[id].cid != cid
    {
      assert CopyOk(s.pipes, s.stage, s.copies, id);
    }
  }

  lemma SubmitFlags(c: Config, s: State, k: nat, s': State)
    requires ConfigOk(c) && Sized(c, s) && CanSubmit(c, s, k) && s' == NextSubmit(c, s, k)
    requires PendingOk(c, s.pipes, s.stage) && StagesOk(c, s.stage)
    requires CopyingOk(c, s.pipes, s.stage, s.copies, s.nextId)
    requires FlagsOk(s.copies, s.jobs, s.flags, s.pool, s.recycleQ) && JobsOk(c, s.jobs, s.stage, s.copies)
    requires WrsOk(s.posted, Back(s), s.stage)
    ensures FlagsOk(s'.copies, s'.jobs, s'.flags, s'.pool, s'.recycleQ) && JobsOk(c, s'.jobs, s'.stage, s'.copies)
    ensures WrsOk(s'.posted, Back(s'), s'.stage)
  {
    hide StagesOk, PendingOk, FlagsOk, WrsOk, EntryOk, RequestFields, ChunkAt, TryAlloc;
    HeadFacts(c, s, k);
    SubmitStage(c, s, k);
    var cid := Head(c, s, k);
    CopyStagesApart(c, s, cid);
    FlagsSame(s.copies, s.jobs, s.flags, s.pool, s.recycleQ, s'.copies);
    JobsSame(c, s.jobs, s.stage, s.copies, s.jobs, s'.stage, s'.copies);
    WrsSame(s.posted, Back(s), s.stage, cid, s'.stage[cid]);
  }

  lemma SubmitCore(c: Config, s: State, k: nat)
    requires Core(c, s) && Enabled(c, s, Submit(k))
    ensures Core(c, Next(c, s, Submit(k)))
  {
    hide FlowOk, WrsOk, LostOk, RefusedOk, JobsOk, FlagsOk, ResultsOk, ThreadOk, RequestsOk, CopyingOk, PendingOk,
         StagesOk, XfersOk;
    var s' := NextSubmit(c, s, k);
    SubmitLists(c, s, k);
    SubmitCopying(c, s, k, s');
    SubmitQueues(c, s, k, s');
    SubmitFlags(c, s, k, s');
    RefusedSame(c, s.pipes, s.xs, s'.pipes, s'.xs);
  }

  lemma SubmitFullCore(c: Config, s: State, k: nat)
    requires Core(c, s) && Enabled(c, s, SubmitFull(k))
    ensures Core(c, Next(c, s, SubmitFull(k)))
  {
    hide FlowOk, WrsOk, LostOk, RefusedOk, JobsOk, FlagsOk, ResultsOk, ThreadOk, RequestsOk, CopyingOk, PendingOk,
         StagesOk, XfersOk, TryAlloc, ChunkAt;
    var s' := NextSubmitFull(c, s, k);
    assert PipeOk(c, c.pipes[k]);
    SameCopiesSelf(s.stage, s.copies);
    CopyingSame(c, s.pipes, s.stage, s.copies, s.nextId, s'.pipes, s'.stage, s'.copies, s'.nextId);
  }

  lemma SameCopiesSelf(stage: map<Cid, Stage>, copies: map<nat, Copy>)
    ensures SameCopies(copies, copies) && SameCopying(stage, stage)
  {
  }

  /* ---------- the copy thread ---------- */

  lemma RecycleCore(c: Config, s: State)
    requires Core(c, s) && Enabled(c, s, Recycle)
    ensures Core(c, Next(c, s, Recycle))
  {
    hide FlowOk, WrsOk, LostOk, RefusedOk, JobsOk, FlagsOk, ResultsOk, ThreadOk, RequestsOk, CopyingOk, PendingOk,
         StagesOk, XfersOk, NextPostDirect, NextAssignProxy, NextSubmit, NextSubmitFull, NextLaunch, NextDispatch,
         NextDrain, NextPostProxy, NextPoll, NextFail;
    FlagsRecycle(s.copies, s.jobs, s.flags, s.pool, s.recycleQ);
  }

  lemma PopThread(c: Config, req: CopyRequest, stage: map<Cid, Stage>, copies: map<nat, Copy>)
    requires ThreadOk(c, Looking, stage, copies) && RequestOk(c, req, InRequests, stage, copies)
    ensures ThreadOk(c, Popped(req), stage, Move(copies, req.id, WithThread))
  {
  }

  // The copy of one request moves to another place between worker and copy thread.
  lemma MoveSame(copies: map<nat, Copy>, id: nat, at: Where)
    requires id in copies && copies[id].at != Received && at != Received
    requires Returning(copies[id].at) ==> Returning(at)
    ensures SameCopies(copies, Move(copies, id, at))
    ensures LaunchedAt(at) == LaunchedAt(copies[id].at) || copies[id].flag.None? ==>
      SameInUse(copies, Move(copies, id, at))
    ensures forall w :: w != at && w != copies[id].at ==> SameAt(copies, Move(copies, id, at), w)
  {
  }

  lemma PopRequestQueues(c: Config, s: State, s': State)
    requires ConfigOk(c) && Sized(c, s) && Enabled(c, s, PopRequest) && s' == Next(c, s, PopRequest)
    requires CopyingOk(c, s.pipes, s.stage, s.copies, s.nextId)
    requires RequestsOk(c, s.reqQ, s.stage, s.copies) && ThreadOk(c, s.ct, s.stage, s.copies)
      && ResultsOk(s.resQ, s.copies)
    requires FlagsOk(s.copies, s.jobs, s.flags, s.pool, s.recycleQ) && JobsOk(c, s.jobs, s.stage, s.copies)
    ensures CopyingOk(c, s'.pipes, s'.stage, s'.copies, s'.nextId)
    ensures RequestsOk(c, s'.reqQ, s'.stage, s'.copies) && ThreadOk(c, s'.ct, s'.stage, s'.copies)
      && ResultsOk(s'.resQ, s'.copies)
    ensures FlagsOk(s'.copies, s'.jobs, s'.flags, s'.pool, s'.recycleQ) && JobsOk(c, s'.jobs, s'.stage, s'.copies)
  {
    hide CopyingOk, RequestsOk, ThreadOk, ResultsOk, FlagsOk, RequestFields, SameAt, SameInUse, SameCopies;
    var id := s.reqQ[0].id;
    RequestsPop(c, s.reqQ, s.stage, s.copies);
    PopThread(c, s.reqQ[0], s.stage, s.copies);
    MoveSame(s.copies, id, WithThread);
    ResultsSame(s.resQ, s.copies, s'.copies);
    CopyingSame(c, s.pipes, s.stage, s.copies, s.nextId, s.pipes, s.stage, s'.copies, s.nextId);
    FlagsSame(s.copies, s.jobs, s.flags, s.pool, s.recycleQ, s'.copies);
    JobsSame(c, s.jobs, s.stage, s.copies, s.jobs, s.stage, s'.copies);
  }

  lemma PopRequestCore(c: Config, s: State)
    requires Core(c, s) && Enabled(c, s, PopRequest)
    ensures Core(c, Next(c, s, PopRequest))
  {
    hide FlowOk, WrsOk, LostOk, RefusedOk, JobsOk, FlagsOk, ResultsOk, ThreadOk, RequestsOk, CopyingOk, PendingOk,
         StagesOk, XfersOk;
    PopRequestQueues(c, s, Next(c, s, PopRequest));
  }

  // The copy of a request that the copy thread holds is not launched yet.
  lemma HeldRequest(c: Config, s: State)
    requires ThreadOk(c, s.ct, s.stage, s.copies) && s.ct.Popped?
    ensures s.ct.req.id in s.copies && s.copies[s.ct.req.id].at == WithThread
    ensures s.copies[s.ct.req.id].flag.None?
    ensures RequestFields(c, s.ct.req, s.copies[s.ct.req.id].cid, s.stage)
  {
  }

  lemma LaunchThread(c: Config, s: State, f: nat)
    requires ThreadOk(c, s.ct, s.stage, s.copies) && s.ct.Popped?
    ensures ThreadOk(c, NextLaunch(s, f).ct, s.stage, NextLaunch(s, f).copies)
  {
  }

  lemma LaunchCopies(c: Config, s: State, f: nat)
    requires ThreadOk(c, s.ct, s.stage, s.copies) && s.ct.Popped?
    ensures SameCopies(s.copies, NextLaunch(s, f).copies)
    ensures SameAt(s.copies, NextLaunch(s, f).copies, InRequests)
      && SameAt(s.copies, NextLaunch(s, f).copies, InResults)
  {
  }

  lemma LaunchCore(c: Config, s: State, f: nat)
    requires Core(c, s) && Enabled(c, s, Launch(f))
    ensures Core(c, Next(c, s, Launch(f)))
  {
    hide FlowOk, WrsOk, LostOk, RefusedOk, JobsOk, FlagsOk, ResultsOk, ThreadOk, RequestsOk, CopyingOk, PendingOk,
         StagesOk, XfersOk, SameAt, SameCopies, RequestFields;
    var s' := NextLaunch(s, f);
    HeldRequest(c, s);
    LaunchThread(c, s, f);
    LaunchCopies(c, s, f);
    RequestsSame(c, s.reqQ, s.stage, s.copies, s.stage, s'.copies);
    ResultsSame(s.resQ, s.copies, s'.copies);
    CopyingSame(c, s.pipes, s.stage, s.copies, s.nextId, s.pipes, s.stage, s'.copies, s.nextId);
    FlagsLaunch(s.copies, s.jobs, s.flags, s.pool, s.recycleQ, f, s.ct.req, s.copies[s.ct.req.id].cid);
    JobsLaunch(c, s.jobs, s.stage, s.copies, s.ct.req, f);
  }

  lemma RefusedThread(c: Config, s: State)
    requires ThreadOk(c, s.ct, s.stage, s.copies) && s.ct.Popped?
    ensures s.ct.req.id in s.copies && s.copies[s.ct.req.id].at == WithThread
    ensures s.copies[s.ct.req.id].flag.None?
    ensures ThreadOk(c, Pushing(CopyResult(s.ct.req.id, None)), s.stage, Move(s.copies, s.ct.req.id, WithResult))
  {
  }

  // The GPU refuses the copy: the result will say so, and no flag is taken.
  lemma CopyFailsCore(c: Config, s: State)
    requires Core(c, s) && Enabled(c, s, CopyFails)
    ensures Core(c, Next(c, s, CopyFails))
  {
    hide FlowOk, WrsOk, LostOk, RefusedOk, JobsOk, FlagsOk, ResultsOk, ThreadOk, RequestsOk, CopyingOk, PendingOk,
         StagesOk, XfersOk, SameAt, SameInUse, SameCopies;
    var s' := Next(c, s, CopyFails);
    RefusedThread(c, s);
    MoveSame(s.copies, s.ct.req.id, WithResult);
    RequestsSame(c, s.reqQ, s.stage, s.copies, s.stage, s'.copies);
    ResultsSame(s.resQ, s.copies, s'.copies);
    CopyingSame(c, s.pipes, s.stage, s.copies, s.nextId, s.pipes, s.stage, s'.copies, s.nextId);
    FlagsSame(s.copies, s.jobs, s.flags, s.pool, s.recycleQ, s'.copies);
    JobsSame(c, s.jobs, s.stage, s.copies, s.jobs, s.stage, s'.copies);
  }

  lemma LandCore(c: Config, s: State, id: nat)
    requires Core(c, s) && Enabled(c, s, Land(id))
    ensures Core(c, Next(c, s, Land(id)))
  {
    hide FlowOk, WrsOk, LostOk, RefusedOk, JobsOk, FlagsOk, ResultsOk, ThreadOk, RequestsOk, CopyingOk, PendingOk,
         StagesOk, XfersOk;
    FlagsLand(s.copies, s.jobs, s.flags, s.pool, s.recycleQ, id);
    JobsSame(c, s.jobs, s.stage, s.copies, Next(c, s, Land(id)).jobs, s.stage, s.copies);
  }

  lemma CallbackCore(c: Config, s: State, id: nat)
    requires Core(c, s) && Enabled(c, s, Callback(id))
    ensures Core(c, Next(c, s, Callback(id)))
  {
    hide FlowOk, WrsOk, LostOk, RefusedOk, JobsOk, FlagsOk, ResultsOk, ThreadOk, RequestsOk, CopyingOk, PendingOk,
         StagesOk, XfersOk;
    FlagsCallback(s.copies, s.jobs, s.flags, s.pool, s.recycleQ, id);
    JobsSame(c, s.jobs, s.stage, s.copies, Next(c, s, Callback(id)).jobs, s.stage, s.copies);
  }

  lemma PushThread(c: Config, s: State)
    requires ThreadOk(c, s.ct, s.stage, s.copies) && s.ct.Pushing?
    ensures ResultOk(s.ct.res, WithResult, s.copies)
    ensures ThreadOk(c, Looking, s.stage, Move(s.copies, s.ct.res.id, InResults))
  {
  }

  lemma PushResultCore(c: Config, s: State)
    requires Core(c, s) && Enabled(c, s, PushResult)
    ensures Core(c, Next(c, s, PushResult))
  {
    hide FlowOk, WrsOk, LostOk, RefusedOk, JobsOk, FlagsOk, ResultsOk, ThreadOk, RequestsOk, CopyingOk, PendingOk,
         StagesOk, XfersOk, SameAt, SameInUse, SameCopies;
    var s' := Next(c, s, PushResult);
    PushThread(c, s);
    ResultsPush(s.resQ, s.copies, s.ct.res);
    MoveSame(s.copies, s.ct.res.id, InResults);
    RequestsSame(c, s.reqQ, s.stage, s.copies, s.stage, s'.copies);
    CopyingSame(c, s.pipes, s.stage, s.copies, s.nextId, s.pipes, s.stage, s'.copies, s.nextId);
    FlagsSame(s.copies, s.jobs, s.flags, s.pool, s.recycleQ, s'.copies);
    JobsSame(c, s.jobs, s.stage, s.copies, s.jobs, s.stage, s'.copies);
  }

  /* ---------- a result reaches its chunk ---------- */

  lemma ReceiveSame(copies: map<nat, Copy>, id: nat)
    requires id in copies && copies[id].at == InResults
    ensures SameInUse(copies, Move(copies, id, Received))
    ensures SameAt(copies, Move(copies, id, Received), InRequests)
    ensures SameAt(copies, Move(copies, id, Received), WithThread)
    ensures SameAt(copies, Move(copies, id, Received), WithResult)
  {
  }

  lemma DispatchQueues(c: Config, s: State, k: nat, j: nat, s': State)
    requires ConfigOk(c) && Sized(c, s) && Enabled(c, s, Dispatch(k, j)) && s' == NextDispatch(c, s, k, j)
    requires CopyingOk(c, s.pipes, s.stage, s.copies, s.nextId)
    requires RequestsOk(c, s.reqQ, s.stage, s.copies) && ThreadOk(c, s.ct, s.stage, s.copies)
      && ResultsOk(s.resQ, s.copies)
    requires FlagsOk(s.copies, s.jobs, s.flags, s.pool, s.recycleQ) && JobsOk(c, s.jobs, s.stage, s.copies)
    ensures CopyingOk(c, s'.pipes, s'.stage, s'.copies, s'.nextId)
    ensures RequestsOk(c, s'.reqQ, s'.stage, s'.copies) && ThreadOk(c, s'.ct, s'.stage, s'.copies)
      && ResultsOk(s'.resQ, s'.copies)
    ensures FlagsOk(s'.copies, s'.jobs, s'.flags, s'.pool, s'.recycleQ) && JobsOk(c, s'.jobs, s'.stage, s'.copies)
  {
    hide CopyingOk, RequestsOk, ThreadOk, ResultsOk, FlagsOk, SameAt, SameInUse, RequestFields;
    var id := s.resQ[0].id;
    ResultsPop(s.resQ, s.copies);
    ReceiveSame(s.copies, id);
    CopyingReceive(c, s.pipes, s.stage, s.copies, s.nextId, k, j, s.pipes[k].copying[j], s'.pipes[k]);
    RequestsSame(c, s.reqQ, s.stage, s.copies, s.stage, s'.copies);
    ThreadSame(c, s.ct, s.stage, s.copies, s.stage, s'.copies);
    FlagsSame(s.copies, s.jobs, s.flags, s.pool, s.recycleQ, s'.copies);
    JobsSame(c, s.jobs, s.stage, s.copies, s.jobs, s.stage, s'.copies);
  }

  lemma DispatchLists(c: Config, s: State, k: nat, j: nat, s': State)
    requires ConfigOk(c) && Sized(c, s) && Enabled(c, s, Dispatch(k, j)) && s' == NextDispatch(c, s, k, j)
    requires XfersOk(c, s.xs, s.stage) && PendingOk(c, s.pipes, s.stage) && LostOk(s.xs, s.executed, s.lost)
    requires RefusedOk(c, s.pipes, s.xs)
    ensures XfersOk(c, s'.xs, s'.stage) && PendingOk(c, s'.pipes, s'.stage) && LostOk(s'.xs, s'.executed, s'.lost)
    ensures RefusedOk(c, s'.pipes, s'.xs)
  {
    hide XfersOk, PendingOk, LostOk, RefusedOk;
    PendingSame(c, s.pipes, s.stage, s'.pipes, s.stage);
    XfersMark(c, s.xs, s.stage, c.pipes[k].xfer);
    LostSame(s.xs, s.executed, s.lost, s'.xs);
    RefusedDispatch(c, s, k, j, s');
  }

  // The chunk that a refused copy's result reaches is of the transfer that records it.
  lemma RefusedDispatch(c: Config, s: State, k: nat, j: nat, s': State)
    requires ConfigOk(c) && Sized(c, s) && Enabled(c, s, Dispatch(k, j)) && s' == NextDispatch(c, s, k, j)
    requires RefusedOk(c, s.pipes, s.xs)
    ensures RefusedOk(c, s'.pipes, s'.xs)
  {
    hide ConfigOk;
    forall l, i | 0 <= l < |s'.pipes| && 0 <= i < |s'.pipes[l].copying| && Refused(s'.pipes[l].copying[i])
      ensures s'.xs[c.pipes[l].xfer].failed && c.pipes[l].xfer < |s'.xs|
    {
      if l != k || i != j {
        assert Refused(s.pipes[l].copying[i]);
      }
    }
  }

  lemma DispatchCore(c: Config, s: State, k: nat, j: nat)
    requires Core(c, s) && Enabled(c, s, Dispatch(k, j))
    ensures Core(c, Next(c, s, Dispatch(k, j)))
  {
    hide FlowOk, WrsOk, LostOk, RefusedOk, JobsOk, FlagsOk, ResultsOk, ThreadOk, RequestsOk, CopyingOk, PendingOk,
         StagesOk, XfersOk;
    var s' := NextDispatch(c, s, k, j);
    DispatchQueues(c, s, k, j, s');
    DispatchLists(c, s, k, j, s');
  }

  /* ---------- records are given back ---------- */

  // The lists of chunks stay as they are.
  lemma RecordsCore(c: Config, s: State, step: Step)
    requires Core(c, s) && Enabled(c, s, step) && (step.Drain? || step.Cleanup?)
    ensures Core(c, Next(c, s, step))
  {
    hide FlowOk, WrsOk, LostOk, RefusedOk, JobsOk, FlagsOk, ResultsOk, ThreadOk, RequestsOk, CopyingOk, PendingOk,
         StagesOk, XfersOk, NextPostDirect, NextAssignProxy, NextSubmit, NextSubmitFull, NextLaunch, NextDispatch,
         NextPostProxy, NextPoll, NextFail, SumUp;
    var s' := Next(c, s, step);
    assert PipeOk(c, c.pipes[step.k]);
    PendingSame(c, s.pipes, s.stage, s'.pipes, s.stage);
    SameCopiesSelf(s.stage, s.copies);
    CopyingSame(c, s.pipes, s.stage, s.copies, s.nextId, s'.pipes, s.stage, s.copies, s.nextId);
    RefusedSame(c, s.pipes, s.xs, s'.pipes, s'.xs);
  }

  /* ---------- NICs ---------- */

  lemma ExecuteCore(c: Config, s: State, w: Wr)
    requires Core(c, s) && Enabled(c, s, Execute(w))
    ensures Core(c, Next(c, s, Execute(w)))
  {
    hide FlowOk, JobsOk, FlagsOk, ResultsOk, ThreadOk, RequestsOk, CopyingOk, PendingOk, StagesOk, XfersOk,
         NextPostDirect, NextAssignProxy, NextSubmit, NextSubmitFull, NextLaunch, NextDispatch, NextDrain,
         NextPostProxy, NextPoll, NextFail, WrsOk;
    var s' := Next(c, s, Execute(w));
    WrsApart(s.posted, Back(s), s.stage);
    WrsExecute(s.posted, Back(s), s.stage, w);
    assert Back(s') == Back(s) + {w};
    assert s'.posted + s'.executed == s.posted + s.executed;
  }

  lemma WrsApart(posted: set<Wr>, back: set<Wr>, stage: map<Cid, Stage>)
    requires WrsOk(posted, back, stage)
    ensures posted !! back
  {
  }

  // The work request of the completion, and its transfer.
  lemma OutstandingWr(c: Config, s: State, w: Wr)
    requires ConfigOk(c) && w in Wrs(s) && StagesOk(c, s.stage) && WrsOk(s.posted, Back(s), s.stage)
    ensures w.id in s.stage && s.stage[w.id].Posted? && s.stage[w.id].wr == w
    ensures ValidCid(c, w.id) && WrOk(c, w, s.stage[w.id].held)
    ensures PipeOn(c, w.id.x, w.nic, |c.pipes|) == w.via
  {
    assert StageOk(c, w.id, s.stage[w.id]);
    CreditsOwnPipe(c, w, s.stage[w.id].held);
  }

  // A transfer with a work request is not a new one.
  lemma PostedNotEarly(c: Config, s: State, id: Cid)
    requires XfersOk(c, s.xs, s.stage) && id in s.stage
    ensures id.x < |s.xs| && !Early(s.xs[id.x].status)
  {
    assert XferOk(c, s.xs[id.x], id.x, s.stage);
  }

  lemma PollFailsWrs(c: Config, s: State, w: Wr)
    requires Core(c, s) && Enabled(c, s, PollFails(w))
    ensures var s' := Next(c, s, PollFails(w));
      && WrsOk(s'.posted, Back(s'), s'.stage) && FlowOk(c, s'.flow, s'.posted + s'.executed)
      && Wrs(s') == Wrs(s)
  {
    hide FlowOk, LostOk, RefusedOk, JobsOk, FlagsOk, ResultsOk, ThreadOk, RequestsOk, CopyingOk, PendingOk, StagesOk,
         XfersOk, NextPostDirect, NextAssignProxy, NextSubmit, NextSubmitFull, NextLaunch, NextDispatch, NextDrain,
         NextPostProxy, NextPoll, NextFail, WrsOk, Complete;
    var s' := Next(c, s, PollFails(w));
    WrsApart(s.posted, Back(s), s.stage);
    if w in s.posted {
      WrsExecute(s.posted, Back(s), s.stage, w);
      assert Back(s') == Back(s) + {w};
    } else {
      assert s'.posted == s.posted && Back(s') == Back(s);
    }
    assert Wrs(s') == Wrs(s);
    assert s'.posted + s'.executed == (s.posted + s.executed) - {w};
    FlowComplete(c, s.flow, s.posted + s.executed, w);
  }

  lemma FlowShape(c: Config, flow: Counters, wrs: set<Wr>)
    requires FlowOk(c, flow, wrs)
    ensures Shape(flow, c.nics, c.qps)
  {
  }

  lemma PollFailsCore(c: Config, s: State, w: Wr)
    requires Core(c, s) && Enabled(c, s, PollFails(w))
    ensures Core(c, Next(c, s, PollFails(w)))
  {
    hide FlowOk, WrsOk, JobsOk, FlagsOk, ResultsOk, ThreadOk, RequestsOk, CopyingOk, PendingOk, StagesOk, XfersOk,
         NextPostDirect, NextAssignProxy, NextSubmit, NextSubmitFull, NextLaunch, NextDispatch, NextDrain,
         NextPostProxy, NextPoll, NextFail, Complete;
    PollFailsWrs(c, s, w);
    FlowShape(c, Next(c, s, PollFails(w)).flow, Next(c, s, PollFails(w)).posted + Next(c, s, PollFails(w)).executed);
    OutstandingWr(c, s, w);
    PostedNotEarly(c, s, w.id);
    XfersMark(c, s.xs, s.stage, w.id.x);
    RefusedSame(c, s.pipes, s.xs, s.pipes, Mark(s.xs, w.id.x));
  }

  /* ---------- a staged chunk is posted ---------- */

  ghost predicate Ready(c: Config, s: State, k: nat, q: nat) {
    ConfigOk(c) && Sized(c, s) && Enabled(c, s, PostProxy(k, q))
  }

  ghost function FrontCid(c: Config, s: State, k: nat): Cid
    requires k < |c.pipes| && k < |s.pipes| && s.pipes[k].copying != []
  {
    Cid(c.pipes[k].xfer, s.pipes[k].copying[0].chunk)
  }

  ghost function FrontBlk(c: Config, s: State, k: nat): Blk
    requires k < |c.pipes| && k < |s.pipes| && s.pipes[k].copying != []
  {
    Blk(c.pipes[k].gpu, s.pipes[k].copying[0].addr, s.pipes[k].copying[0].len)
  }

  // What posting the front chunk changes.
  ghost predicate PostedFront(c: Config, s: State, k: nat, q: nat, s': State) {
    && ConfigOk(c) && Sized(c, s) && k < |c.pipes| && k < |s.pipes| && s.pipes[k].copying != []
    && c.pipes[k].xfer < |s.xs| && c.pipes[k].nic < c.nics && q < c.qps && QpOut(s.flow, c.pipes[k].nic, q) < c.maxPerQp
    && var p, w := s.pipes[k], ProxyWr(c, s, k, q);
       && s'.stage == s.stage[FrontCid(c, s, k) := Posted(w, Some(FrontBlk(c, s, k)))]
       && s'.copies == s.copies - {p.copying[0].id}
       && s'.pipes == s.pipes[k := p.(copying := p.copying[1..], inflight := p.inflight + [p.copying[0].len],
                                      posted := p.posted + 1)]
       && s'.posted == s.posted + {w} && s'.executed == s.executed && s'.lost == s.lost
       && s'.flow == Post(s.flow, c.pipes[k].nic, q)
       && s'.jobs == s.jobs && s'.reqQ == s.reqQ && s'.ct == s.ct && s'.resQ == s.resQ && s'.bufs == s.bufs
       && s'.nextId == s.nextId && s'.mem == s.mem && s'.base == s.base
       && |s'.xs| == |s.xs| && forall x :: 0 <= x < |s.xs| ==> s'.xs[x] == s.xs[x].(bytes := s'.xs[x].bytes)
  }

  lemma PostedFrontIs(c: Config, s: State, k: nat, q: nat, s': State)
    requires Ready(c, s, k, q) && s' == NextPostProxy(c, s, k, q)
    ensures PostedFront(c, s, k, q, s')
  {
    hide ChunkAt, Post, Shape;
    assert PipeOk(c, c.pipes[k]);
  }

  // What is known of the chunk at the head of a copying list when its flag is true.
  lemma FrontFacts(c: Config, s: State, k: nat, q: nat)
    requires Ready(c, s, k, q)
    requires CopyingOk(c, s.pipes, s.stage, s.copies, s.nextId) && StagesOk(c, s.stage)
    requires FlagsOk(s.copies, s.jobs, s.flags, s.pool, s.recycleQ)
    ensures var cc := s.pipes[k].copying[0]; var cid := FrontCid(c, s, k);
      && EntryOk(c, k, cc, s.stage, s.copies)
      && cid in s.stage && s.stage[cid] == Copying(k, cc.id, FrontBlk(c, s, k))
      && InUse(s.copies, cc.id) && s.copies[cc.id].at == Received && s.copies[cc.id].cid == cid
      && cc.flag == s.copies[cc.id].flag && cc.id !in s.jobs
      && ValidCid(c, cid) && cc.len == Len(c, cid)
      && StageOk(c, cid, Posted(ProxyWr(c, s, k, q), Some(FrontBlk(c, s, k))))
      && ProxyWr(c, s, k, q).id == cid
  {
    hide CopyingOk, StagesOk, FlagsOk, EntryOk, StageOk, NicRoom, ChunkAt, Total;
    FrontEntry(c, s, k, q);
    FrontStage(c, s, k, q);
  }

  lemma FrontEntry(c: Config, s: State, k: nat, q: nat)
    requires Ready(c, s, k, q)
    requires CopyingOk(c, s.pipes, s.stage, s.copies, s.nextId)
    requires FlagsOk(s.copies, s.jobs, s.flags, s.pool, s.recycleQ)
    ensures var cc := s.pipes[k].copying[0]; var cid := FrontCid(c, s, k);
      && EntryOk(c, k, cc, s.stage, s.copies)
      && cid in s.stage && s.stage[cid] == Copying(k, cc.id, FrontBlk(c, s, k))
      && InUse(s.copies, cc.id) && s.copies[cc.id].at == Received && s.copies[cc.id].cid == cid
      && cc.flag == s.copies[cc.id].flag && cc.id !in s.jobs
  {
    hide NicRoom, FreeFlagsOk, CopyOk;
    var cc := s.pipes[k].copying[0];
    assert EntryOk(c, k, cc, s.stage, s.copies);
    assert InUse(s.copies, cc.id);
  }

  lemma FrontStage(c: Config, s: State, k: nat, q: nat)
    requires Ready(c, s, k, q) && StagesOk(c, s.stage)
    requires FrontCid(c, s, k) in s.stage
    requires s.stage[FrontCid(c, s, k)] == Copying(k, s.pipes[k].copying[0].id, FrontBlk(c, s, k))
    ensures ValidCid(c, FrontCid(c, s, k)) && s.pipes[k].copying[0].len == Len(c, FrontCid(c, s, k))
    ensures StageOk(c, FrontCid(c, s, k), Posted(ProxyWr(c, s, k, q), Some(FrontBlk(c, s, k))))
    ensures ProxyWr(c, s, k, q).id == FrontCid(c, s, k)
  {
    hide NicRoom, Sge;
    assert StageOk(c, FrontCid(c, s, k), s.stage[FrontCid(c, s, k)]);
    assert PipeOk(c, c.pipes[k]);
    WholeLen(c, FrontCid(c, s, k));
  }

  // Other copies belong to other chunks.
  lemma OtherCopies(c: Config, s: State, id: nat)
    requires CopyingOk(c, s.pipes, s.stage, s.copies, s.nextId) && id in s.copies
    requires !Orphan(s.stage, s.copies, id)
    ensures forall i :: i in s.copies && i != id ==> s.copies[i].cid != s.copies[id].cid
  {
    assert CopyOk(s.pipes, s.stage, s.copies, id);
    forall i | i in s.copies && i != id
      ensures s.copies[i].cid != s.copies[id].cid
    {
      assert CopyOk(s.pipes, s.stage, s.copies, i);
    }
  }

  lemma PostProxyLists(c: Config, s: State, k: nat, q: nat, s': State)
    requires Ready(c, s, k, q) && s' == NextPostProxy(c, s, k, q)
    requires FlagsOk(s.copies, s.jobs, s.flags, s.pool, s.recycleQ)
    requires XfersOk(c, s.xs, s.stage) && StagesOk(c, s.stage)
    requires PendingOk(c, s.pipes, s.stage) && CopyingOk(c, s.pipes, s.stage, s.copies, s.nextId)
    ensures XfersOk(c, s'.xs, s'.stage) && StagesOk(c, s'.stage)
    ensures PendingOk(c, s'.pipes, s'.stage) && CopyingOk(c, s'.pipes, s'.stage, s'.copies, s'.nextId)
  {
    hide XferOk, PendingOk, CopyingOk, FlagsOk, StageOk, Ready, NextPostProxy, Sized, ConfigOk, ProxyWr, EntryOk,
         Total, ChunkAt;
    PostedFrontIs(c, s, k, q, s');
    FrontFacts(c, s, k, q);
    var cid := FrontCid(c, s, k);
    XfersSame(c, s.xs, s.stage, s'.xs, s'.stage);
    StagesUpdate(c, s.stage, cid, s'.stage[cid]);
    PendingSame(c, s.pipes, s.stage, s'.pipes, s'.stage);
    CopyingPost(c, s.pipes, s.stage, s.copies, s.nextId, k, s'.pipes[k], s'.stage[cid]);
  }

  lemma PostProxyQueues(c: Config, s: State, k: nat, q: nat, s': State)
    requires Ready(c, s, k, q) && s' == NextPostProxy(c, s, k, q)
    requires CopyingOk(c, s.pipes, s.stage, s.copies, s.nextId) && StagesOk(c, s.stage)
    requires RequestsOk(c, s.reqQ, s.stage, s.copies) && ThreadOk(c, s.ct, s.stage, s.copies)
      && ResultsOk(s.resQ, s.copies)
    requires FlagsOk(s.copies, s.jobs, s.flags, s.pool, s.recycleQ)
    ensures RequestsOk(c, s'.reqQ, s'.stage, s'.copies) && ThreadOk(c, s'.ct, s'.stage, s'.copies)
      && ResultsOk(s'.resQ, s'.copies)
  {
    hide CopyingOk, StagesOk, RequestsOk, ThreadOk, ResultsOk, FlagsOk, RequestFields, StageOk, EntryOk, Ready,
         NextPostProxy, Sized, ConfigOk, ProxyWr;
    PostedFrontIs(c, s, k, q, s');
    FrontFacts(c, s, k, q);
    OtherCopies(c, s, s.pipes[k].copying[0].id);
    RequestsSame(c, s.reqQ, s.stage, s.copies, s'.stage, s'.copies);
    ThreadSame(c, s.ct, s.stage, s.copies, s'.stage, s'.copies);
    ResultsSame(s.resQ, s.copies, s'.copies);
  }

  lemma PostProxyFlags(c: Config, s: State, k: nat, q: nat, s': State)
    requires Ready(c, s, k, q) && s' == NextPostProxy(c, s, k, q)
    requires CopyingOk(c, s.pipes, s.stage, s.copies, s.nextId) && StagesOk(c, s.stage)
    requires FlagsOk(s.copies, s.jobs, s.flags, s.pool, s.recycleQ) && JobsOk(c, s.jobs, s.stage, s.copies)
    ensures FlagsOk(s'.copies, s'.jobs, s'.flags, s'.pool, s'.recycleQ) && JobsOk(c, s'.jobs, s'.stage, s'.copies)
  {
    hide CopyingOk, StagesOk, FlagsOk, RequestFields, StageOk, EntryOk, NicRoom, ChunkAt, Total;
    FrontFacts(c, s, k, q);
    OtherCopies(c, s, s.pipes[k].copying[0].id);
    FlagsPost(s.copies, s.jobs, s.flags, s.pool, s.recycleQ, s.pipes[k].copying[0].id);
    JobsSame(c, s.jobs, s.stage, s.copies, s.jobs, s'.stage, s'.copies);
  }

  // A transfer with a chunk that is not done has not completed all its chunks.
  lemma NotAllDone(c: Config, xs: seq<Xfer>, stage: map<Cid, Stage>, id: Cid)
    requires XfersOk(c, xs, stage) && ValidCid(c, id) && (id in stage ==> !stage[id].Done?)
    ensures !AllDone(c, xs, id.x)
  {
    CompletedIffAllDone(c, xs, stage, id.x);
  }

  lemma PostProxyWrs(c: Config, s: State, k: nat, q: nat, s': State)
    requires Ready(c, s, k, q) && s' == NextPostProxy(c, s, k, q)
    requires CopyingOk(c, s.pipes, s.stage, s.copies, s.nextId) && StagesOk(c, s.stage)
    requires FlagsOk(s.copies, s.jobs, s.flags, s.pool, s.recycleQ)
    requires WrsOk(s.posted, Back(s), s.stage) && FlowOk(c, s.flow, s.posted + s.executed)
    ensures WrsOk(s'.posted, Back(s'), s'.stage) && FlowOk(c, s'.flow, s'.posted + s'.executed)
    ensures ProxyWr(c, s, k, q) !in Wrs(s) && Wrs(s') == Wrs(s) + {ProxyWr(c, s, k, q)}
  {
    hide CopyingOk, StagesOk, FlagsOk, StageOk, EntryOk, WrsOk, Ready, NextPostProxy, Post;
    PostedFrontIs(c, s, k, q, s');
    FrontFacts(c, s, k, q);
    var w := ProxyWr(c, s, k, q);
    WrsPost(s.posted, Back(s), s.stage, w, Some(FrontBlk(c, s, k)));
    assert s'.posted + s'.executed == s.posted + s.executed + {w};
    assert Wrs(s') == Wrs(s) + {w};
    FlowPost(c, s.flow, s.posted + s.executed, w);
  }

  lemma PostProxyLost(c: Config, s: State, k: nat, q: nat, s': State)
    requires Ready(c, s, k, q) && s' == NextPostProxy(c, s, k, q) && LostOk(s.xs, s.executed, s.lost)
    requires RefusedOk(c, s.pipes, s.xs)
    ensures LostOk(s'.xs, s'.executed, s'.lost) && RefusedOk(c, s'.pipes, s'.xs)
  {
    hide Ready, NextPostProxy, ProxyWr, Post;
    PostedFrontIs(c, s, k, q, s');
    LostSame(s.xs, s.executed, s.lost, s'.xs);
    RefusedSame(c, s.pipes, s.xs, s'.pipes, s'.xs);
  }

  lemma PostProxyCore(c: Config, s: State, k: nat, q: nat)
    requires Core(c, s) && Enabled(c, s, PostProxy(k, q))
    ensures Core(c, Next(c, s, PostProxy(k, q)))
  {
    hide FlowOk, WrsOk, LostOk, RefusedOk, JobsOk, FlagsOk, ResultsOk, ThreadOk, RequestsOk, CopyingOk, PendingOk,
         StagesOk, XfersOk;
    var s' := NextPostProxy(c, s, k, q);
    PostProxyLists(c, s, k, q, s');
    PostProxyQueues(c, s, k, q, s');
    PostProxyFlags(c, s, k, q, s');
    PostProxyWrs(c, s, k, q, s');
    PostProxyLost(c, s, k, q, s');
  }

  /* ---------- a completion is polled ---------- */

  // The search for the pipeline of a completion finds the one the request came through,
  // and none for a request that came through no pipeline.
  lemma CreditsOwnPipe(c: Config, w: Wr, held: Option<Blk>)
    requires ConfigOk(c) && ValidCid(c, w.id) && WrOk(c, w, held)
    ensures PipeOn(c, w.id.x, w.nic, |c.pipes|) == w.via
  {
    var r := PipeOn(c, w.id.x, w.nic, |c.pipes|);
    if r.Some? {
      assert PipeOk(c, c.pipes[r.value]);
    }
  }

  lemma PollWr(c: Config, s: State, w: Wr)
    requires ConfigOk(c) && w in s.executed
    requires StagesOk(c, s.stage) && WrsOk(s.posted, Back(s), s.stage)
    ensures w.id in s.stage && s.stage[w.id].Posted? && s.stage[w.id].wr == w
    ensures ValidCid(c, w.id) && WrOk(c, w, s.stage[w.id].held)
    ensures PipeOn(c, w.id.x, w.nic, |c.pipes|) == w.via
    ensures w in Wrs(s)
  {
    assert w in Wrs(s);
    assert StageOk(c, w.id, s.stage[w.id]);
    CreditsOwnPipe(c, w, s.stage[w.id].held);
  }

  lemma PollShape(c: Config, s: State, w: Wr, s': State)
    requires ConfigOk(c) && Sized(c, s) && Enabled(c, s, Poll(w)) && s' == NextPoll(c, s, w)
    requires w.id.x < |s.xs|
    ensures s'.stage == s.stage[w.id := Done] && s'.copies == s.copies && s'.nextId == s.nextId
    ensures s'.xs == s.xs[w.id.x := s.xs[w.id.x].(completed := s.xs[w.id.x].completed + 1)]
    ensures |s'.pipes| == |s.pipes|
    ensures forall k :: 0 <= k < |s.pipes| ==>
      s'.pipes[k].pending == s.pipes[k].pending && s'.pipes[k].copying == s.pipes[k].copying
    ensures s'.reqQ == s.reqQ && s'.ct == s.ct && s'.jobs == s.jobs && s'.bufs == s.bufs
  {
    hide ConfigOk, Complete, Shape;
  }

  lemma PollLists(c: Config, s: State, w: Wr, s': State)
    requires ConfigOk(c) && Sized(c, s) && Enabled(c, s, Poll(w)) && s' == NextPoll(c, s, w)
    requires XfersOk(c, s.xs, s.stage) && StagesOk(c, s.stage) && WrsOk(s.posted, Back(s), s.stage)
    requires PendingOk(c, s.pipes, s.stage) && CopyingOk(c, s.pipes, s.stage, s.copies, s.nextId)
    ensures XfersOk(c, s'.xs, s'.stage) && StagesOk(c, s'.stage)
    ensures PendingOk(c, s'.pipes, s'.stage) && CopyingOk(c, s'.pipes, s'.stage, s'.copies, s'.nextId)
  {
    hide XfersOk, PendingOk, CopyingOk, WrOk, WrsOk, NextPoll, Sized, ConfigOk;
    PollWr(c, s, w);
    SameCopiesSelf(s.stage, s.copies);
    XfersDone(c, s.xs, s.stage, w.id);
    PollShape(c, s, w, s');
    StagesUpdate(c, s.stage, w.id, Done);
    PendingSame(c, s.pipes, s.stage, s'.pipes, s'.stage);
    CopyingSame(c, s.pipes, s.stage, s.copies, s.nextId, s'.pipes, s'.stage, s.copies, s.nextId);
  }

  lemma PollQueues(c: Config, s: State, w: Wr, s': State)
    requires ConfigOk(c) && Sized(c, s) && Enabled(c, s, Poll(w)) && s' == NextPoll(c, s, w) && w.id.x < |s.xs|
    requires StagesOk(c, s.stage) && WrsOk(s.posted, Back(s), s.stage)
    requires CopyingOk(c, s.pipes, s.stage, s.copies, s.nextId)
    requires RequestsOk(c, s.reqQ, s.stage, s.copies) && ThreadOk(c, s.ct, s.stage, s.copies)
    requires JobsOk(c, s.jobs, s.stage, s.copies)
    ensures RequestsOk(c, s'.reqQ, s'.stage, s'.copies) && ThreadOk(c, s'.ct, s'.stage, s'.copies)
    ensures JobsOk(c, s'.jobs, s'.stage, s'.copies)
  {
    hide CopyingOk, StagesOk, RequestsOk, ThreadOk, RequestFields, StageOk, WrOk, WrsOk, NextPoll, Sized, ConfigOk;
    PollWr(c, s, w);
    PollShape(c, s, w, s');
    CopyStagesApart(c, s, w.id);
    RequestsSame(c, s.reqQ, s.stage, s.copies, s'.stage, s'.copies);
    ThreadSame(c, s.ct, s.stage, s.copies, s'.stage, s'.copies);
    JobsSame(c, s.jobs, s.stage, s.copies, s.jobs, s'.stage, s'.copies);
  }

  lemma PollWrs(c: Config, s: State, w: Wr)
    requires Core(c, s) && Enabled(c, s, Poll(w))
    ensures var s' := NextPoll(c, s, w);
      && WrsOk(s'.posted, Back(s'), s'.stage) && FlowOk(c, s'.flow, s'.posted + s'.executed)
      && Wrs(s') == Wrs(s) - {w} && LostOk(s'.xs, s'.executed, s'.lost)
  {
    hide FlowOk, JobsOk, FlagsOk, ResultsOk, ThreadOk, RequestsOk, CopyingOk, PendingOk, StagesOk, XfersOk, WrsOk,
         Complete, CreditPipe;
    var s' := NextPoll(c, s, w);
    WrsApart(s.posted, Back(s), s.stage);
    WrsPoll(s.posted, Back(s), s.stage, w);
    assert Back(s') == Back(s) - {w};
    assert Wrs(s') == Wrs(s) - {w};
    assert s'.posted + s'.executed == (s.posted + s.executed) - {w};
    FlowComplete(c, s.flow, s.posted + s.executed, w);
  }

  lemma PollRefused(c: Config, s: State, w: Wr, s': State)
    requires ConfigOk(c) && Sized(c, s) && Enabled(c, s, Poll(w)) && s' == NextPoll(c, s, w) && w.id.x < |s.xs|
    requires RefusedOk(c, s.pipes, s.xs)
    ensures RefusedOk(c, s'.pipes, s'.xs)
  {
    hide ConfigOk, NextPoll, Refused;
    PollShape(c, s, w, s');
    RefusedSame(c, s.pipes, s.xs, s'.pipes, s'.xs);
  }

  lemma PollCore(c: Config, s: State, w: Wr)
    requires Core(c, s) && Enabled(c, s, Poll(w))
    ensures Core(c, Next(c, s, Poll(w)))
  {
    hide FlowOk, WrsOk, LostOk, RefusedOk, JobsOk, FlagsOk, ResultsOk, ThreadOk, RequestsOk, CopyingOk, PendingOk,
         StagesOk, XfersOk;
    var s' := NextPoll(c, s, w);
    PollWr(c, s, w);
    PollLists(c, s, w, s');
    PollQueues(c, s, w, s');
    PollWrs(c, s, w);
    PollRefused(c, s, w, s');
  }

  /* ---------- results that nobody awaits ---------- */

  // A result that is not awaited belongs to a dropped chunk. Any other is awaited by the
  // chunk that submitted its request, in a running transfer, and by no other chunk.
  lemma ResultAwaited(c: Config, s: State)
    requires Core(c, s) && s.resQ != []
    ensures s.resQ[0].id in s.copies
    ensures Orphan(s.stage, s.copies, s.resQ[0].id)
      || exists k: nat, j: nat :: PipeRunning(c, s, k) && Awaits(s, k, j, s.resQ[0].id)
    ensures Orphan(s.stage, s.copies, s.resQ[0].id) ==> forall k: nat, j: nat :: !Awaits(s, k, j, s.resQ[0].id)
    ensures forall k: nat, j: nat :: Awaits(s, k, j, s.resQ[0].id) ==>
      s.copies[s.resQ[0].id].cid == Cid(c.pipes[k].xfer, s.pipes[k].copying[j].chunk)
    ensures forall k: nat, j: nat, l: nat, i: nat ::
      Awaits(s, k, j, s.resQ[0].id) && Awaits(s, l, i, s.resQ[0].id) ==> k == l && j == i
  {
    hide FlowOk, WrsOk, LostOk, RefusedOk, JobsOk, FlagsOk, ThreadOk, RequestsOk, PendingOk, XfersOk, CopyingOk,
         StagesOk;
    var id := s.resQ[0].id;
    assert ResultOk(s.resQ[0], InResults, s.copies);
    if Orphan(s.stage, s.copies, id) {
      OrphanAlone(c, s, id);
    } else {
      AwaitedBySubmitter(c, s, id);
    }
  }

  // No chunk waits for the copy of a dropped one.
  lemma OrphanAlone(c: Config, s: State, id: nat)
    requires CopyingOk(c, s.pipes, s.stage, s.copies, s.nextId) && id in s.copies && Orphan(s.stage, s.copies, id)
    ensures forall k, j :: 0 <= k < |s.pipes| && 0 <= j < |s.pipes[k].copying| ==> s.pipes[k].copying[j].id != id
  {
    forall k, j | 0 <= k < |s.pipes| && 0 <= j < |s.pipes[k].copying|
      ensures s.pipes[k].copying[j].id != id
    {
      assert EntryOk(c, k, s.pipes[k].copying[j], s.stage, s.copies);
    }
  }

  lemma AwaitedBySubmitter(c: Config, s: State, id: nat)
    requires ConfigOk(c) && Sized(c, s) && XfersOk(c, s.xs, s.stage) && StagesOk(c, s.stage)
    requires CopyingOk(c, s.pipes, s.stage, s.copies, s.nextId)
    requires id in s.copies && s.copies[id].at != Received && !Orphan(s.stage, s.copies, id)
    ensures exists k: nat, j: nat :: PipeRunning(c, s, k) && Awaits(s, k, j, id)
    ensures forall k: nat, j: nat :: Awaits(s, k, j, id) ==>
      s.copies[id].cid == Cid(c.pipes[k].xfer, s.pipes[k].copying[j].chunk)
    ensures forall k: nat, j: nat, l: nat, i: nat :: Awaits(s, k, j, id) && Awaits(s, l, i, id) ==> k == l && j == i
  {
    hide XfersOk;
    assert CopyOk(s.pipes, s.stage, s.copies, id);
    var cid := s.copies[id].cid;
    var k := s.stage[cid].k;
    var j: nat :| j < |s.pipes[k].copying| && s.pipes[k].copying[j].id == id;
    assert EntryOk(c, k, s.pipes[k].copying[j], s.stage, s.copies);
    UndoneRunning(c, s.xs, s.stage, cid);
    assert PipeRunning(c, s, k) && Awaits(s, k, j, id);
    forall l: nat, i: nat | Awaits(s, l, i, id)
      ensures l == k && i == j && cid == Cid(c.pipes[l].xfer, s.pipes[l].copying[i].chunk)
    {
      assert EntryOk(c, l, s.pipes[l].copying[i], s.stage, s.copies);
    }
  }

  // A transfer with a chunk in a list is running.
  lemma UndoneRunning(c: Config, xs: seq<Xfer>, stage: map<Cid, Stage>, id: Cid)
    requires XfersOk(c, xs, stage) && StagesOk(c, stage) && id in stage && (stage[id].Pending? || stage[id].Copying?)
    ensures id.x < |xs| && xs[id.x].status == Active
  {
    assert StageOk(c, id, stage[id]);
    NotAllDone(c, xs, stage, id);
    assert XferOk(c, xs[id.x], id.x, stage);
    assert StatusFits(xs[id.x].status, stage[id]);
  }

  lemma ResultsDrop(resQ: seq<CopyResult>, copies: map<nat, Copy>)
    requires ResultsOk(resQ, copies) && resQ != []
    ensures ResultOk(resQ[0], InResults, copies)
    ensures ResultsOk(resQ[1..], copies - {resQ[0].id})
  {
    var copies' := copies - {resQ[0].id};
    assert ResultOk(resQ[0], InResults, copies);
    forall j | 0 <= j < |resQ[1..]|
      ensures ResultOk(resQ[1..][j], InResults, copies')
    {
      assert ResultOk(resQ[j + 1], InResults, copies) && resQ[j + 1].id != resQ[0].id;
    }
    forall i, j | 0 <= i < j < |resQ[1..]|
      ensures resQ[1..][i].id != resQ[1..][j].id
    {
      assert resQ[i + 1].id != resQ[j + 1].id;
    }
    forall id | id in copies' && copies'[id].at == InResults
      ensures InResultQ(resQ[1..], id)
    {
      var j :| 0 <= j < |resQ| && resQ[j].id == id;
      assert resQ[1..][j - 1].id == id;
    }
  }

  // An orphan leaves; no list mentions it.
  lemma CopyingForget(c: Config, pipes: seq<Pipe>, stage: map<Cid, Stage>, copies: map<nat, Copy>, nextId: nat, id: nat)
    requires CopyingOk(c, pipes, stage, copies, nextId) && id in copies && Orphan(stage, copies, id)
    ensures CopyingOk(c, pipes, stage, copies - {id}, nextId)
  {
    var copies' := copies - {id};
    forall k, j | 0 <= k < |pipes| && 0 <= j < |pipes[k].copying|
      ensures EntryOk(c, k, pipes[k].copying[j], stage, copies')
    {
      assert EntryOk(c, k, pipes[k].copying[j], stage, copies);
    }
    forall i | i in copies'
      ensures i < nextId && CopyOk(pipes, stage, copies', i)
    {
      assert CopyOk(pipes, stage, copies, i);
    }
  }

  lemma OrphanNoJob(c: Config, s: State, id: nat)
    requires JobsOk(c, s.jobs, s.stage, s.copies) && id in s.copies && Orphan(s.stage, s.copies, id)
    ensures id !in s.jobs
  {
    assert id in s.jobs ==> RequestFields(c, s.jobs[id].req, s.copies[id].cid, s.stage);
  }

  lemma DropSame(copies: map<nat, Copy>, id: nat)
    requires id in copies && copies[id].at == InResults
    ensures SameAt(copies, copies - {id}, InRequests) && SameAt(copies, copies - {id}, WithThread)
    ensures SameAt(copies, copies - {id}, WithResult)
    ensures copies[id].flag.None? ==> SameInUse(copies, copies - {id})
  {
  }

  lemma DropFlags(s: State, id: nat, f: Option<nat>)
    requires FlagsOk(s.copies, s.jobs, s.flags, s.pool, s.recycleQ) && id in s.copies && id !in s.jobs
    requires s.copies[id].at == InResults && s.copies[id].flag == f
    ensures var s' := GiveIf(s.(copies := s.copies - {id}), f);
      FlagsOk(s'.copies, s'.jobs, s'.flags, s'.pool, s'.recycleQ)
  {
    hide FlagsOk, SameInUse, SameAt;
    DropSame(s.copies, id);
    if f.Some? {
      FlagsPost(s.copies, s.jobs, s.flags, s.pool, s.recycleQ, id);
    } else {
      FlagsSame(s.copies, s.jobs, s.flags, s.pool, s.recycleQ, s.copies - {id});
    }
  }

  lemma DropResultCore(c: Config, s: State)
    requires Core(c, s) && Enabled(c, s, DropResult)
    ensures Core(c, Next(c, s, DropResult))
  {
    hide FlowOk, WrsOk, LostOk, RefusedOk, JobsOk, FlagsOk, ResultsOk, ThreadOk, RequestsOk, CopyingOk, PendingOk,
         StagesOk, XfersOk, SameAt, SameInUse, Orphan, NextPostDirect, NextAssignProxy, NextSubmit, NextSubmitFull,
         NextLaunch, NextDispatch, NextDrain, NextPostProxy, NextPoll, NextFail;
    var id := s.resQ[0].id;
    ResultAwaited(c, s);
    ResultsDrop(s.resQ, s.copies);
    OrphanNoJob(c, s, id);
    CopyingForget(c, s.pipes, s.stage, s.copies, s.nextId, id);
    DropSame(s.copies, id);
    RequestsSame(c, s.reqQ, s.stage, s.copies, s.stage, s.copies - {id});
    ThreadSame(c, s.ct, s.stage, s.copies, s.stage, s.copies - {id});
    JobsSame(c, s.jobs, s.stage, s.copies, s.jobs, s.stage, s.copies - {id});
    DropFlags(s.(resQ := s.resQ[1..]), id, s.resQ[0].flag);
  }
}

/** Data: whatever way a chunk goes and however the steps interleave, a finished transfer has
    delivered the documented layout. */
module PxnDelivery {
  import opened Chunks
  import opened Layout
  import opened ProxyBuffer
  import opened FlowControl
  import opened PxnModel
  import opened PxnRuns
  import opened PxnInvariant
  import opened PxnQueues
  import opened PxnFlags
  import opened PxnCounts
  import opened PxnData
  import opened PxnSteps
  import opened PxnFailure
  import opened PxnBooks

  // What a step that moves no data must keep.
  ghost predicate Still(s: State, s': State) {
    && s'.mem == s.mem && s'.base == s.base && NoneBusier(s.xs, s.posted, s'.xs, s'.posted)
    && (forall id :: LoadedCopy(s'.stage, s'.copies, s'.jobs, id) ==>
          LoadedCopy(s.stage, s.copies, s.jobs, id) && s'.copies[id].cid == s.copies[id].cid)
    && (forall id :: LoadedCopy(s'.stage, s'.copies, s'.jobs, id) && s'.copies[id].cid in s.stage ==>
          s'.copies[id].cid in s'.stage && s'.stage[s'.copies[id].cid] == s.stage[s'.copies[id].cid])
    && (forall id :: Arrived(s'.stage, s'.executed, id) ==> Arrived(s.stage, s.executed, id))
  }

  lemma QuietData(c: Config, s: State, s': State)
    requires DataInv(c, s) && Still(s, s') && PostedLoaded(c, s.base, s.mem, s'.stage)
    ensures DataInv(c, s')
  {
    hide Arrived, LoadedCopy, BlockLoaded, Carries, NoneStarts, Busy;
    SourcesSame(c, s.base, s.mem, s.xs, s.posted, s'.xs, s'.posted);
    CopiesLoadedSame(c, s.base, s.mem, s.stage, s.copies, s.jobs, s'.stage, s'.copies, s'.jobs);
    DeliveredSame(c, s.base, s.mem, s.xs, s.stage, s.executed, s'.xs, s'.stage, s'.executed);
  }

  // Steps that touch neither stages nor copies nor jobs nor memory.
  lemma IdleData(c: Config, s: State, s': State)
    requires DataInv(c, s)
    requires s'.mem == s.mem && s'.stage == s.stage && s'.executed == s.executed && s'.copies == s.copies
      && s'.jobs == s.jobs
    requires s'.base == s.base && NoneBusier(s.xs, s.posted, s'.xs, s'.posted)
    ensures DataInv(c, s')
  {
    hide BlockLoaded, Carries, LiveApart, SourcesKept, NoneStarts, Busy;
    SourcesSame(c, s.base, s.mem, s.xs, s.posted, s'.xs, s'.posted);
    DeliveredSame(c, s.base, s.mem, s.xs, s.stage, s.executed, s'.xs, s'.stage, s'.executed);
  }

  lemma FreshData(c: Config, s: State, s': State, id: Cid, st: Stage)
    requires DataInv(c, s) && id !in s.stage && Held(st).None? && !st.Done?
    requires (st.Posted? ==> st.wr !in s.executed) && !st.Dropped?
    requires s'.base == s.base && NoneBusier(s.xs, s.posted, s'.xs, s'.posted)
    requires s'.mem == s.mem && s'.stage == s.stage[id := st] && s'.executed == s.executed && s'.copies == s.copies
      && s'.jobs == s.jobs
    ensures DataInv(c, s')
  {
    hide BlockLoaded, Carries, ValidCid;
    PostedLoadedSame(c, s.base, s.mem, s.stage, id, st);
    QuietData(c, s, s');
  }

  lemma AssignData(c: Config, s: State, k: nat)
    requires Inv(c, s) && DataInv(c, s) && Enabled(c, s, AssignProxy(k))
    ensures DataInv(c, Next(c, s, AssignProxy(k)))
  {
    hide DataInv, BlocksOk, BufsOk, RecordsOk, FlowOk, CountsOk, WrsOk, JobsOk, FlagsOk, ResultsOk, ThreadOk,
         RequestsOk, CopyingOk, PendingOk, StagesOk, XferOk, ProxyRoom;
    var x := c.pipes[k].xfer;
    FreshData(c, s, NextAssignProxy(c, s, k), Cid(x, s.xs[x].next), Pending(k));
  }

  lemma PostDirectData(c: Config, s: State, x: nat, n: nat, q: nat)
    requires Inv(c, s) && DataInv(c, s) && Enabled(c, s, PostDirect(x, n, q))
    ensures DataInv(c, Next(c, s, PostDirect(x, n, q)))
  {
    hide DataInv, BlocksOk, BufsOk, RecordsOk, FlowOk, CountsOk, JobsOk, FlagsOk, ResultsOk, ThreadOk, RequestsOk,
         CopyingOk, PendingOk, StagesOk, XferOk;
    var id := Cid(x, s.xs[x].next);
    var w := Wr(n, q, id, None, Src(c, id), Dst(c, id), Sge(Len(c, id)));
    PostDirectWr(c, s, x, n, q);
    PostDirectWrs(c, s, x, n, q);
    FreshData(c, s, NextPostDirect(c, s, x, n, q), id, Posted(w, None));
  }

  lemma SubmitData(c: Config, s: State, k: nat)
    requires Inv(c, s) && DataInv(c, s) && Enabled(c, s, Submit(k))
    ensures DataInv(c, Next(c, s, Submit(k)))
  {
    hide BlocksOk, BufsOk, RecordsOk, FlowOk, CountsOk, WrsOk, JobsOk, FlagsOk, ResultsOk, ThreadOk, RequestsOk,
         CopyingOk, PendingOk, StagesOk, XfersOk, ChunkAt, TryAlloc, BlockLoaded, Carries, SourcesKept, CopiesLoaded,
         DeliveredOk;
    var s' := NextSubmit(c, s, k);
    HeadFacts(c, s, k);
    SubmitStage(c, s, k);
    CopyStagesApart(c, s, Head(c, s, k));
    PostedLoadedSame(c, s.base, s.mem, s.stage, Head(c, s, k), s'.stage[Head(c, s, k)]);
    QuietData(c, s, s');
  }

  lemma MovedData(c: Config, s: State, s': State, id: nat, at: Where)
    requires DataInv(c, s) && id in s.copies
    requires LaunchedAt(at) ==> LaunchedAt(s.copies[id].at) || s.copies[id].flag.None?
    requires Orphan(s.stage, s.copies, id) ==> Returning(at)
    requires s'.mem == s.mem && s'.stage == s.stage && s'.executed == s.executed && s'.jobs == s.jobs
    requires s'.copies == Move(s.copies, id, at) && s'.base == s.base && s'.posted == s.posted
    requires NoneBusier(s.xs, s.posted, s'.xs, s'.posted)
    ensures DataInv(c, s')
  {
    hide BlockLoaded, Carries, ValidCid;
    QuietData(c, s, s');
  }

  lemma QueueData(c: Config, s: State, step: Step)
    requires Inv(c, s) && DataInv(c, s) && Enabled(c, s, step)
    requires step.PopRequest? || step.PushResult? || step.CopyFails?
    ensures DataInv(c, Next(c, s, step))
  {
    hide DataInv, Books, XfersOk, FlowOk, LostOk, RefusedOk, WrsOk, JobsOk, FlagsOk, RequestsOk, CopyingOk, PendingOk,
         StagesOk, ResultsOk, NextPostDirect, NextAssignProxy, NextSubmit, NextSubmitFull, NextLaunch, NextDispatch,
         NextDrain, NextPostProxy, NextPoll, NextFail;
    var s' := Next(c, s, step);
    match step
    case PopRequest =>
      RequestsPop(c, s.reqQ, s.stage, s.copies);
      MovedData(c, s, s', s.reqQ[0].id, WithThread);
    case PushResult => MovedData(c, s, s', s.ct.res.id, InResults);
    case CopyFails => MovedData(c, s, s', s.ct.req.id, WithResult);
  }

  // The two ways in which a result leaves the queue.
  lemma DispatchData(c: Config, s: State, k: nat, j: nat)
    requires Inv(c, s) && DataInv(c, s) && Enabled(c, s, Dispatch(k, j))
    ensures DataInv(c, Next(c, s, Dispatch(k, j)))
  {
    hide DataInv, Books, XfersOk, FlowOk, LostOk, RefusedOk, WrsOk, JobsOk, FlagsOk, RequestsOk, CopyingOk, PendingOk,
         StagesOk, ThreadOk, Orphan, NextPostDirect, NextAssignProxy, NextSubmit, NextSubmitFull, NextLaunch,
         NextDrain, NextPostProxy, NextPoll, NextFail;
    ResultAwaited(c, s);
    assert ResultOk(s.resQ[0], InResults, s.copies);
    MovedData(c, s, Next(c, s, Dispatch(k, j)), s.resQ[0].id, Received);
  }

  lemma DropResultData(c: Config, s: State)
    requires DataInv(c, s) && ConfigOk(c) && Sized(c, s) && Enabled(c, s, DropResult)
    ensures DataInv(c, Next(c, s, DropResult))
  {
    hide ConfigOk, BlockLoaded, Carries, ValidCid, SourcesKept, CopiesLoaded, PostedLoaded, DeliveredOk, LiveApart,
         NextPostDirect, NextAssignProxy, NextSubmit, NextSubmitFull, NextLaunch, NextDispatch, NextDrain,
         NextPostProxy, NextPoll, NextFail;
    QuietData(c, s, Next(c, s, DropResult));
  }

  lemma LaunchData(c: Config, s: State, f: nat)
    requires Inv(c, s) && DataInv(c, s) && Enabled(c, s, Launch(f))
    ensures DataInv(c, Next(c, s, Launch(f)))
  {
    hide BlocksOk, BufsOk, RecordsOk, FlowOk, CountsOk, WrsOk, JobsOk, FlagsOk, ResultsOk, RequestsOk, CopyingOk,
         PendingOk, StagesOk, XfersOk, BlockLoaded, Carries, SourcesKept, CopiesLoaded, DeliveredOk, NextPostDirect,
         NextAssignProxy, NextSubmit, NextSubmitFull, NextDispatch, NextDrain, NextPostProxy, NextPoll;
    HeldRequest(c, s);
    QuietData(c, s, NextLaunch(s, f));
  }

  lemma CallbackData(c: Config, s: State, id: nat)
    requires Inv(c, s) && DataInv(c, s) && Enabled(c, s, Callback(id))
    ensures DataInv(c, Next(c, s, Callback(id)))
  {
    hide Core, Books, BlockLoaded, Carries, SourcesKept, CopiesLoaded, DeliveredOk, PostedLoaded, LiveApart, Still,
         NextPostDirect, NextAssignProxy, NextSubmit, NextSubmitFull, NextLaunch, NextDispatch, NextDrain,
         NextPostProxy, NextPoll, NextFail;
    CoreSized(c, s);
    CallbackStill(c, s, id);
    QuietData(c, s, Next(c, s, Callback(id)));
  }

  // A job whose callback runs has landed already.
  lemma CallbackStill(c: Config, s: State, id: nat)
    requires ConfigOk(c) && Sized(c, s) && Enabled(c, s, Callback(id))
    ensures Still(s, Next(c, s, Callback(id)))
  {
    hide ConfigOk, NextPostDirect, NextAssignProxy, NextSubmit, NextSubmitFull, NextLaunch, NextDispatch, NextDrain,
         NextPostProxy, NextPoll, NextFail;
  }

  lemma UndoneLive(c: Config, xs: seq<Xfer>, stage: map<Cid, Stage>, id: Cid)
    requires XfersOk(c, xs, stage) && StagesOk(c, stage) && id in stage && stage[id].Copying?
    ensures Live(xs, id.x)
  {
    UndoneRunning(c, xs, stage, id);
  }

  lemma LandData(c: Config, s: State, id: nat)
    requires Inv(c, s) && DataInv(c, s) && Enabled(c, s, Land(id))
    ensures DataInv(c, Next(c, s, Land(id)))
  {
    hide Core, Books, BlocksOk, BufsOk, RecordsOk, FlowOk, CountsOk, WrsOk, LostOk, RefusedOk, FlagsOk, JobsOk,
         CopyingOk, PendingOk, StagesOk, XfersOk, SourcesKept, CopiesLoaded, PostedLoaded, DeliveredOk, LiveApart,
         Copied, RequestFields, Orphan, NextPostDirect, NextAssignProxy, NextSubmit, NextSubmitFull, NextLaunch,
         NextDispatch, NextDrain, NextPostProxy, NextPoll, NextFail;
    CoreSized(c, s);
    CoreParts(c, s);
    BooksParts(c, s);
    var req := s.jobs[id].req;
    var s' := Next(c, s, Land(id));
    CopyStagesHold(c, s);
    JobListed(c, s, id);
    RequestStage(c, req, s.copies[id].cid, s.stage);
    UndoneLive(c, s.xs, s.stage, s.copies[id].cid);
    LandSources(c, s.base, s.mem, s.xs, req.src, req.dst, req.len);
    LandCopies(c, s.base, s.mem, s.xs, s.bufs, s.stage, s.copies, s.jobs, id, req, s'.jobs);
    LandPosted(c, s.base, s.mem, s.bufs, s.stage, req, s.copies[id].cid);
    LandDelivered(c, s.base, s.mem, s.xs, s.stage, s.executed, req.src, req.dst, req.len);
  }

  lemma RequestStage(c: Config, req: CopyRequest, cid: Cid, stage: map<Cid, Stage>)
    requires RequestFields(c, req, cid, stage)
    ensures cid in stage && stage[cid].Copying? && req.dst.Proxy?
  {
  }

  lemma CopyStagesHold(c: Config, s: State)
    requires CopyingOk(c, s.pipes, s.stage, s.copies, s.nextId)
    ensures CopyStages(s.stage, s.copies)
  {
    forall id | id in s.copies && !Orphan(s.stage, s.copies, id)
      ensures s.copies[id].cid in s.stage && s.stage[s.copies[id].cid].Copying? && s.stage[s.copies[id].cid].id == id
    {
      assert CopyOk(s.pipes, s.stage, s.copies, id);
    }
  }

  lemma ExecuteData(c: Config, s: State, w: Wr)
    requires Inv(c, s) && DataInv(c, s) && Enabled(c, s, Execute(w))
    ensures DataInv(c, Next(c, s, Execute(w)))
  {
    hide BlocksOk, BufsOk, RecordsOk, FlowOk, CountsOk, JobsOk, FlagsOk, ResultsOk, ThreadOk, RequestsOk, CopyingOk,
         PendingOk, XfersOk, SourcesKept, CopiesLoaded, PostedLoaded, DeliveredOk, Copied, LiveApart, Live,
         NextPostDirect, NextAssignProxy, NextSubmit, NextSubmitFull, NextLaunch, NextDispatch, NextDrain,
         NextPostProxy, NextPoll;
    OutstandingWr(c, s, w);
    EndsNotProxy(c, w.id);
    PostedNotEarly(c, s, w.id);
    ExecuteSources(c, s.base, s.mem, s.xs, s.posted, w);
    ExecuteCopies(c, s.base, s.mem, s.stage, s.copies, s.jobs, w);
    ExecutePosted(c, s.base, s.mem, s.stage, w);
    ExecuteDelivered(c, s.base, s.mem, s.xs, s.posted, s.stage, s.executed, w);
    ExecuteApart(c, s, w);
  }

  lemma ExecuteApart(c: Config, s: State, w: Wr)
    requires LiveApart(c, s.xs, s.posted)
    ensures LiveApart(c, s.xs, s.posted - {w})
  {
    hide CidsApart;
  }

  // The posted chunk's block was filled by its own copy: its flag is true.
  lemma FrontLoaded(c: Config, s: State, k: nat, q: nat)
    requires Ready(c, s, k, q)
    requires k < |c.pipes| && k < |s.pipes| && s.pipes[k].copying != [] && ValidCid(c, FrontCid(c, s, k))
    requires CopyingOk(c, s.pipes, s.stage, s.copies, s.nextId) && StagesOk(c, s.stage)
    requires FlagsOk(s.copies, s.jobs, s.flags, s.pool, s.recycleQ)
    requires CopiesLoaded(c, s.base, s.mem, s.stage, s.copies, s.jobs)
    ensures BlockLoaded(c, s.base, s.mem, FrontCid(c, s, k), FrontBlk(c, s, k))
  {
    hide CopyingOk, StagesOk, FlagsOk, BlockLoaded, StageOk, EntryOk, NicRoom;
    FrontFacts(c, s, k, q);
    assert LoadedCopy(s.stage, s.copies, s.jobs, s.pipes[k].copying[0].id);
  }

  lemma PostQuiet(c: Config, s: State, k: nat, q: nat, s': State)
    requires Ready(c, s, k, q) && s' == NextPostProxy(c, s, k, q)
    requires forall id :: id in s.copies && id != s.pipes[k].copying[0].id ==> s.copies[id].cid != FrontCid(c, s, k)
    requires FrontCid(c, s, k) in s.stage && s.stage[FrontCid(c, s, k)].Copying?
    requires ProxyWr(c, s, k, q) !in s.executed && ProxyWr(c, s, k, q).id.x < |s.xs|
    requires Live(s.xs, ProxyWr(c, s, k, q).id.x)
    ensures Still(s, s')
    ensures s'.stage == s.stage[FrontCid(c, s, k) := Posted(ProxyWr(c, s, k, q), Some(FrontBlk(c, s, k)))]
  {
    hide Ready, NextPostProxy, Post, ProxyWr, ConfigOk, Sized;
    PostedFrontIs(c, s, k, q, s');
  }

  lemma PostProxyData(c: Config, s: State, k: nat, q: nat)
    requires Inv(c, s) && DataInv(c, s) && Enabled(c, s, PostProxy(k, q))
    ensures DataInv(c, Next(c, s, PostProxy(k, q)))
  {
    hide BlocksOk, BufsOk, RecordsOk, FlowOk, CountsOk, JobsOk, ResultsOk, ThreadOk, RequestsOk, CopyingOk, PendingOk,
         StagesOk, XfersOk, SourcesKept, CopiesLoaded, DeliveredOk, FlagsOk, BlockLoaded, StageOk, EntryOk,
         NextPostProxy, Post, ProxyWr, PostedFront, LiveApart;
    var s' := NextPostProxy(c, s, k, q);
    FrontFacts(c, s, k, q);
    FrontLoaded(c, s, k, q);
    PostProxyWrs(c, s, k, q, s');
    OtherCopies(c, s, s.pipes[k].copying[0].id);
    PostedLoadedSame(c, s.base, s.mem, s.stage, FrontCid(c, s, k),
                     Posted(ProxyWr(c, s, k, q), Some(FrontBlk(c, s, k))));
    PostQuiet(c, s, k, q, s');
    QuietData(c, s, s');
  }

  lemma PollQuiet(c: Config, s: State, w: Wr, s': State)
    requires ConfigOk(c) && Sized(c, s) && Enabled(c, s, Poll(w)) && s' == NextPoll(c, s, w) && w.id.x < |s.xs|
    requires w.id in s.stage && s.stage[w.id].Posted? && s.stage[w.id].wr == w
    requires CopyingOk(c, s.pipes, s.stage, s.copies, s.nextId)
    ensures Still(s, s') && s'.stage == s.stage[w.id := Done]
  {
    hide CopyingOk, ConfigOk, Sized, CreditPipe, Complete;
    CopyStagesApart(c, s, w.id);
  }

  lemma PollData(c: Config, s: State, w: Wr)
    requires Inv(c, s) && DataInv(c, s) && Enabled(c, s, Poll(w))
    ensures DataInv(c, Next(c, s, Poll(w)))
  {
    hide BlocksOk, BufsOk, RecordsOk, FlowOk, CountsOk, JobsOk, ResultsOk, ThreadOk, RequestsOk, CopyingOk, PendingOk,
         StagesOk, XfersOk, SourcesKept, CopiesLoaded, DeliveredOk, FlagsOk, BlockLoaded, WrsOk, WrOk, Still, NextPoll;
    var s' := NextPoll(c, s, w);
    PollWr(c, s, w);
    PollQuiet(c, s, w, s');
    PostedLoadedSame(c, s.base, s.mem, s.stage, w.id, Done);
    QuietData(c, s, s');
  }

  /* ---------- a user's steps ---------- */

  // A user who keeps to the rules writes no byte of a running transfer's chunks.
  lemma UserWriteData(c: Config, s: State, at: Loc, value: Byte)
    requires ConfigOk(c) && Sized(c, s) && DataInv(c, s)
    requires Enabled(c, s, UserWrite(at, value)) && Careful(c, s, UserWrite(at, value))
    ensures DataInv(c, Next(c, s, UserWrite(at, value)))
  {
    hide DataInv;
    forall id: Cid | ValidCid(c, id) && Live(s.xs, id.x)
      ensures !Src(c, id).Range(Len(c, id), at) && !Dst(c, id).Range(Len(c, id), at)
    {
      if Dst(c, id).Range(Len(c, id), at) {
        ChunkRangeInDst(c.reqs[id.x], id.i, at);
      }
      if Src(c, id).Range(Len(c, id), at) {
        ChunkRangeInSrc(c.reqs[id.x], id.i, at);
      }
    }
    WriteData(c, s, at, value);
  }

  lemma ChunkRangeInSrc(req: Request, i: nat, l: Loc)
    requires WellFormed(req) && NoWrap(req) && i < Total(req)
    requires ChunkSrc(req, i).Range(ChunkAt(req, i).len, l)
    ensures InSrc(req, l)
  {
    var k := l.addr - ChunkSrc(req, i).addr;
    ChunkByte(req, i, k);
    assert l == ChunkSrc(req, i).Plus(k);
  }

  // Chunks of transfers that are apart are apart.
  lemma ApartChunks(c: Config, id: Cid, other: Cid)
    requires ConfigOk(c) && ValidCid(c, id) && ValidCid(c, other)
    requires if id.x == other.x then DisjointDst(c.reqs[id.x]) else TransfersApart(c.reqs[id.x], c.reqs[other.x])
    ensures CidsApart(c, id, other)
  {
    hide ConfigOk, DisjointDst, TransfersApart, ChunkAt;
    forall o: nat | o < Len(c, other)
      ensures id != other ==> !Dst(c, id).Range(Len(c, id), Dst(c, other).Plus(o))
      ensures !Dst(c, id).Range(Len(c, id), Src(c, other).Plus(o))
    {
      ChunkRangeApart(c, id, other, o);
    }
  }

  lemma BeginData(c: Config, s: State, x: nat)
    requires Inv(c, s) && ConfigOk(c) && Sized(c, s) && DataInv(c, s) && Enabled(c, s, Begin(x))
      && Careful(c, s, Begin(x))
    ensures DataInv(c, Next(c, s, Begin(x)))
  {
    hide Core, Books, WrsOk, LiveApart, SourcesKept, CopiesLoaded, PostedLoaded, DeliveredOk, Careful, ConfigOk;
    var s' := Next(c, s, Begin(x));
    WrsOf(c, s);
    NothingStaged(c, s, x);
    StartSources(c, s.base, s.mem, s.xs, s'.xs, x);
    StartCopies(c, s.base, s.mem, s.stage, s.copies, s.jobs, x);
    StartDelivered(c, s.base, s.mem, s.xs, s'.xs, s.stage, s.executed, x);
    BeginApart(c, s, x);
  }

  lemma WrsOf(c: Config, s: State)
    requires Core(c, s)
    ensures WrsOk(s.posted, Back(s), s.stage)
  {
    hide WrsOk;
  }

  lemma NothingStaged(c: Config, s: State, x: nat)
    requires Inv(c, s) && Enabled(c, s, Begin(x))
    ensures NoStage(s.stage, x)
  {
    hide BlocksOk, BufsOk, RecordsOk, FlowOk, CountsOk, WrsOk, JobsOk, FlagsOk, ResultsOk, ThreadOk, RequestsOk,
         CopyingOk, PendingOk, StagesOk;
    assert XferOk(c, s.xs[x], x, s.stage);
  }

  lemma BeginApart(c: Config, s: State, x: nat)
    requires ConfigOk(c) && Sized(c, s) && LiveApart(c, s.xs, s.posted)
    requires Enabled(c, s, Begin(x)) && Careful(c, s, Begin(x)) && NoStage(s.stage, x)
      && WrsOk(s.posted, Back(s), s.stage)
    ensures LiveApart(c, Next(c, s, Begin(x)).xs, s.posted)
  {
    hide ConfigOk, CidsApart, TransfersApart, DisjointDst;
    var xs' := Next(c, s, Begin(x)).xs;
    forall id: Cid, other: Cid | ValidCid(c, id) && ValidCid(c, other) && Busy(xs', s.posted, id.x)
      && Live(xs', other.x)
      ensures CidsApart(c, id, other)
    {
      if id.x == x || other.x == x {
        if id.x != other.x {
          ApartBothWays(c, id.x, other.x);
        }
        ApartChunks(c, id, other);
      }
    }
  }

  lemma ApartBothWays(c: Config, x: nat, y: nat)
    requires x < |c.reqs| && y < |c.reqs| && WellFormed(c.reqs[x]) && WellFormed(c.reqs[y])
    ensures TransfersApart(c.reqs[x], c.reqs[y]) <==> TransfersApart(c.reqs[y], c.reqs[x])
  {
  }

  lemma IdleStepData(c: Config, s: State, step: Step)
    requires ConfigOk(c) && Sized(c, s) && DataInv(c, s) && Enabled(c, s, step)
    requires step.Activate? || step.SubmitFull? || step.Recycle? || step.Drain?
      || step.Cleanup? || step.Finish? || step.Reset? || step.PostFails? || step.PostProxyFails?
    ensures DataInv(c, Next(c, s, step))
  {
    hide DataInv, ConfigOk, ProxyRoom, TryAlloc, ChunkAt, NextPostDirect, NextAssignProxy, NextSubmit, NextLaunch,
         NextDispatch, NextPostProxy, NextPoll, NextFail;
    IdleData(c, s, Next(c, s, step));
  }

  lemma PollFailsData(c: Config, s: State, w: Wr)
    requires DataInv(c, s) && ConfigOk(c) && Sized(c, s) && Enabled(c, s, PollFails(w))
    ensures DataInv(c, Next(c, s, PollFails(w)))
  {
    hide ConfigOk, BlockLoaded, Carries, ValidCid, SourcesKept, CopiesLoaded, PostedLoaded, DeliveredOk, LiveApart,
         Complete, NextPostDirect, NextAssignProxy, NextSubmit, NextSubmitFull, NextLaunch, NextDispatch, NextDrain,
         NextPostProxy, NextPoll, NextFail;
    QuietData(c, s, Next(c, s, PollFails(w)));
  }

  // Letting go of a transfer moves no data, and what is left of it can do no more than before.
  lemma FailData(c: Config, s: State, x: nat)
    requires Inv(c, s) && DataInv(c, s) && Enabled(c, s, Fail(x)) && CalledBack(c, s, x)
    ensures DataInv(c, Next(c, s, Fail(x)))
  {
    hide Books, XfersOk, FlowOk, LostOk, RefusedOk, WrsOk, JobsOk, FlagsOk, RequestsOk, CopyingOk, PendingOk,
         StagesOk, ThreadOk, ResultsOk, BlockLoaded, Carries, ValidCid, SourcesKept, CopiesLoaded, DeliveredOk,
         LiveApart, Abandon, NextPostDirect, NextAssignProxy, NextSubmit, NextSubmitFull, NextLaunch, NextDispatch,
         NextDrain, NextPostProxy, NextPoll, CalledBack, Still;
    var s' := NextFail(c, s, x);
    FailStill(c, s, x, s');
    QuietData(c, s, s');
  }

  lemma FailStill(c: Config, s: State, x: nat, s': State)
    requires ConfigOk(c) && Sized(c, s) && Running(s, x) && s' == NextFail(c, s, x) && StagesOk(c, s.stage)
    requires CopyingOk(c, s.pipes, s.stage, s.copies, s.nextId) && CalledBack(c, s, x)
    ensures Still(s, s')
  {
    hide ConfigOk, Abandon, GivenUpTo, CopyingOk, StagesOk, CalledBack, Sized;
    AbandonCopies(c, s, x, |c.pipes|);
    LeftCopies(c, s, x);
  }

  // Every step of a careful run keeps what is known of memory.
  lemma StepData(c: Config, s: State, step: Step)
    requires ConfigOk(c) && Sized(c, s) && Inv(c, s) && DataInv(c, s) && Enabled(c, s, step) && Careful(c, s, step)
    requires step.Fail? ==> CalledBack(c, s, step.x)
    ensures DataInv(c, Next(c, s, step))
  {
    hide Inv, DataInv, Enabled, Next, Careful, CalledBack;
    match step
    case Begin(x) => BeginData(c, s, x);
    case UserWrite(at, value) => UserWriteData(c, s, at, value);
    case PostDirect(x, n, q) => PostDirectData(c, s, x, n, q);
    case AssignProxy(k) => AssignData(c, s, k);
    case Submit(k) => SubmitData(c, s, k);
    case PopRequest => QueueData(c, s, step);
    case Launch(f) => LaunchData(c, s, f);
    case Land(id) => LandData(c, s, id);
    case Callback(id) => CallbackData(c, s, id);
    case PushResult => QueueData(c, s, step);
    case CopyFails => QueueData(c, s, step);
    case Dispatch(k, j) => DispatchData(c, s, k, j);
    case DropResult => DropResultData(c, s);
    case PollFails(w) => PollFailsData(c, s, w);
    case Fail(x) => FailData(c, s, x);
    case PostProxy(k, q) => PostProxyData(c, s, k, q);
    case Execute(w) => ExecuteData(c, s, w);
    case Poll(w) => PollData(c, s, w);
    case _ => IdleStepData(c, s, step);
  }

  /* ---------- runs ---------- */

  lemma InitData(c: Config, m0: Memory)
    requires ConfigOk(c)
    ensures DataInv(c, Init(c, m0))
  {
  }

  lemma {:induction false} RunData(c: Config, s: State, steps: seq<Step>)
    requires Inv(c, s) && DataInv(c, s) && IsRun(c, s, steps) && AllInOrder(c, s, steps) && AllCareful(c, s, steps)
    ensures Inv(c, After(c, s, steps)) && DataInv(c, After(c, s, steps))
    decreases |steps|
  {
    hide Inv, DataInv, Enabled, Next, Careful, InOrder, CalledBack, Sized, ConfigOk;
    if steps != [] {
      InvSized(c, s);
      FailsCalledBack(c, s, steps[0]);
      StepInv(c, s, steps[0]);
      StepData(c, s, steps[0]);
      RunData(c, Next(c, s, steps[0]), steps[1..]);
    }
  }

  lemma FailsCalledBack(c: Config, s: State, step: Step)
    requires InOrder(c, s, step)
    ensures step.Fail? ==> CalledBack(c, s, step.x)
  {
    hide CalledBack;
  }

  lemma InvSized(c: Config, s: State)
    requires Inv(c, s)
    ensures ConfigOk(c) && Sized(c, s)
  {
    hide Core, Books;
    CoreSized(c, s);
  }

  lemma ChunkRangeApart(c: Config, id: Cid, other: Cid, o: nat)
    requires ConfigOk(c) && ValidCid(c, id) && ValidCid(c, other) && o < Len(c, other)
    requires if id.x == other.x then DisjointDst(c.reqs[id.x]) else TransfersApart(c.reqs[id.x], c.reqs[other.x])
    ensures id != other ==> !Dst(c, id).Range(Len(c, id), Dst(c, other).Plus(o))
    ensures !Dst(c, id).Range(Len(c, id), Src(c, other).Plus(o))
  {
    hide DisjointDst, ChunkAt;
    var req := c.reqs[other.x];
    ChunkByte(req, other.i, o);
    var t := ChunkAt(req, other.i);
    var at := t.remoteAddr - req.remoteAddrs[t.host] + o;
    SourceNotDst(req, t.host, at);
    assert InSrc(req, SliceSrc(req, t.host, at));
    if Dst(c, id).Range(Len(c, id), Src(c, other).Plus(o)) {
      ChunkRangeInDst(c.reqs[id.x], id.i, Src(c, other).Plus(o));
    }
    if id != other && Dst(c, id).Range(Len(c, id), Dst(c, other).Plus(o)) {
      var l := Dst(c, other).Plus(o);
      ChunkRangeInDst(c.reqs[id.x], id.i, l);
      assert InDst(req, l);
      if id.x == other.x {
        SameTransferApart(req, id.i, other.i, l);
      }
    }
  }

  // Two chunks of one transfer share no destination byte.
  lemma SameTransferApart(req: Request, i: nat, j: nat, l: Loc)
    requires WellFormed(req) && NoWrap(req) && DisjointDst(req) && i < Total(req) && j < Total(req)
    requires ChunkDst(req, i).Range(ChunkAt(req, i).len, l) && ChunkDst(req, j).Range(ChunkAt(req, j).len, l)
    ensures i == j
  {
    var p, q := l.addr - ChunkDst(req, i).addr, l.addr - ChunkDst(req, j).addr;
    ChunkByte(req, i, p);
    ChunkByte(req, j, q);
    var t, u := ChunkAt(req, i), ChunkAt(req, j);
    var o := t.remoteAddr - req.remoteAddrs[t.host] + p;
    assert l == ChunkDst(req, i).Plus(p) && l == ChunkDst(req, j).Plus(q);
    RemoteTiling(req, t.host, o);
    assert Covers(req, i, t.host, o) && Covers(req, j, t.host, o);
  }

  // A transfer that the worker is about to finish has executed every chunk.
  lemma AboutToFinish(c: Config, s: State, x: nat)
    requires x < |c.reqs| && WellFormed(c.reqs[x]) && NoWrap(c.reqs[x]) && Live(s.xs, x)
    requires XfersOk(c, s.xs, s.stage) && DeliveredOk(c, s.base, s.mem, s.xs, s.stage, s.executed)
    requires s.xs[x].completed >= Total(c.reqs[x])
    ensures Delivered(c.reqs[x], BaseOf(s.base, x), s.mem)
  {
    hide DeliveredOk;
    var req := c.reqs[x];
    CompletedIffAllDone(c, s.xs, s.stage, x);
    forall h: nat, o: nat | h < |req.lengths| && o < req.lengths[h]
      ensures s.mem(SliceDst(req, h, o)) == BaseOf(s.base, x)(SliceSrc(req, h, o))
    {
      DeliveredByte(c, s, x, h, o);
    }
  }

  lemma FinishDelivers(c: Config, s: State, x: nat)
    requires ConfigOk(c) && Sized(c, s) && Enabled(c, s, Finish(x)) && Inv(c, s) && DataInv(c, s)
    ensures x < |c.reqs| && WellFormed(c.reqs[x]) && Delivered(c.reqs[x], BaseOf(s.base, x), s.mem)
    ensures Next(c, s, Finish(x)).mem == s.mem
  {
    hide BlocksOk, BufsOk, RecordsOk, FlowOk, CountsOk, WrsOk, JobsOk, ResultsOk, ThreadOk, RequestsOk, CopyingOk,
         PendingOk, StagesOk, FlagsOk, SourcesKept, CopiesLoaded, PostedLoaded, LiveApart, XfersOk, DeliveredOk,
         Delivered;
    AboutToFinish(c, s, x);
  }

  lemma DeliveredByte(c: Config, s: State, x: nat, h: nat, o: nat)
    requires x < |c.reqs| && WellFormed(c.reqs[x]) && NoWrap(c.reqs[x]) && Live(s.xs, x)
    requires h < |c.reqs[x].lengths| && o < c.reqs[x].lengths[h]
    requires DeliveredOk(c, s.base, s.mem, s.xs, s.stage, s.executed)
    requires forall i: nat :: i < Total(c.reqs[x]) ==> Cid(x, i) in s.stage && s.stage[Cid(x, i)].Done?
    ensures s.mem(SliceDst(c.reqs[x], h, o)) == BaseOf(s.base, x)(SliceSrc(c.reqs[x], h, o))
  {
    var req := c.reqs[x];
    RemoteTiling(req, h, o);
    var i := ChunkCovering(req, h, o);
    var id := Cid(x, i);
    assert Arrived(s.stage, s.executed, id);
    var t := ChunkAt(req, i);
    assert Covers(req, i, h, o);
    var k := req.remoteAddrs[h] + o - t.remoteAddr;
    ChunkByte(req, i, k);
    assert s.mem(Dst(c, id).Plus(k)) == BaseOf(s.base, x)(Src(c, id).Plus(k));
  }

  /* ---------- what a transfer is compared with ---------- */

  // A transfer's record is made when it is started and never again.
  lemma StepBase(c: Config, s: State, step: Step, x: nat)
    requires ConfigOk(c) && Sized(c, s) && Enabled(c, s, step)
    requires x < |s.xs| && s.xs[x].status != Waiting
    ensures var s' := Next(c, s, step);
      x < |s'.xs| && s'.xs[x].status != Waiting && BaseOf(s'.base, x) == BaseOf(s.base, x)
  {
    hide ConfigOk, ProxyRoom, NicRoom, TryAlloc, ChunkAt, NextPoll, Post, Awaits, Shape;
    if step.Poll? {
      PollBase(c, s, step.wr, x);
    }
  }

  lemma PollBase(c: Config, s: State, w: Wr, x: nat)
    requires ConfigOk(c) && Sized(c, s) && Enabled(c, s, Poll(w)) && x < |s.xs|
    ensures var s' := Next(c, s, Poll(w));
      x < |s'.xs| && s'.xs[x].status == s.xs[x].status && s'.base == s.base
  {
    hide ConfigOk, Sized, CreditPipe, Complete, NextPostDirect, NextAssignProxy, NextSubmit, NextSubmitFull,
         NextLaunch, NextDispatch, NextDrain, NextPostProxy;
  }

  lemma {:induction false} RunBase(c: Config, s: State, steps: seq<Step>, x: nat)
    requires ConfigOk(c) && IsRun(c, s, steps) && x < |s.xs| && s.xs[x].status != Waiting
    ensures BaseOf(After(c, s, steps).base, x) == BaseOf(s.base, x)
    decreases |steps|
  {
    hide ConfigOk, Enabled, Next, BaseOf, Sized;
    if steps != [] {
      StepBase(c, s, steps[0], x);
      RunBase(c, Next(c, s, steps[0]), steps[1..], x);
    }
  }

  // End to end: take any run, any moment of it at which a transfer is started and any later
  // moment at which the worker finishes it. However worker, copy thread, GPU, NICs and users
  // interleave and whatever way each chunk takes, each host's range then holds exactly its
  // slice of what the source held at the start. Sources may be filled and ranges reused
  // between transfers; only while one runs are they to be left alone.
  lemma EndToEnd(c: Config, m0: Memory, before: seq<Step>, x: nat, during: seq<Step>)
    requires ConfigOk(c) && IsRun(c, Init(c, m0), before + [Begin(x)] + during)
    requires AllInOrder(c, Init(c, m0), before + [Begin(x)] + during)
    requires AllCareful(c, Init(c, m0), before + [Begin(x)] + during)
    requires var s' := After(c, Init(c, m0), before + [Begin(x)] + during);
      Sized(c, s') && Enabled(c, s', Finish(x))
    ensures IsRun(c, Init(c, m0), before)
    ensures var s' := After(c, Init(c, m0), before + [Begin(x)] + during);
      && Delivered(c.reqs[x], After(c, Init(c, m0), before).mem, s'.mem)
      && Next(c, s', Finish(x)).mem == s'.mem
  {
    hide DataInv, Inv, Next, Enabled, ConfigOk, Sized, BaseOf, Delivered;
    var s0 := Init(c, m0);
    InitInv(c, m0);
    InitData(c, m0);
    RunData(c, s0, before + [Begin(x)] + during);
    RunSplit(c, s0, before + [Begin(x)], during);
    RunSplit(c, s0, before, [Begin(x)]);
    var s := After(c, s0, before);
    StartRecords(c, s, x);
    RunBase(c, Next(c, s, Begin(x)), during, x);
    FinishDelivers(c, After(c, s0, before + [Begin(x)] + during), x);
  }

  lemma StartRecords(c: Config, s: State, x: nat)
    requires ConfigOk(c) && Sized(c, s) && Enabled(c, s, Begin(x))
    ensures var s' := Next(c, s, Begin(x));
      x < |s'.xs| && s'.xs[x].status != Waiting && BaseOf(s'.base, x) == s.mem
  {
  }
}

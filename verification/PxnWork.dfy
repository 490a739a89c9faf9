/** How much work is left: a rank for the stage of each chunk, added up over all chunks of
    all transfers, and the records still to be given back. No step makes it grow, and every
    step that moves a chunk, a record or a transfer on makes it smaller. */
module PxnWork {
  import opened Chunks
  import opened Layout
  import opened ProxyBuffer
  import opened FlowControl
  import opened PxnModel
  import opened PxnRuns
  import opened PxnInvariant
  import opened PxnQueues
  import opened PxnSteps
  import opened PxnFailure
  import opened PxnBooks
  import opened PxnDelivery
  import opened PxnAccounting

  /* ---------- the rank of a chunk ---------- */

  ghost function JobRank(jobs: map<nat, Job>, r: nat): nat {
    if r !in jobs then 0 else if jobs[r].landed then 1 else 2
  }

  ghost function CopyRank(copies: map<nat, Copy>, jobs: map<nat, Job>, r: nat): nat {
    if r !in copies then 0
    else match copies[r].at
      case InRequests => 13
      case WithThread => 12
      case WithResult => 7 + JobRank(jobs, r)
      case InResults => 6 + JobRank(jobs, r)
      case Received => 5 + JobRank(jobs, r)
  }

  ghost function Rank(s: State, id: Cid): nat {
    if id !in s.stage then 15
    else match s.stage[id]
      case Pending(_) => 14
      case Copying(_, r, _) => CopyRank(s.copies, s.jobs, r)
      case Posted(w, _) => if w in s.posted then 3 else if w in s.executed then 2 else 1
      case _ => 0
  }

  ghost function Ranks(s: State, x: nat, n: nat): nat {
    if n == 0 then 0 else Ranks(s, x, n - 1) + Rank(s, Cid(x, n - 1))
  }

  ghost function AllRanks(c: Config, s: State, n: nat): nat
    requires ConfigOk(c) && n <= |c.reqs|
  {
    if n == 0 then 0 else AllRanks(c, s, n - 1) + Ranks(s, n - 1, Total(c.reqs[n - 1]))
  }

  ghost function ToCome(status: Status): nat {
    match status case Waiting => 3 case Queued => 2 case Active => 1 case _ => 0
  }

  ghost function Unended(xs: seq<Xfer>, n: nat): nat
    requires n <= |xs|
  {
    if n == 0 then 0 else Unended(xs, n - 1) + ToCome(xs[n - 1].status)
  }

  ghost function Records(pipes: seq<Pipe>, n: nat): nat
    requires n <= |pipes|
  {
    if n == 0 then 0 else Records(pipes, n - 1) + |pipes[n - 1].inflight|
  }

  // Results between copy thread and worker.
  ghost function Results(s: State): nat {
    (if s.ct.Pushing? then 2 else 0) + |s.resQ|
  }

  ghost function Work(c: Config, s: State): nat
    requires ConfigOk(c) && Sized(c, s)
  {
    AllRanks(c, s, |c.reqs|) + Unended(s.xs, |s.xs|) + Records(s.pipes, |s.pipes|) + Results(s)
  }

  /* ---------- sums ---------- */

  // Chunk id falls by d or more, and no other chunk rises.
  ghost predicate Falls(c: Config, s: State, s': State, id: Cid, d: nat) {
    && ValidCid(c, id) && Rank(s', id) + d <= Rank(s, id)
    && NoneRises(s, s')
  }

  ghost predicate NoneRises(s: State, s': State) {
    forall id :: Rank(s', id) <= Rank(s, id)
  }

  lemma {:induction false} RanksLe(s: State, s': State, x: nat, n: nat)
    requires NoneRises(s, s')
    ensures Ranks(s', x, n) <= Ranks(s, x, n)
  {
    if n > 0 {
      RanksLe(s, s', x, n - 1);
    }
  }

  lemma {:induction false} RanksFall(s: State, s': State, id: Cid, d: nat, n: nat)
    requires NoneRises(s, s') && Rank(s', id) + d <= Rank(s, id) && id.i < n
    ensures Ranks(s', id.x, n) + d <= Ranks(s, id.x, n)
  {
    hide Rank;
    if id.i == n - 1 {
      assert id == Cid(id.x, n - 1);
      RanksLe(s, s', id.x, n - 1);
    } else {
      RanksFall(s, s', id, d, n - 1);
      assert Rank(s', Cid(id.x, n - 1)) <= Rank(s, Cid(id.x, n - 1));
    }
  }

  lemma {:induction false} AllRanksLe(c: Config, s: State, s': State, n: nat)
    requires ConfigOk(c) && n <= |c.reqs| && NoneRises(s, s')
    ensures AllRanks(c, s', n) <= AllRanks(c, s, n)
  {
    hide Rank, NoneRises;
    if n > 0 {
      AllRanksLe(c, s, s', n - 1);
      RanksLe(s, s', n - 1, Total(c.reqs[n - 1]));
    }
  }

  lemma {:induction false} AllRanksFall(c: Config, s: State, s': State, id: Cid, d: nat, n: nat)
    requires ConfigOk(c) && id.x < n <= |c.reqs| && Falls(c, s, s', id, d)
    ensures AllRanks(c, s', n) + d <= AllRanks(c, s, n)
  {
    hide Rank, NoneRises;
    var m := Total(c.reqs[n - 1]);
    if id.x == n - 1 {
      RanksFall(s, s', id, d, m);
      AllRanksLe(c, s, s', n - 1);
    } else {
      AllRanksFall(c, s, s', id, d, n - 1);
      RanksLe(s, s', n - 1, m);
    }
  }

  lemma {:induction false} UnendedSame(xs: seq<Xfer>, xs': seq<Xfer>, n: nat)
    requires n <= |xs| == |xs'| && forall x :: 0 <= x < |xs| ==> xs'[x].status == xs[x].status
    ensures Unended(xs', n) == Unended(xs, n)
  {
    if n > 0 {
      UnendedSame(xs, xs', n - 1);
    }
  }

  lemma {:induction false} UnendedFalls(xs: seq<Xfer>, x: nat, t: Xfer, n: nat)
    requires x < n <= |xs| && ToCome(t.status) + 1 == ToCome(xs[x].status)
    ensures Unended(xs[x := t], n) + 1 == Unended(xs, n)
  {
    if x == n - 1 {
      assert xs[x := t][..n - 1] == xs[..n - 1];
      UnendedPrefix(xs, xs[x := t], n - 1);
    } else {
      UnendedFalls(xs, x, t, n - 1);
    }
  }

  lemma {:induction false} UnendedPrefix(xs: seq<Xfer>, ys: seq<Xfer>, n: nat)
    requires n <= |xs| == |ys| && xs[..n] == ys[..n]
    ensures Unended(xs, n) == Unended(ys, n)
  {
    if n > 0 {
      assert xs[..n - 1] == xs[..n][..n - 1] && ys[..n - 1] == ys[..n][..n - 1];
      assert xs[n - 1] == xs[..n][n - 1] && ys[n - 1] == ys[..n][n - 1];
      UnendedPrefix(xs, ys, n - 1);
    }
  }

  lemma {:induction false} RecordsAt(pipes: seq<Pipe>, k: nat, p': Pipe, n: nat)
    requires k < |pipes| && n <= |pipes|
    ensures Records(pipes[k := p'], n) == Records(pipes, n) + if k < n then |p'.inflight| - |pipes[k].inflight| else 0
  {
    if n > 0 {
      RecordsAt(pipes, k, p', n - 1);
    }
  }

  /* ---------- what each step does to the ranks ---------- */

  // Copies and jobs change at request r only, and the rank of its copy falls by d or more.
  lemma CopyFalls(c: Config, s: State, s': State, r: nat, d: nat)
    requires CopyingOk(c, s.pipes, s.stage, s.copies, s.nextId) && StagesOk(c, s.stage)
    requires r in s.copies && !Orphan(s.stage, s.copies, r)
    requires s'.stage == s.stage && s'.posted == s.posted && s'.executed == s.executed
    requires forall q :: q != r ==> CopyRank(s'.copies, s'.jobs, q) == CopyRank(s.copies, s.jobs, q)
    requires CopyRank(s'.copies, s'.jobs, r) + d <= CopyRank(s.copies, s.jobs, r)
    ensures Falls(c, s, s', s.copies[r].cid, d)
  {
    hide CopyRank, InCopying, Orphan;
    assert CopyOk(s.pipes, s.stage, s.copies, r);
    var cid := s.copies[r].cid;
    assert StageOk(c, cid, s.stage[cid]);
  }

  function Drop(step: Step): nat {
    if step.PostProxy? then 2 else if step.Launch? || step.CopyFails? then 3 else 1
  }

  // Some chunk is moved on by the step.
  ghost predicate RanksStep(c: Config, s: State, s': State, step: Step) {
    exists id: Cid :: Falls(c, s, s', id, Drop(step))
  }

  lemma ChunkFalls(c: Config, s: State, s': State, id: Cid, step: Step)
    requires Falls(c, s, s', id, Drop(step))
    ensures RanksStep(c, s, s', step)
  {
  }

  lemma PostDirectFalls(c: Config, s: State, x: nat, n: nat, q: nat)
    requires Listed(c, s) && Enabled(c, s, PostDirect(x, n, q))
    ensures RanksStep(c, s, Next(c, s, PostDirect(x, n, q)), PostDirect(x, n, q))
  {
    hide PendingOk, CopyingOk, NicRoom, ChunkAt, XferOk, CopyRank, Post, Shape;
    assert XferOk(c, s.xs[x], x, s.stage);
    assert Falls(c, s, Next(c, s, PostDirect(x, n, q)), Cid(x, s.xs[x].next), 1);
    ChunkFalls(c, s, Next(c, s, PostDirect(x, n, q)), Cid(x, s.xs[x].next), PostDirect(x, n, q));
  }

  lemma AssignFalls(c: Config, s: State, k: nat)
    requires Listed(c, s) && Enabled(c, s, AssignProxy(k))
    ensures RanksStep(c, s, Next(c, s, AssignProxy(k)), AssignProxy(k))
  {
    hide PendingOk, CopyingOk, ProxyRoom, ChunkAt, XferOk, CopyRank, Shape;
    var x := c.pipes[k].xfer;
    assert XferOk(c, s.xs[x], x, s.stage);
    assert Falls(c, s, Next(c, s, AssignProxy(k)), Cid(x, s.xs[x].next), 1);
    ChunkFalls(c, s, Next(c, s, AssignProxy(k)), Cid(x, s.xs[x].next), AssignProxy(k));
  }

  lemma SubmitFalls(c: Config, s: State, k: nat)
    requires Listed(c, s) && Enabled(c, s, Submit(k))
    ensures RanksStep(c, s, Next(c, s, Submit(k)), Submit(k))
  {
    hide ConfigOk, XfersOk, WrsOk, TryAlloc, ChunkAt, EntryOk, InCopying, Shape, Falls, StagesOk, StageOk, NextPoll,
         NextDrain, NextPostProxy, NextDispatch, NextSubmitFull, NextPostDirect, NextAssignProxy, NextLaunch;
    var id := Cid(c.pipes[k].xfer, s.pipes[k].pending[0]);
    PendingHead(c, s, k);
    CopyIdsOld(c, s);
    HeadFalls(c, s, Next(c, s, Submit(k)), id, s.nextId);
    ChunkFalls(c, s, Next(c, s, Submit(k)), id, Submit(k));
  }

  lemma PendingHead(c: Config, s: State, k: nat)
    requires StagesOk(c, s.stage) && PendingOk(c, s.pipes, s.stage)
    requires k < |s.pipes| && k < |c.pipes| && s.pipes[k].pending != []
    ensures var id := Cid(c.pipes[k].xfer, s.pipes[k].pending[0]);
      ValidCid(c, id) && id in s.stage && s.stage[id] == Pending(k)
  {
    var id := Cid(c.pipes[k].xfer, s.pipes[k].pending[0]);
    assert IsPending(s.stage, id, k);
    assert StageOk(c, id, s.stage[id]);
  }

  // Request ids in use are older than the next one.
  lemma CopyIdsOld(c: Config, s: State)
    requires CopyingOk(c, s.pipes, s.stage, s.copies, s.nextId)
    ensures forall id :: id in s.stage && s.stage[id].Copying? ==> s.stage[id].id < s.nextId
  {
  }

  // A pending chunk whose copy is requested falls by one.
  lemma HeadFalls(c: Config, s: State, s': State, id: Cid, r: nat)
    requires ValidCid(c, id) && id in s.stage && s.stage[id].Pending?
    requires id in s'.stage && s'.stage == s.stage[id := s'.stage[id]] && s'.stage[id].Copying? && s'.stage[id].id == r
    requires s'.copies == s.copies[r := Copy(id, InRequests, None)] && s'.jobs == s.jobs
    requires s'.posted == s.posted && s'.executed == s.executed
    requires forall o :: o in s.stage && s.stage[o].Copying? ==> s.stage[o].id < r
    ensures Falls(c, s, s', id, 1)
  {
  }

  lemma PopFalls(c: Config, s: State)
    requires Listed(c, s) && Enabled(c, s, PopRequest) && RequestsOk(c, s.reqQ, s.stage, s.copies)
    ensures RanksStep(c, s, Next(c, s, PopRequest), PopRequest)
  {
    hide ConfigOk, XfersOk, WrsOk, PendingOk, CopyingOk, StagesOk, Falls, NextPostDirect, NextAssignProxy, NextSubmit,
         NextSubmitFull, NextLaunch, NextDispatch, NextDrain, NextPostProxy, NextPoll, NextFail;
    assert RequestOk(c, s.reqQ[0], InRequests, s.stage, s.copies);
    CopyFalls(c, s, Next(c, s, PopRequest), s.reqQ[0].id, 1);
    ChunkFalls(c, s, Next(c, s, PopRequest), s.copies[s.reqQ[0].id].cid, PopRequest);
  }

  lemma LaunchFalls(c: Config, s: State, step: Step)
    requires Listed(c, s) && Enabled(c, s, step) && ThreadOk(c, s.ct, s.stage, s.copies)
    requires step.Launch? || step.CopyFails?
    ensures RanksStep(c, s, Next(c, s, step), step)
  {
    hide ConfigOk, XfersOk, WrsOk, PendingOk, CopyingOk, StagesOk, Falls, NextPostDirect, NextAssignProxy, NextSubmit,
         NextSubmitFull, NextDispatch, NextDrain, NextPostProxy, NextPoll, NextFail;
    if step.CopyFails? {
      HeldNoJob(c, s);
    }
    CopyFalls(c, s, Next(c, s, step), s.ct.req.id, 3);
    ChunkFalls(c, s, Next(c, s, step), s.copies[s.ct.req.id].cid, step);
  }

  // Whatever its job, a copy not launched ranks above one that is.
  lemma HeldNoJob(c: Config, s: State)
    requires ThreadOk(c, s.ct, s.stage, s.copies) && s.ct.Popped?
    ensures CopyRank(Move(s.copies, s.ct.req.id, WithResult), s.jobs, s.ct.req.id) + 3
      <= CopyRank(s.copies, s.jobs, s.ct.req.id)
  {
  }

  lemma JobFalls(c: Config, s: State, step: Step)
    requires Listed(c, s) && Enabled(c, s, step) && (step.Land? || step.Callback?)
    requires JobsOk(c, s.jobs, s.stage, s.copies) && UsedFlagsOk(s.copies, s.jobs, s.flags, s.pool, s.recycleQ)
    ensures RanksStep(c, s, Next(c, s, step), step)
  {
    hide ConfigOk, XfersOk, WrsOk, PendingOk, CopyingOk, StagesOk, JobsOk, RequestFields, Falls, NextPostDirect,
         NextAssignProxy, NextSubmit, NextSubmitFull, NextLaunch, NextDispatch, NextDrain, NextPostProxy, NextPoll,
         NextFail;
    JobListed(c, s, step.id);
    assert InUse(s.copies, step.id);
    CopyFalls(c, s, Next(c, s, step), step.id, 1);
    ChunkFalls(c, s, Next(c, s, step), s.copies[step.id].cid, step);
  }

  // Posting a staged chunk leaves a record behind, and the chunk falls by two.
  lemma FrontFalls(c: Config, s: State, s': State, id: Cid, w: Wr, held: Option<Blk>, r: nat)
    requires s'.stage == s.stage[id := Posted(w, held)] && s'.copies == s.copies - {r} && s'.jobs == s.jobs
    requires s'.posted == s.posted + {w} && s'.executed == s.executed && w.id == id && ValidCid(c, id)
    requires id in s.stage && s.stage[id].Copying? && s.stage[id].id == r && r in s.copies && s.copies[r].at == Received
    requires forall o :: o in s.stage && s.stage[o].Copying? && o != id ==> s.stage[o].id != r
    requires forall o :: o in s.stage && s.stage[o].Posted? ==> s.stage[o].wr.id == o
    ensures Falls(c, s, s', id, 2)
  {
  }

  lemma PostProxyFalls(c: Config, s: State, k: nat, q: nat)
    requires Listed(c, s) && Enabled(c, s, PostProxy(k, q)) && FlagsOk(s.copies, s.jobs, s.flags, s.pool, s.recycleQ)
    ensures RanksStep(c, s, Next(c, s, PostProxy(k, q)), PostProxy(k, q))
  {
    hide PendingOk, XfersOk, StagesOk, FlagsOk, ChunkAt, Falls, Post, ProxyWr, EntryOk, StageOk, NextPostProxy, WrsOk;
    var s' := Next(c, s, PostProxy(k, q));
    PostedFrontIs(c, s, k, q, s');
    FrontFacts(c, s, k, q);
    OthersApart(c, s, FrontCid(c, s, k));
    WrsNamed(s.posted, Back(s), s.stage);
    PostProxyFresh(c, s, k, q, s');
    FrontFalls(c, s, s', FrontCid(c, s, k), ProxyWr(c, s, k, q), Some(FrontBlk(c, s, k)), s.pipes[k].copying[0].id);
    ChunkFalls(c, s, s', FrontCid(c, s, k), PostProxy(k, q));
  }

  lemma PostProxyFresh(c: Config, s: State, k: nat, q: nat, s': State)
    requires PostedFront(c, s, k, q, s')
    ensures s'.executed == s.executed && s'.posted == s.posted + {ProxyWr(c, s, k, q)}
  {
  }

  lemma OthersApart(c: Config, s: State, id: Cid)
    requires CopyingOk(c, s.pipes, s.stage, s.copies, s.nextId) && id in s.stage && s.stage[id].Copying?
    ensures forall o :: o in s.stage && s.stage[o].Copying? && o != id ==> s.stage[o].id != s.stage[id].id
  {
  }

  lemma WrsNamed(posted: set<Wr>, executed: set<Wr>, stage: map<Cid, Stage>)
    requires WrsOk(posted, executed, stage)
    ensures forall o :: o in stage && stage[o].Posted? ==> stage[o].wr.id == o
  {
  }

  lemma WrFalls(c: Config, s: State, step: Step)
    requires Listed(c, s) && Enabled(c, s, step) && (step.Execute? || step.Poll? || step.PollFails?)
    requires s.posted !! s.executed
    ensures RanksStep(c, s, Next(c, s, step), step)
  {
    hide ConfigOk, PendingOk, XfersOk, CopyingOk, ChunkAt, CreditPipe, CountDone, Complete, Shape, StagesOk, WrsOk,
         WrOk, NextPostDirect, NextAssignProxy, NextSubmit, NextSubmitFull, NextLaunch, NextDispatch, NextDrain,
         NextPostProxy, NextFail;
    var w := step.wr;
    OutstandingWr(c, s, w);
    assert Falls(c, s, Next(c, s, step), w.id, 1);
    ChunkFalls(c, s, Next(c, s, step), w.id, step);
  }

  /* ---------- the whole state ---------- */

  // The step moves something on: a chunk, a copy, a work request, a record or a transfer.
  // What remains are a user's own steps, refused posts, retries that find no room, flag
  // recycling, an idle allocator's reset, and passes over a pipeline that give nothing back.
  ghost predicate Moves(c: Config, s: State, step: Step)
    requires ConfigOk(c) && Sized(c, s) && Enabled(c, s, step)
  {
    match step
    case Begin(_) => false
    case UserWrite(_, _) => false
    case SubmitFull(_) => false
    case Recycle => false
    case Reset(_) => false
    case PostFails(_, _, _) => false
    case PostProxyFails(_, _) => false
    case Drain(k) => DrainCount(s.pipes[k]) > 0
    case Cleanup(k) => s.pipes[k].inflight != []
    case _ => true
  }

  // The step lets no rank rise. Where it is one that moves something, another part of the
  // work falls.
  predicate MovesNoCopy(step: Step) {
    || step.Begin? || step.UserWrite? || step.Activate? || step.Finish? || step.SubmitFull? || step.Recycle?
    || step.Drain? || step.Cleanup? || step.Reset? || step.PostFails? || step.PostProxyFails? || step.Fail?
    || step.PushResult? || step.Dispatch? || step.DropResult?
  }

  lemma SameRanks(c: Config, s: State, step: Step)
    requires ConfigOk(c) && Sized(c, s) && Enabled(c, s, step) && MovesNoCopy(step)
    requires ThreadOk(c, s.ct, s.stage, s.copies) && ResultsOk(s.resQ, s.copies)
    ensures NoneRises(s, Next(c, s, step))
  {
    hide ConfigOk, TryAlloc, ChunkAt, CopyRank, ThreadOk, ResultsOk, NextPostDirect, NextAssignProxy, NextSubmit,
         NextLaunch, NextPostProxy, NextPoll, NextFail, NextDispatch;
    var s' := Next(c, s, step);
    if step.Fail? {
      FailRanks(c, s, step.x);
    } else if step.PushResult? || step.Dispatch? || step.DropResult? {
      ResultRanks(c, s, step);
    } else {
      assert s'.stage == s.stage && s'.copies == s.copies && s'.jobs == s.jobs && s'.posted == s.posted;
    }
  }

  lemma ResultRanks(c: Config, s: State, step: Step)
    requires ConfigOk(c) && Sized(c, s) && Enabled(c, s, step)
    requires step.PushResult? || step.Dispatch? || step.DropResult?
    requires ThreadOk(c, s.ct, s.stage, s.copies) && ResultsOk(s.resQ, s.copies)
    ensures NoneRises(s, Next(c, s, step))
  {
    hide ConfigOk, ThreadOk, NextPostDirect, NextAssignProxy, NextSubmit, NextSubmitFull, NextLaunch, NextDrain,
         NextPostProxy, NextPoll, NextFail, NoneRises, CopyRank;
    var s' := Next(c, s, step);
    if step.PushResult? {
      PushThread(c, s);
    } else {
      assert ResultOk(s.resQ[0], InResults, s.copies);
    }
    var r := if step.PushResult? then s.ct.res.id else s.resQ[0].id;
    assert s'.copies == if step.DropResult? then s.copies - {r}
                        else Move(s.copies, r, if step.PushResult? then InResults else Received);
    OneCopyRank(s, s', r);
  }

  // One copy comes closer, or leaves.
  lemma OneCopyRank(s: State, s': State, r: nat)
    requires s'.stage == s.stage && s'.jobs == s.jobs && s'.posted == s.posted && s'.executed == s.executed
    requires r in s.copies
    requires || s'.copies == s.copies - {r}
             || (s.copies[r].at == WithResult && s'.copies == Move(s.copies, r, InResults))
             || (s.copies[r].at == InResults && s'.copies == Move(s.copies, r, Received))
    ensures NoneRises(s, s')
  {
  }

  lemma FailRanks(c: Config, s: State, x: nat)
    requires ConfigOk(c) && Sized(c, s) && Enabled(c, s, Fail(x))
    ensures NoneRises(s, NextFail(c, s, x))
  {
    hide ConfigOk, Abandon, GivenUpTo;
    AbandonCopies(c, s, x, |c.pipes|);
  }

  lemma StepRanks(c: Config, s: State, step: Step)
    requires Inv(c, s) && Enabled(c, s, step) && !MovesNoCopy(step)
    ensures RanksStep(c, s, Next(c, s, step), step)
  {
    hide Inv, Enabled, Next, Listed, ConfigOk, Sized, RanksStep, RequestsOk, ThreadOk, ResultsOk, FlagsOk,
         UsedFlagsOk, JobsOk;
    InvListed(c, s);
    InvSized(c, s);
    InvQueues(c, s);
    match step
    case PostDirect(x, n, q) => PostDirectFalls(c, s, x, n, q);
    case AssignProxy(k) => AssignFalls(c, s, k);
    case Submit(k) => SubmitFalls(c, s, k);
    case PopRequest => PopFalls(c, s);
    case Launch(_) => LaunchFalls(c, s, step);
    case CopyFails => LaunchFalls(c, s, step);
    case Land(_) => JobFalls(c, s, step);
    case Callback(_) => JobFalls(c, s, step);
    case PostProxy(k, q) => PostProxyFalls(c, s, k, q);
    case Execute(_) => WrFalls(c, s, step);
    case Poll(_) => WrFalls(c, s, step);
    case PollFails(_) => WrFalls(c, s, step);
  }

  lemma InvQueues(c: Config, s: State)
    requires Inv(c, s)
    ensures RequestsOk(c, s.reqQ, s.stage, s.copies) && ThreadOk(c, s.ct, s.stage, s.copies)
      && ResultsOk(s.resQ, s.copies)
    ensures FlagsOk(s.copies, s.jobs, s.flags, s.pool, s.recycleQ)
    ensures UsedFlagsOk(s.copies, s.jobs, s.flags, s.pool, s.recycleQ) && JobsOk(c, s.jobs, s.stage, s.copies)
    ensures s.posted !! s.executed
  {
    hide Books, XfersOk, StagesOk, PendingOk, CopyingOk, RequestsOk, ThreadOk, ResultsOk, UsedFlagsOk, JobsOk, LostOk,
         RefusedOk, FlowOk, ConfigOk, Sized;
  }

  lemma StepUnended(c: Config, s: State, step: Step)
    requires ConfigOk(c) && Sized(c, s) && Enabled(c, s, step)
    ensures |Next(c, s, step).xs| == |s.xs|
    ensures Unended(Next(c, s, step).xs, |s.xs|)
      == Unended(s.xs, |s.xs|) - if step.Begin? || step.Activate? || step.Finish? || step.Fail? then 1 else 0
  {
    hide ConfigOk, ProxyRoom, NicRoom, TryAlloc, ChunkAt, NextPostDirect, NextAssignProxy, NextSubmit, NextSubmitFull,
         NextLaunch, NextDispatch, NextDrain, NextPostProxy, NextPoll, Abandon, DropStages;
    StepStatus(c, s, step);
    var s' := Next(c, s, step);
    if step.Begin? || step.Activate? || step.Finish? || step.Fail? {
      UnendedFalls(s.xs, step.x, s'.xs[step.x], |s.xs|);
    } else {
      UnendedSame(s.xs, s'.xs, |s.xs|);
    }
  }

  // How many records the step adds.
  ghost function RecordsAdded(c: Config, s: State, step: Step): int
    requires ConfigOk(c) && Sized(c, s) && Enabled(c, s, step)
  {
    match step
    case PostProxy(_, _) => 1
    case Drain(k) => -(DrainCount(s.pipes[k]) as int)
    case Cleanup(k) => -(|s.pipes[k].inflight| as int)
    case _ => 0
  }

  // At most one pipeline changes, and its records by the given number.
  ghost predicate OnePipe(pipes: seq<Pipe>, pipes': seq<Pipe>, d: int) {
    || (pipes' == pipes && d == 0)
    || exists k: nat, p': Pipe :: k < |pipes| && pipes' == pipes[k := p'] && |p'.inflight| == |pipes[k].inflight| + d
  }

  lemma ListRecords(c: Config, s: State, step: Step)
    requires ConfigOk(c) && Sized(c, s) && Enabled(c, s, step)
    requires step.AssignProxy? || step.Submit? || step.Dispatch? || step.PostProxy?
    ensures OnePipe(s.pipes, Next(c, s, step).pipes, RecordsAdded(c, s, step))
  {
    hide ConfigOk, ProxyRoom, NicRoom, TryAlloc, ChunkAt, OnePipe, Awaits, Post;
    PipeChanged(s.pipes, step.k, Next(c, s, step).pipes[step.k], RecordsAdded(c, s, step));
  }

  lemma GivenBack(c: Config, s: State, step: Step)
    requires ConfigOk(c) && Sized(c, s) && Enabled(c, s, step) && (step.Drain? || step.Cleanup?)
    ensures OnePipe(s.pipes, Next(c, s, step).pipes, RecordsAdded(c, s, step))
  {
    hide ConfigOk, OnePipe;
    PipeChanged(s.pipes, step.k, Next(c, s, step).pipes[step.k], RecordsAdded(c, s, step));
  }

  lemma RecordsStep(c: Config, s: State, step: Step)
    requires ConfigOk(c) && Sized(c, s) && Enabled(c, s, step) && !step.Poll? && !step.Fail?
    ensures OnePipe(s.pipes, Next(c, s, step).pipes, RecordsAdded(c, s, step))
  {
    hide ConfigOk, ProxyRoom, NicRoom, TryAlloc, ChunkAt, OnePipe, NextPoll, NextDrain, NextPostProxy, NextSubmit,
         NextAssignProxy, NextDispatch, NextFail, Awaits, Post;
    if step.Drain? || step.Cleanup? {
      GivenBack(c, s, step);
    } else if step.AssignProxy? || step.Submit? || step.Dispatch? || step.PostProxy? {
      ListRecords(c, s, step);
    } else {
      SamePipes(s.pipes);
    }
  }

  lemma SamePipes(pipes: seq<Pipe>)
    ensures OnePipe(pipes, pipes, 0)
  {
  }

  lemma PipeChanged(pipes: seq<Pipe>, k: nat, p': Pipe, d: int)
    requires k < |pipes| && |p'.inflight| == |pipes[k].inflight| + d
    ensures OnePipe(pipes, pipes[k := p'], d)
  {
  }

  lemma PollRecords(c: Config, s: State, w: Wr)
    requires ConfigOk(c) && Sized(c, s) && Enabled(c, s, Poll(w))
    ensures OnePipe(s.pipes, Next(c, s, Poll(w)).pipes, 0)
  {
    hide ConfigOk, OnePipe, Complete, CountDone, Shape, NextPostDirect, NextAssignProxy, NextSubmit, NextSubmitFull,
         NextLaunch, NextDispatch, NextDrain, NextPostProxy;
    var k := PipeOn(c, w.id.x, w.nic, |c.pipes|);
    if k.Some? {
      PipeChanged(s.pipes, k.value, Next(c, s, Poll(w)).pipes[k.value], 0);
    } else {
      SamePipes(s.pipes);
    }
  }

  lemma RecordsChange(pipes: seq<Pipe>, pipes': seq<Pipe>, d: int)
    requires OnePipe(pipes, pipes', d)
    ensures |pipes'| == |pipes| && Records(pipes', |pipes'|) == Records(pipes, |pipes|) + d
  {
    if !(pipes' == pipes && d == 0) {
      var k: nat, p': Pipe :| k < |pipes| && pipes' == pipes[k := p'] && |p'.inflight| == |pipes[k].inflight| + d;
      RecordsAt(pipes, k, p', |pipes|);
    }
  }

  lemma StepRecords(c: Config, s: State, step: Step)
    requires ConfigOk(c) && Sized(c, s) && Enabled(c, s, step)
    ensures |Next(c, s, step).pipes| == |s.pipes|
    ensures Records(Next(c, s, step).pipes, |s.pipes|) <= Records(s.pipes, |s.pipes|) + RecordsAdded(c, s, step)
  {
    hide ConfigOk, Enabled, Next, OnePipe, Sized;
    if step.Fail? {
      FailRecords(c, s, step.x);
    } else {
      if step.Poll? {
        PollRecords(c, s, step.wr);
      } else {
        RecordsStep(c, s, step);
      }
      RecordsChange(s.pipes, Next(c, s, step).pipes, RecordsAdded(c, s, step));
    }
  }

  lemma FailRecords(c: Config, s: State, x: nat)
    requires ConfigOk(c) && Sized(c, s) && Enabled(c, s, Fail(x))
    ensures RecordsAdded(c, s, Fail(x)) == 0
    ensures var s' := Next(c, s, Fail(x));
      |s'.pipes| == |s.pipes| && Records(s'.pipes, |s.pipes|) <= Records(s.pipes, |s.pipes|)
  {
    hide ConfigOk, Abandon, DropStages, Records, NextPostDirect, NextAssignProxy, NextSubmit, NextSubmitFull,
         NextLaunch, NextDispatch, NextDrain, NextPostProxy, NextPoll;
    AbandonPipes(c, s, x, |c.pipes|);
    RecordsFewer(s.pipes, Next(c, s, Fail(x)).pipes, |s.pipes|);
  }

  lemma {:induction false} RecordsFewer(pipes: seq<Pipe>, pipes': seq<Pipe>, n: nat)
    requires n <= |pipes| == |pipes'|
    requires forall k :: 0 <= k < |pipes| ==> |pipes'[k].inflight| <= |pipes[k].inflight|
    ensures Records(pipes', n) <= Records(pipes, n)
  {
    if n > 0 {
      RecordsFewer(pipes, pipes', n - 1);
    }
  }

  /* ---------- results ---------- */

  function ResultsAdded(step: Step): int {
    if step.Launch? || step.CopyFails? then 2
    else if step.PushResult? || step.Dispatch? || step.DropResult? then -1 else 0
  }

  lemma StepResults(c: Config, s: State, step: Step)
    requires ConfigOk(c) && Sized(c, s) && Enabled(c, s, step)
    ensures Results(Next(c, s, step)) == Results(s) + ResultsAdded(step)
  {
    hide ConfigOk, Enabled, Next, Sized;
    if ByThread(step) {
      ThreadResults(c, s, step);
    } else if step.Poll? {
      PollResults(c, s, step.wr);
    } else if step.PostProxy? {
      PostResults(c, s, step.k, step.q);
    } else if ByWorker(step) {
      WorkerResults(c, s, step);
    } else {
      OtherResults(c, s, step);
    }
  }

  predicate ByThread(step: Step) {
    step.PopRequest? || step.Launch? || step.CopyFails? || step.PushResult? || step.Dispatch? || step.DropResult?
  }

  predicate ByWorker(step: Step) {
    step.PostDirect? || step.AssignProxy? || step.Submit? || step.SubmitFull? || step.Drain? || step.Cleanup?
  }

  lemma ThreadResults(c: Config, s: State, step: Step)
    requires ConfigOk(c) && Sized(c, s) && Enabled(c, s, step) && ByThread(step)
    ensures Results(Next(c, s, step)) == Results(s) + ResultsAdded(step)
  {
    hide ConfigOk, Awaits, NextPoll, NextPostProxy, NextPostDirect, NextAssignProxy, NextSubmit, NextSubmitFull,
         NextDrain, NextFail;
  }

  lemma WorkerResults(c: Config, s: State, step: Step)
    requires ConfigOk(c) && Sized(c, s) && Enabled(c, s, step) && ByWorker(step)
    ensures Next(c, s, step).ct == s.ct && Next(c, s, step).resQ == s.resQ
  {
    hide ConfigOk, ProxyRoom, NicRoom, TryAlloc, ChunkAt, Post, Complete, Awaits, Shape, NextPoll, NextPostProxy,
         NextDispatch, NextFail, NextLaunch;
  }

  lemma OtherResults(c: Config, s: State, step: Step)
    requires ConfigOk(c) && Sized(c, s) && Enabled(c, s, step)
    requires !ByThread(step) && !ByWorker(step) && !step.Poll? && !step.PostProxy?
    ensures Next(c, s, step).ct == s.ct && Next(c, s, step).resQ == s.resQ
  {
    hide ConfigOk, ProxyRoom, NicRoom, TryAlloc, ChunkAt, Post, Complete, Awaits, Shape, Abandon, DropStages,
         NextPoll, NextPostProxy, NextPostDirect, NextAssignProxy, NextSubmit, NextSubmitFull, NextDrain,
         NextDispatch, NextLaunch;
  }

  lemma PostResults(c: Config, s: State, k: nat, q: nat)
    requires ConfigOk(c) && Sized(c, s) && Enabled(c, s, PostProxy(k, q))
    ensures Next(c, s, PostProxy(k, q)).ct == s.ct && Next(c, s, PostProxy(k, q)).resQ == s.resQ
  {
    hide ConfigOk, Post, ProxyWr, ChunkAt, NicRoom;
  }

  lemma PollResults(c: Config, s: State, w: Wr)
    requires ConfigOk(c) && Sized(c, s) && Enabled(c, s, Poll(w))
    ensures Next(c, s, Poll(w)).ct == s.ct && Next(c, s, Poll(w)).resQ == s.resQ
  {
    hide ConfigOk, Complete, CreditPipe, CountDone;
  }

  lemma StepAllRanks(c: Config, s: State, step: Step)
    requires Inv(c, s) && ConfigOk(c) && Enabled(c, s, step)
    ensures AllRanks(c, Next(c, s, step), |c.reqs|)
      + (if MovesNoCopy(step) then 0 else Drop(step)) <= AllRanks(c, s, |c.reqs|)
  {
    hide Inv, Enabled, Next, ConfigOk, Sized, NoneRises, Falls;
    InvSized(c, s);
    var s' := Next(c, s, step);
    if MovesNoCopy(step) {
      InvQueues(c, s);
      SameRanks(c, s, step);
      AllRanksLe(c, s, s', |c.reqs|);
    } else {
      StepRanks(c, s, step);
      var id: Cid :| Falls(c, s, s', id, Drop(step));
      FallsInRange(c, s, s', id, Drop(step));
      AllRanksFall(c, s, s', id, Drop(step), |c.reqs|);
    }
  }

  lemma FallsInRange(c: Config, s: State, s': State, id: Cid, d: nat)
    requires Falls(c, s, s', id, d)
    ensures id.x < |c.reqs|
  {
  }

  // No step makes the work left grow, and a step that moves something makes it smaller.
  lemma StepWork(c: Config, s: State, step: Step)
    requires Inv(c, s) && ConfigOk(c) && Sized(c, s) && Enabled(c, s, step)
    ensures Sized(c, Next(c, s, step))
    ensures Work(c, Next(c, s, step)) <= Work(c, s)
    ensures Moves(c, s, step) ==> Work(c, Next(c, s, step)) < Work(c, s)
  {
    hide Inv, Next, ConfigOk, AllRanks, Unended, Records, Results, ProxyRoom, NicRoom, TryAlloc, ChunkAt;
    StepSized(c, s, step);
    StepAllRanks(c, s, step);
    StepUnended(c, s, step);
    StepRecords(c, s, step);
    StepResults(c, s, step);
    RecordsFallIff(c, s, step);
  }

  lemma RecordsFallIff(c: Config, s: State, step: Step)
    requires ConfigOk(c) && Sized(c, s) && Enabled(c, s, step)
    ensures step.PostProxy? ==> RecordsAdded(c, s, step) == 1
    ensures !step.PostProxy? ==> RecordsAdded(c, s, step) <= 0
    ensures (step.Drain? || step.Cleanup?) ==> (Moves(c, s, step) <==> RecordsAdded(c, s, step) < 0)
  {
    hide ConfigOk, ProxyRoom, NicRoom, TryAlloc, ChunkAt;
  }
}

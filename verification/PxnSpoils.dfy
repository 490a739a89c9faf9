/** A run in which one transfer fails and another one is then reported as done with bytes in
    place that its source never held. */
module PxnSpoils {
  import opened Chunks
  import opened Layout
  import opened ProxyBuffer
  import opened FlowControl
  import opened PxnModel
  import opened PxnInvariant
  import opened PxnFailure
  import opened PxnReset

  // The first transfer has two chunks and NIC 1 to itself; both transfers are staged for NIC 0
  // through the same buffer.
  ghost function TwoChunks(): Request {
    Request(Scatter, 0, ["a"], [0], [512], 256)
  }

  ghost function Spoiling(): Config {
    Config([TwoChunks(), Scatter256(4096, "b")], [true, true], [{1}, {}], [0.0, 0.0],
           [PipeConfig(0, 0, 0), PipeConfig(1, 0, 0)], [1024], 2, 1, 1)
  }

  lemma TheTwoChunks()
    ensures var r := TwoChunks();
      && WellFormed(r) && NoWrap(r) && Whole(r) && Total(r) == 2 && DisjointDst(r)
      && ChunkAt(r, 0) == ChunkTask(0, 0, 0, 256) && ChunkAt(r, 1) == ChunkTask(0, 256, 256, 256)
  {
    var r := TwoChunks();
    assert ChunkCount(512, 256) == 2;
    assert Start(r.lengths, 256, 0) == 0;
    assert Start(r.lengths, 256, 1) == 2;
    assert SumLengths(r.lengths, 0) == 0;
  }

  lemma ExampleOk()
    ensures ConfigOk(Spoiling())
  {
    hide Total, ChunkAt, DisjointDst, NoWrap, WellFormed, Whole;
    var c := Spoiling();
    TheTwoChunks();
    OneChunk(4096, "b");
    assert c.pipes[0].xfer == 0 && c.pipes[1].xfer == 1;
  }

  /* ---------- up to the failure ---------- */

  const WR0: Wr := Wr(1, 0, Cid(0, 0), None, Local(0), Remote("a", 0), 256)

  ghost function Posted0(mem: Memory): State {
    Init(Spoiling(), mem).(
    xs := [Xfer(Active, 1, 0, 256, false), Xfer(Waiting, 0, 0, 0, false)], base := [mem, mem],
    posted := {WR0}, flow := Post(Idle(2, 1), 1, 0),
    stage := map[Cid(0, 0) := Posted(WR0, None)])
  }

  ghost function Copying0(mem: Memory): State {
    Posted0(mem).(
    xs := [Xfer(Active, 2, 0, 256, false), Xfer(Waiting, 0, 0, 0, false)],
    pipes := [Pipe([], [CopyingChunk(1, 1, 0, 256, None, false)], [], 0, 1, 0, 0), Pipe([], [], [], 0, 0, 0, 0)],
    bufs := [Offsets(256, 0)], nextId := 2,
    reqQ := [CopyRequest(Local(256), Proxy(0, 0), 256, 1)],
    stage := map[Cid(0, 0) := Posted(WR0, None), Cid(0, 1) := Copying(0, 1, Blk(0, 0, 256))],
    copies := map[1 := Copy(Cid(0, 1), InRequests, None)])
  }

  ghost function Assigned0(mem: Memory): State {
    Posted0(mem).(
    xs := [Xfer(Active, 2, 0, 256, false), Xfer(Waiting, 0, 0, 0, false)],
    pipes := [Pipe([1], [], [], 0, 1, 0, 0), Pipe([], [], [], 0, 0, 0, 0)],
    stage := map[Cid(0, 0) := Posted(WR0, None), Cid(0, 1) := Pending(0)])
  }

  ghost function Launched0(mem: Memory): State {
    Copying0(mem).(
    reqQ := [], flags := map[0 := false], ct := Pushing(CopyResult(1, Some(0))),
    jobs := map[1 := Job(CopyRequest(Local(256), Proxy(0, 0), 256, 1), 0, false)],
    copies := map[1 := Copy(Cid(0, 1), WithResult, Some(0))])
  }

  // The copy of the second chunk is under way, with flag 0.
  ghost function Received0(mem: Memory): State {
    Copying0(mem).(
    pipes := [Pipe([], [CopyingChunk(1, 1, 0, 256, Some(0), true)], [], 0, 1, 0, 0), Pipe([], [], [], 0, 0, 0, 0)],
    reqQ := [], flags := map[0 := false],
    jobs := map[1 := Job(CopyRequest(Local(256), Proxy(0, 0), 256, 1), 0, false)],
    copies := map[1 := Copy(Cid(0, 1), Received, Some(0))])
  }

  ghost function Started1(mem: Memory): State {
    Received0(mem).(xs := [Xfer(Active, 2, 0, 256, false), Xfer(Active, 0, 0, 0, false)])
  }

  ghost function BothRun(mem: Memory): State {
    Received0(mem).(
    xs := [Xfer(Active, 2, 0, 256, false), Xfer(Active, 1, 0, 0, false)],
    pipes := [Pipe([], [CopyingChunk(1, 1, 0, 256, Some(0), true)], [], 0, 1, 0, 0), Pipe([0], [], [], 0, 1, 0, 0)],
    stage := map[Cid(0, 0) := Posted(WR0, None), Cid(0, 1) := Copying(0, 1, Blk(0, 0, 256)), Cid(1, 0) := Pending(1)])
  }

  // The work request of the first chunk comes back with an error.
  ghost function Error0(mem: Memory): State {
    BothRun(mem).(
    xs := [Xfer(Active, 2, 0, 256, true), Xfer(Active, 1, 0, 0, false)],
    posted := {}, lost := {WR0}, flow := Complete(Post(Idle(2, 1), 1, 0), 1, 0))
  }

  // The worker lets go of the first transfer.
  ghost function Failed0(mem: Memory): State {
    Error0(mem).(
    xs := [Xfer(Failed, 2, 0, 256, true), Xfer(Active, 1, 0, 0, false)],
    pipes := [Pipe([], [], [], 0, 0, 0, 0), Pipe([0], [], [], 0, 1, 0, 0)],
    bufs := [Offsets(256, 256)], recycleQ := [0], lost := {}, copies := map[],
    stage := map[Cid(0, 0) := Dropped(true), Cid(0, 1) := Dropped(false), Cid(1, 0) := Pending(1)])
  }

  /* ---------- after it ---------- */

  ghost function Submitted1(mem: Memory): State {
    Failed0(mem).(
    pool := [0], recycleQ := [], bufs := [Offsets(512, 256)], nextId := 3,
    pipes := [Pipe([], [], [], 0, 0, 0, 0), Pipe([], [CopyingChunk(0, 2, 256, 256, None, false)], [], 0, 1, 0, 0)],
    reqQ := [CopyRequest(Local(4096), Proxy(0, 256), 256, 2)],
    stage := map[Cid(0, 0) := Dropped(true), Cid(0, 1) := Dropped(false),
                 Cid(1, 0) := Copying(1, 2, Blk(0, 256, 256))],
    copies := map[2 := Copy(Cid(1, 0), InRequests, None)])
  }

  // The second transfer's copy is launched with the flag that the first one's copy still has.
  ghost function Launched1(mem: Memory): State {
    Submitted1(mem).(
    pool := [], reqQ := [], ct := Pushing(CopyResult(2, Some(0))),
    jobs := map[1 := Job(CopyRequest(Local(256), Proxy(0, 0), 256, 1), 0, false),
                2 := Job(CopyRequest(Local(4096), Proxy(0, 256), 256, 2), 0, false)],
    copies := map[2 := Copy(Cid(1, 0), WithResult, Some(0))])
  }

  ghost function Received1(mem: Memory): State {
    Launched1(mem).(
    ct := Looking,
    pipes := [Pipe([], [], [], 0, 0, 0, 0), Pipe([], [CopyingChunk(0, 2, 256, 256, Some(0), true)], [], 0, 1, 0, 0)],
    copies := map[2 := Copy(Cid(1, 0), Received, Some(0))])
  }

  ghost function Landed0(mem: Memory): Memory {
    Copied(mem, Local(256), Proxy(0, 0), 256)
  }

  // The first transfer's copy lands ...
  ghost function OldLanded(mem: Memory): State {
    Received1(mem).(
    mem := Landed0(mem),
    jobs := map[1 := Job(CopyRequest(Local(256), Proxy(0, 0), 256, 1), 0, true),
                2 := Job(CopyRequest(Local(4096), Proxy(0, 256), 256, 2), 0, false)])
  }

  // ... and its callback sets the flag.
  ghost function FlagSet(mem: Memory): State {
    Received1(mem).(
    mem := Landed0(mem), flags := map[0 := true],
    jobs := map[2 := Job(CopyRequest(Local(4096), Proxy(0, 256), 256, 2), 0, false)])
  }

  const WR1: Wr := Wr(0, 0, Cid(1, 0), Some(1), Proxy(0, 256), Remote("b", 0), 256)

  // The second transfer's chunk is posted from a block that its copy has not filled.
  ghost function Posted1(mem: Memory): State {
    FlagSet(mem).(
    xs := [Xfer(Failed, 2, 0, 256, true), Xfer(Active, 1, 0, 256, false)],
    pipes := [Pipe([], [], [], 0, 0, 0, 0), Pipe([], [], [256], 0, 1, 1, 0)],
    posted := {WR1}, flow := Post(Complete(Post(Idle(2, 1), 1, 0), 1, 0), 0, 0), recycleQ := [0],
    stage := map[Cid(0, 0) := Dropped(true), Cid(0, 1) := Dropped(false),
                 Cid(1, 0) := Posted(WR1, Some(Blk(0, 256, 256)))],
    copies := map[])
  }

  ghost function Sent1(mem: Memory): Memory {
    Copied(Landed0(mem), Proxy(0, 256), Remote("b", 0), 256)
  }

  ghost function Executed1(mem: Memory): State {
    Posted1(mem).(mem := Sent1(mem), posted := {}, executed := {WR1})
  }

  ghost function Polled1(mem: Memory): State {
    Posted1(mem).(
    xs := [Xfer(Failed, 2, 0, 256, true), Xfer(Active, 1, 1, 256, false)],
    pipes := [Pipe([], [], [], 0, 0, 0, 0), Pipe([], [], [256], 0, 0, 1, 1)],
    posted := {}, flow := Complete(Post(Complete(Post(Idle(2, 1), 1, 0), 1, 0), 0, 0), 0, 0), mem := Sent1(mem),
    stage := map[Cid(0, 0) := Dropped(true), Cid(0, 1) := Dropped(false), Cid(1, 0) := Done])
  }

  ghost function Drained1(mem: Memory): State {
    Polled1(mem).(
    pipes := [Pipe([], [], [], 0, 0, 0, 0), Pipe([], [], [], 1, 0, 1, 1)], bufs := [Offsets(512, 512)])
  }

  /* ---------- step by step ---------- */

  lemma FirstPosted(mem: Memory)
    requires ConfigOk(Spoiling())
    ensures Leads(Spoiling(), Init(Spoiling(), mem), [Begin(0)] + [Activate(0)] + [PostDirect(0, 1, 0)], Posted0(mem))
  {
    hide ConfigOk, DisjointDst, TransfersApart, ChunkAt, Total, Leads, NextAssignProxy, NextSubmit, NextSubmitFull,
         NextLaunch, NextDispatch, NextDrain, NextPostProxy, NextPoll, NextFail, ProxyRoom, TryAlloc;
    var c := Spoiling();
    TheTwoChunks();
    var s0, t := Init(c, mem), Posted0(mem);
    var s1 := Next(c, s0, Begin(0));
    LeadsOne(c, s0, Begin(0), s1);
    assert ActivePxn(c, s1.xs) == {};
    var s2 := Next(c, s1, Activate(0));
    LeadsOne(c, s1, Activate(0), s2);
    LeadsOn(c, s0, [Begin(0)], s1, [Activate(0)], s2);
    assert NicRoom(c, s2.flow, 1, 0);
    var s3 := Next(c, s2, PostDirect(0, 1, 0));
    assert s3.xs == t.xs && s3.base == t.base && s3.stage == t.stage && s3.posted == t.posted;
    LeadsOne(c, s2, PostDirect(0, 1, 0), t);
    LeadsOn(c, s0, [Begin(0)] + [Activate(0)], s2, [PostDirect(0, 1, 0)], t);
  }

  lemma FirstAssigned(mem: Memory)
    requires ConfigOk(Spoiling())
    ensures Leads(Spoiling(), Posted0(mem), [AssignProxy(0)], Assigned0(mem))
  {
    hide ConfigOk, ChunkAt, Total, Leads, NextPostDirect, NextSubmit, NextSubmitFull, NextLaunch, NextDispatch,
         NextDrain, NextPostProxy, NextPoll, NextFail, TryAlloc;
    var c, s, t := Spoiling(), Posted0(mem), Assigned0(mem);
    TheTwoChunks();
    assert AssignedOn(c, s.pipes, 0, 1) == 0;
    assert ProxyRoom(c, s, 0, 0);
    var n := Next(c, s, AssignProxy(0));
    assert n.xs == t.xs && n.stage == t.stage;
    assert n.pipes[0] == t.pipes[0] && n.pipes[1] == t.pipes[1];
    assert n.pipes == t.pipes;
    LeadsOne(c, s, AssignProxy(0), t);
  }

  lemma FirstCopying(mem: Memory)
    requires ConfigOk(Spoiling())
    ensures Leads(Spoiling(), Assigned0(mem), [Submit(0)], Copying0(mem))
  {
    hide ConfigOk, ChunkAt, Total, Leads, ProxyRoom, NextPostDirect, NextAssignProxy, NextSubmitFull, NextLaunch,
         NextDispatch, NextDrain, NextPostProxy, NextPoll, NextFail;
    var c, s, t := Spoiling(), Assigned0(mem), Copying0(mem);
    TheTwoChunks();
    var n := Next(c, s, Submit(0));
    assert n.bufs == t.bufs && n.reqQ == t.reqQ && n.stage == t.stage && n.copies == t.copies;
    assert n.pipes[0].pending == [] && n.pipes[0].copying == t.pipes[0].copying;
    assert n.pipes[0] == t.pipes[0] && n.pipes[1] == t.pipes[1];
    assert n.pipes == t.pipes;
    LeadsOne(c, s, Submit(0), t);
  }

  lemma FirstLaunched(mem: Memory)
    requires ConfigOk(Spoiling())
    ensures Leads(Spoiling(), Copying0(mem), [PopRequest] + [Launch(0)], Launched0(mem))
  {
    hide ConfigOk, ChunkAt, Total, Leads, NextPostDirect, NextAssignProxy, NextSubmit, NextSubmitFull, NextDispatch,
         NextDrain, NextPostProxy, NextPoll, NextFail, ProxyRoom, TryAlloc, NicRoom;
    var c, s, t := Spoiling(), Copying0(mem), Launched0(mem);
    var s1 := Next(c, s, PopRequest);
    LeadsOne(c, s, PopRequest, s1);
    var s2 := Next(c, s1, Launch(0));
    assert s2.reqQ == t.reqQ && s2.copies == t.copies && s2.jobs == t.jobs && s2.flags == t.flags;
    LeadsOne(c, s1, Launch(0), t);
    LeadsOn(c, s, [PopRequest], s1, [Launch(0)], t);
  }

  lemma FirstReceived(mem: Memory)
    requires ConfigOk(Spoiling())
    ensures Leads(Spoiling(), Launched0(mem), [PushResult] + [Dispatch(0, 0)], Received0(mem))
  {
    hide ConfigOk, ChunkAt, Total, Leads, NextPostDirect, NextAssignProxy, NextSubmit, NextSubmitFull, NextLaunch,
         NextDrain, NextPostProxy, NextPoll, NextFail, ProxyRoom, TryAlloc, NicRoom;
    var c, s, t := Spoiling(), Launched0(mem), Received0(mem);
    var s1 := Next(c, s, PushResult);
    LeadsOne(c, s, PushResult, s1);
    var s2 := Next(c, s1, Dispatch(0, 0));
    assert s2.resQ == t.resQ && s2.copies == t.copies;
    assert s2.pipes[0].copying == t.pipes[0].copying;
    assert s2.pipes == t.pipes;
    LeadsOne(c, s1, Dispatch(0, 0), t);
    LeadsOn(c, s, [PushResult], s1, [Dispatch(0, 0)], t);
  }

  lemma TheyAreApart()
    ensures WellFormed(Spoiling().reqs[0]) && WellFormed(Spoiling().reqs[1])
    ensures DisjointDst(Spoiling().reqs[1]) && TransfersApart(Spoiling().reqs[1], Spoiling().reqs[0])
  {
    OneChunk(4096, "b");
    TheTwoChunks();
  }

  lemma SecondStarted(mem: Memory)
    requires ConfigOk(Spoiling())
    ensures Leads(Spoiling(), Received0(mem), [Begin(1)] + [Activate(1)], Started1(mem))
  {
    hide ConfigOk, DisjointDst, TransfersApart, ChunkAt, Total, Leads, NextPostDirect, NextAssignProxy, NextSubmit,
         NextSubmitFull, NextLaunch, NextDispatch, NextDrain, NextPostProxy, NextPoll, NextFail, TryAlloc, NicRoom;
    var c, s, t := Spoiling(), Received0(mem), Started1(mem);
    OneChunk(4096, "b");
    TheyAreApart();
    var s1 := Next(c, s, Begin(1));
    LeadsOne(c, s, Begin(1), s1);
    assert ActivePxn(c, s1.xs) == {0};
    var s2 := Next(c, s1, Activate(1));
    assert s2.xs == t.xs && s2.base == t.base;
    LeadsOne(c, s1, Activate(1), t);
    LeadsOn(c, s, [Begin(1)], s1, [Activate(1)], t);
  }

  lemma SecondAssigned(mem: Memory)
    requires ConfigOk(Spoiling())
    ensures Leads(Spoiling(), Started1(mem), [AssignProxy(1)], BothRun(mem))
  {
    hide ConfigOk, ChunkAt, Total, Leads, NextPostDirect, NextSubmit, NextSubmitFull, NextLaunch, NextDispatch,
         NextDrain, NextPostProxy, NextPoll, NextFail, TryAlloc, NicRoom;
    var c, s, t := Spoiling(), Started1(mem), BothRun(mem);
    OneChunk(4096, "b");
    assert AssignedOn(c, s.pipes, 0, 1) == 1;
    assert ProxyRoom(c, s, 1, 0);
    var n := Next(c, s, AssignProxy(1));
    assert n.xs == t.xs && n.stage == t.stage;
    assert n.pipes[0] == t.pipes[0] && n.pipes[1] == t.pipes[1];
    assert n.pipes == t.pipes;
    LeadsOne(c, s, AssignProxy(1), t);
  }

  lemma FirstErrs(mem: Memory)
    requires ConfigOk(Spoiling())
    ensures Leads(Spoiling(), BothRun(mem), [PollFails(WR0)], Error0(mem))
  {
    hide ConfigOk, Leads, NextPostDirect, NextAssignProxy, NextSubmit, NextSubmitFull, NextLaunch, NextDispatch,
         NextDrain, NextPostProxy, NextPoll, NextFail, ProxyRoom, TryAlloc, NicRoom;
    var c, s, t := Spoiling(), BothRun(mem), Error0(mem);
    var n := Next(c, s, PollFails(WR0));
    assert n.posted == t.posted && n.executed == t.executed && n.lost == t.lost && n.xs == t.xs;
    LeadsOne(c, s, PollFails(WR0), t);
  }

  lemma SumUpOf256()
    ensures SumUp([256]) == 256 && SumUp([]) == 0
  {
    assert [256][1..] == [];
  }

  lemma FirstAbandoned(mem: Memory)
    requires ConfigOk(Spoiling()) && Sized(Spoiling(), Error0(mem))
    ensures Abandon(Spoiling(), Error0(mem), 0, 2)
      == Error0(mem).(pipes := Failed0(mem).pipes, bufs := [Offsets(256, 256)], recycleQ := [0], copies := map[])
  {
    hide ConfigOk;
    var c, s := Spoiling(), Error0(mem);
    var cs := s.pipes[0].copying;
    assert cs[1..] == [] && CopyingLens(cs) == [256];
    SumUpOf256();
    assert Abandon(c, s, 0, 0) == s;
    var r := Abandon(c, s, 0, 1);
    assert Abandon(c, s, 0, 2) == r;
    assert r.pipes == Failed0(mem).pipes && r.bufs == [Offsets(256, 256)] && r.recycleQ == [0];
    assert r.copies == map[];
  }

  lemma FirstFails(mem: Memory)
    requires ConfigOk(Spoiling())
    ensures Leads(Spoiling(), Error0(mem), [Fail(0)], Failed0(mem))
  {
    hide ConfigOk, Leads, Abandon, NextPostDirect, NextAssignProxy, NextSubmit, NextSubmitFull, NextLaunch,
         NextDispatch, NextDrain, NextPostProxy, NextPoll, ProxyRoom, TryAlloc, NicRoom;
    var c, s, t := Spoiling(), Error0(mem), Failed0(mem);
    FirstAbandoned(mem);
    var n := Next(c, s, Fail(0));
    assert n.xs == t.xs && n.stage == t.stage && n.lost == t.lost;
    LeadsOne(c, s, Fail(0), t);
  }

  lemma FlagRecycled(mem: Memory)
    requires ConfigOk(Spoiling())
    ensures Leads(Spoiling(), Failed0(mem), [Recycle], Failed0(mem).(recycleQ := [], pool := [0]))
  {
    hide ConfigOk, Leads, NextPostDirect, NextAssignProxy, NextSubmit, NextSubmitFull, NextLaunch, NextDispatch,
         NextDrain, NextPostProxy, NextPoll, NextFail, ProxyRoom, NicRoom, TryAlloc;
    var c, s, t := Spoiling(), Failed0(mem), Failed0(mem).(recycleQ := [], pool := [0]);
    var s1 := Next(c, s, Recycle);
    assert s1.pool == t.pool && s1.recycleQ == t.recycleQ;
    LeadsOne(c, s, Recycle, t);
  }

  lemma SecondSubmitted(mem: Memory)
    requires ConfigOk(Spoiling())
    ensures Leads(Spoiling(), Failed0(mem).(recycleQ := [], pool := [0]), [Submit(1)], Submitted1(mem))
  {
    hide ConfigOk, Total, ChunkAt, Leads, NextPostDirect, NextAssignProxy, NextSubmitFull, NextLaunch, NextDispatch,
         NextDrain, NextPostProxy, NextPoll, NextFail, ProxyRoom, NicRoom;
    OneChunk(4096, "b");
    var c, s, t := Spoiling(), Failed0(mem).(recycleQ := [], pool := [0]), Submitted1(mem);
    var s1 := Next(c, s, Submit(1));
    assert s1.bufs == t.bufs && s1.reqQ == t.reqQ && s1.stage == t.stage && s1.copies == t.copies;
    assert s1.pipes[1].pending == [] && s1.pipes[1].copying == t.pipes[1].copying;
    assert s1.pipes[0] == t.pipes[0] && s1.pipes[1] == t.pipes[1];
    assert s1.pipes == t.pipes;
    LeadsOne(c, s, Submit(1), t);
  }

  lemma SecondLaunched(mem: Memory)
    requires ConfigOk(Spoiling())
    ensures Leads(Spoiling(), Submitted1(mem), [PopRequest] + [Launch(0)], Launched1(mem))
  {
    hide ConfigOk, Leads, NextPostDirect, NextAssignProxy, NextSubmit, NextSubmitFull, NextDispatch, NextDrain,
         NextPostProxy, NextPoll, NextFail, ProxyRoom, NicRoom, TryAlloc;
    var c, s, t := Spoiling(), Submitted1(mem), Launched1(mem);
    var s1 := Next(c, s, PopRequest);
    LeadsOne(c, s, PopRequest, s1);
    var s2 := Next(c, s1, Launch(0));
    assert s2.reqQ == t.reqQ && s2.copies == t.copies && s2.pool == t.pool;
    assert s2.jobs == t.jobs && s2.flags == t.flags;
    LeadsOne(c, s1, Launch(0), t);
    LeadsOn(c, s, [PopRequest], s1, [Launch(0)], t);
  }

  lemma SecondReceived(mem: Memory)
    requires ConfigOk(Spoiling())
    ensures Leads(Spoiling(), Launched1(mem), [PushResult] + [Dispatch(1, 0)], Received1(mem))
  {
    hide ConfigOk, Leads, NextPostDirect, NextAssignProxy, NextSubmit, NextSubmitFull, NextLaunch, NextDrain,
         NextPostProxy, NextPoll, NextFail, ProxyRoom, NicRoom, TryAlloc;
    var c, s, t := Spoiling(), Launched1(mem), Received1(mem);
    var s1 := Next(c, s, PushResult);
    LeadsOne(c, s, PushResult, s1);
    var s2 := Next(c, s1, Dispatch(1, 0));
    assert s2.resQ == t.resQ && s2.copies == t.copies;
    assert s2.pipes[1].copying == t.pipes[1].copying;
    assert s2.pipes == t.pipes;
    LeadsOne(c, s1, Dispatch(1, 0), t);
    LeadsOn(c, s, [PushResult], s1, [Dispatch(1, 0)], t);
  }

  lemma OldLands(mem: Memory)
    requires ConfigOk(Spoiling())
    ensures Leads(Spoiling(), Received1(mem), [Land(1)], OldLanded(mem))
  {
    hide ConfigOk, Leads, Copied, NextPostDirect, NextAssignProxy, NextSubmit, NextSubmitFull, NextLaunch,
         NextDispatch, NextDrain, NextPostProxy, NextPoll, NextFail, ProxyRoom, TryAlloc, NicRoom;
    var c, s, t := Spoiling(), Received1(mem), OldLanded(mem);
    var n := Next(c, s, Land(1));
    assert n.jobs == t.jobs && n.mem == t.mem;
    LeadsOne(c, s, Land(1), t);
  }

  lemma OldCallback(mem: Memory)
    requires ConfigOk(Spoiling())
    ensures Leads(Spoiling(), OldLanded(mem), [Callback(1)], FlagSet(mem))
  {
    hide ConfigOk, Leads, Copied, NextPostDirect, NextAssignProxy, NextSubmit, NextSubmitFull, NextLaunch,
         NextDispatch, NextDrain, NextPostProxy, NextPoll, NextFail, ProxyRoom, TryAlloc, NicRoom;
    var c, s, t := Spoiling(), OldLanded(mem), FlagSet(mem);
    var n := Next(c, s, Callback(1));
    assert n.jobs == t.jobs && n.flags == t.flags;
    LeadsOne(c, s, Callback(1), t);
  }

  lemma CanPost1(mem: Memory)
    requires ConfigOk(Spoiling())
    ensures var c, s := Spoiling(), FlagSet(mem);
      Sized(c, s) && Enabled(c, s, PostProxy(1, 0)) && ProxyWr(c, s, 1, 0) == WR1
  {
    hide ConfigOk, Copied, Total, ChunkAt, ProxyRoom, TryAlloc;
    OneChunk(4096, "b");
    assert NicRoom(Spoiling(), FlagSet(mem).flow, 0, 0);
  }

  lemma PostOf(s: State)
    requires ConfigOk(Spoiling()) && Sized(Spoiling(), s) && Enabled(Spoiling(), s, PostProxy(1, 0))
    requires s.xs == [Xfer(Failed, 2, 0, 256, true), Xfer(Active, 1, 0, 0, false)] && s.posted == {} && s.recycleQ == []
    requires s.pipes == [Pipe([], [], [], 0, 0, 0, 0),
                         Pipe([], [CopyingChunk(0, 2, 256, 256, Some(0), true)], [], 0, 1, 0, 0)]
    requires s.stage == map[Cid(0, 0) := Dropped(true), Cid(0, 1) := Dropped(false),
                            Cid(1, 0) := Copying(1, 2, Blk(0, 256, 256))]
    requires s.copies == map[2 := Copy(Cid(1, 0), Received, Some(0))]
    requires ProxyWr(Spoiling(), s, 1, 0) == WR1
    ensures NextPostProxy(Spoiling(), s, 1, 0) == s.(
      xs := [Xfer(Failed, 2, 0, 256, true), Xfer(Active, 1, 0, 256, false)],
      pipes := [Pipe([], [], [], 0, 0, 0, 0), Pipe([], [], [256], 0, 1, 1, 0)],
      posted := {WR1}, flow := Post(s.flow, 0, 0), recycleQ := [0],
      stage := map[Cid(0, 0) := Dropped(true), Cid(0, 1) := Dropped(false),
                   Cid(1, 0) := Posted(WR1, Some(Blk(0, 256, 256)))],
      copies := map[])
  {
    hide ConfigOk, Total, ChunkAt, ProxyWr, Post, NicRoom, Enabled, Sized;
    OneChunk(4096, "b");
    var t := NextPostProxy(Spoiling(), s, 1, 0);
    assert t.pipes[1].copying == [] && t.pipes[1].inflight == [256];
  }

  lemma SecondPosted(mem: Memory)
    requires ConfigOk(Spoiling())
    ensures Leads(Spoiling(), FlagSet(mem), [PostProxy(1, 0)], Posted1(mem))
  {
    hide ConfigOk, Leads, NextPostProxy, ProxyWr, Enabled, Sized, Post;
    CanPost1(mem);
    PostOf(FlagSet(mem));
    LeadsOne(Spoiling(), FlagSet(mem), PostProxy(1, 0), Posted1(mem));
  }

  lemma SecondSent(mem: Memory)
    requires ConfigOk(Spoiling())
    ensures Leads(Spoiling(), Posted1(mem), [Execute(WR1)], Executed1(mem))
  {
    hide ConfigOk, Leads, Copied, NextPostDirect, NextAssignProxy, NextSubmit, NextSubmitFull, NextLaunch,
         NextDispatch, NextDrain, NextPostProxy, NextPoll, NextFail, ProxyRoom, TryAlloc, NicRoom;
    LeadsOne(Spoiling(), Posted1(mem), Execute(WR1), Executed1(mem));
  }

  lemma SecondPolled(mem: Memory)
    requires ConfigOk(Spoiling())
    ensures Leads(Spoiling(), Executed1(mem), [Poll(WR1)], Polled1(mem))
  {
    hide ConfigOk, Leads, Copied, NextPostDirect, NextAssignProxy, NextSubmit, NextSubmitFull, NextLaunch,
         NextDispatch, NextDrain, NextPostProxy, NextFail, ProxyRoom, TryAlloc, NicRoom;
    var c, s, t := Spoiling(), Executed1(mem), Polled1(mem);
    assert PipeOn(c, 1, 0, 2) == Some(1);
    var n := Next(c, s, Poll(WR1));
    assert n.posted == t.posted && n.executed == t.executed && n.stage == t.stage && n.xs == t.xs;
    assert n.pipes == t.pipes && n.flow == t.flow;
    LeadsOne(c, s, Poll(WR1), t);
  }

  lemma SecondDrained(mem: Memory)
    requires ConfigOk(Spoiling())
    ensures Leads(Spoiling(), Polled1(mem), [Drain(1)], Drained1(mem))
  {
    hide ConfigOk, Leads, Copied, NextPostDirect, NextAssignProxy, NextSubmit, NextSubmitFull, NextLaunch,
         NextDispatch, NextPostProxy, NextPoll, NextFail, ProxyRoom, TryAlloc, NicRoom;
    var c, s, t := Spoiling(), Polled1(mem), Drained1(mem);
    SumUpOf256();
    assert s.pipes[1].inflight[..1] == [256] && s.pipes[1].inflight[1..] == [];
    var s1 := Next(c, s, Drain(1));
    assert s1.pipes == t.pipes && s1.bufs == t.bufs;
    LeadsOne(c, s, Drain(1), t);
  }

  /* ---------- the run ---------- */

  lemma WrongBytes(mem: Memory)
    requires mem(Proxy(0, 256)) != mem(Local(4096))
    ensures var r := Spoiling().reqs[1]; WellFormed(r) && !Delivered(r, mem, Sent1(mem))
  {
    hide ConfigOk;
    var r := Spoiling().reqs[1];
    assert r == Scatter256(4096, "b");
    assert SliceSrc(r, 0, 0) == Local(4096) && SliceDst(r, 0, 0) == Remote("b", 0);
    ArrivedByte(mem);
  }

  lemma ArrivedByte(mem: Memory)
    ensures Sent1(mem)(Remote("b", 0)) == mem(Proxy(0, 256))
  {
    CopiedAt(Landed0(mem), Proxy(0, 256), Remote("b", 0), 256, 0);
    assert Remote("b", 0).Plus(0) == Remote("b", 0) && Proxy(0, 256).Plus(0) == Proxy(0, 256);
    assert !Proxy(0, 0).Range(256, Proxy(0, 256));
  }

  lemma CanEnd(mem: Memory)
    requires ConfigOk(Spoiling())
    ensures Sized(Spoiling(), Drained1(mem)) && Enabled(Spoiling(), Drained1(mem), Finish(1))
    ensures BaseOf(Drained1(mem).base, 1) == mem && Drained1(mem).mem == Sent1(mem)
  {
    hide ConfigOk, Total, Copied;
    OneChunk(4096, "b");
  }

  lemma {:induction false} PlainInOrder(s: State, steps: seq<Step>)
    requires ConfigOk(Spoiling()) && IsRun(Spoiling(), s, steps)
    requires forall j :: 0 <= j < |steps| ==> !steps[j].Reset? && !steps[j].Fail?
    ensures AllInOrder(Spoiling(), s, steps)
    decreases |steps|
  {
    hide ConfigOk, Enabled, Next, Sized;
    if steps != [] {
      PlainInOrder(Next(Spoiling(), s, steps[0]), steps[1..]);
    }
  }

  // Up to the failure.
  function FirstPart(): seq<Step> {
    [Begin(0)] + [Activate(0)] + [PostDirect(0, 1, 0)] + [AssignProxy(0)] + [Submit(0)]
    + (([PopRequest] + [Launch(0)]) + ([PushResult] + [Dispatch(0, 0)]))
    + ([Begin(1)] + [Activate(1)] + [AssignProxy(1)]) + [PollFails(WR0)]
  }

  // And after it.
  function SecondPart(): seq<Step> {
    [Recycle] + [Submit(1)] + ([PopRequest] + [Launch(0)]) + ([PushResult] + [Dispatch(1, 0)])
    + ([Land(1)] + [Callback(1)]) + [PostProxy(1, 0)] + ([Execute(WR1)] + [Poll(WR1)]) + [Drain(1)]
  }

  lemma UpToFailure(mem: Memory)
    requires ConfigOk(Spoiling())
    ensures Leads(Spoiling(), Init(Spoiling(), mem), FirstPart(), Error0(mem))
  {
    hide ConfigOk, Leads, Init;
    var c := Spoiling();
    var s := Init(c, mem);
    FirstPosted(mem);
    var a := [Begin(0)] + [Activate(0)] + [PostDirect(0, 1, 0)];
    FirstAssigned(mem);
    LeadsOn(c, s, a, Posted0(mem), [AssignProxy(0)], Assigned0(mem));
    FirstCopying(mem);
    a := a + [AssignProxy(0)];
    LeadsOn(c, s, a, Assigned0(mem), [Submit(0)], Copying0(mem));
    FirstLaunched(mem);
    FirstReceived(mem);
    a := a + [Submit(0)];
    var b := ([PopRequest] + [Launch(0)]) + ([PushResult] + [Dispatch(0, 0)]);
    LeadsOn(c, Copying0(mem), [PopRequest] + [Launch(0)], Launched0(mem), [PushResult] + [Dispatch(0, 0)],
            Received0(mem));
    LeadsOn(c, s, a, Copying0(mem), b, Received0(mem));
    SecondStarted(mem);
    SecondAssigned(mem);
    a := a + b;
    b := [Begin(1)] + [Activate(1)];
    LeadsOn(c, Received0(mem), b, Started1(mem), [AssignProxy(1)], BothRun(mem));
    b := b + [AssignProxy(1)];
    LeadsOn(c, s, a, Received0(mem), b, BothRun(mem));
    FirstErrs(mem);
    LeadsOn(c, s, a + b, BothRun(mem), [PollFails(WR0)], Error0(mem));
  }

  lemma AfterFailure(mem: Memory)
    requires ConfigOk(Spoiling())
    ensures Leads(Spoiling(), Failed0(mem), SecondPart(), Drained1(mem))
  {
    hide ConfigOk, Leads;
    var c := Spoiling();
    var s := Failed0(mem);
    FlagRecycled(mem);
    SecondSubmitted(mem);
    LeadsOn(c, s, [Recycle], s.(recycleQ := [], pool := [0]), [Submit(1)], Submitted1(mem));
    SecondLaunched(mem);
    var a := [Recycle] + [Submit(1)];
    LeadsOn(c, s, a, Submitted1(mem), [PopRequest] + [Launch(0)], Launched1(mem));
    SecondReceived(mem);
    a := a + ([PopRequest] + [Launch(0)]);
    LeadsOn(c, s, a, Launched1(mem), [PushResult] + [Dispatch(1, 0)], Received1(mem));
    OldLands(mem);
    OldCallback(mem);
    LeadsOn(c, Received1(mem), [Land(1)], OldLanded(mem), [Callback(1)], FlagSet(mem));
    a := a + ([PushResult] + [Dispatch(1, 0)]);
    LeadsOn(c, s, a, Received1(mem), [Land(1)] + [Callback(1)], FlagSet(mem));
    SecondPosted(mem);
    a := a + ([Land(1)] + [Callback(1)]);
    LeadsOn(c, s, a, FlagSet(mem), [PostProxy(1, 0)], Posted1(mem));
    SecondSent(mem);
    SecondPolled(mem);
    LeadsOn(c, Posted1(mem), [Execute(WR1)], Executed1(mem), [Poll(WR1)], Polled1(mem));
    LeadsOn(c, s, a + [PostProxy(1, 0)], Posted1(mem), [Execute(WR1)] + [Poll(WR1)], Polled1(mem));
    SecondDrained(mem);
    LeadsOn(c, s, a + [PostProxy(1, 0)] + ([Execute(WR1)] + [Poll(WR1)]), Polled1(mem), [Drain(1)], Drained1(mem));
  }

  lemma PartsPlain()
    ensures forall j :: 0 <= j < |FirstPart()| ==> !FirstPart()[j].Reset? && !FirstPart()[j].Fail?
    ensures forall j :: 0 <= j < |SecondPart()| ==> !SecondPart()[j].Reset? && !SecondPart()[j].Fail?
  {
  }

  // Two transfers, users who keep to the rules, no reset. One chunk of the first transfer comes
  // back with an error while the other is being copied, and the worker lets go of the transfer.
  // Its cleanup gives back the flag; the second one's copy gets it; the first copy's callback
  // sets it; and the second transfer's chunk is sent from a block that its copy has not filled.
  // The worker is then about to report SUCCESS for the second transfer, with bytes in place that
  // its source never held.
  lemma FailureSpoilsAnother(mem: Memory)
    requires mem(Proxy(0, 256)) != mem(Local(4096))
    ensures var c := Spoiling();
      && ConfigOk(c) && IsRun(c, Init(c, mem), FirstPart() + [Fail(0)] + SecondPart())
      && AllCareful(c, Init(c, mem), FirstPart() + [Fail(0)] + SecondPart())
      && IsRun(c, Init(c, mem), FirstPart()) && AllInOrder(c, Init(c, mem), FirstPart())
      && IsRun(c, Failed0(mem), SecondPart()) && AllInOrder(c, Failed0(mem), SecondPart())
      && var e := After(c, Init(c, mem), FirstPart() + [Fail(0)] + SecondPart());
         && Sized(c, e) && Enabled(c, e, Finish(1)) && WellFormed(c.reqs[1])
         && BaseOf(e.base, 1) == mem && !Delivered(c.reqs[1], mem, e.mem)
  {
    hide ConfigOk, Enabled, IsRun, AllCareful, AllInOrder, Delivered, Init, After, Sized, BaseOf, Error0, Failed0,
         Drained1, FirstPart, SecondPart, WellFormed;
    ExampleOk();
    PartsPlain();
    UpToFailure(mem);
    PlainInOrder(Init(Spoiling(), mem), FirstPart());
    FirstFails(mem);
    LeadsOn(Spoiling(), Init(Spoiling(), mem), FirstPart(), Error0(mem), [Fail(0)], Failed0(mem));
    AfterFailure(mem);
    PlainInOrder(Failed0(mem), SecondPart());
    LeadsOn(Spoiling(), Init(Spoiling(), mem), FirstPart() + [Fail(0)], Failed0(mem), SecondPart(), Drained1(mem));
    WrongBytes(mem);
    CanEnd(mem);
  }
}

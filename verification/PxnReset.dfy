/** Why the runs of the data plane are asked to reset no allocator in use: two transfers,
    the second started while the first one's copy is under way. */
module PxnReset {
  import opened Chunks
  import opened Layout
  import opened ProxyBuffer
  import opened FlowControl
  import opened PxnModel
  import opened PxnInvariant
  import opened PxnSafety

  // Two scatters of one chunk each, staged through the same buffer.
  function Scatter256(from: nat, host: string): Request {
    Request(Scatter, from, [host], [0], [256], 256)
  }

  ghost function TwoTransfers(): Config {
    Config([Scatter256(0, "a"), Scatter256(4096, "b")], [true, true], [{}, {}], [0.0, 0.0],
           [PipeConfig(0, 0, 0), PipeConfig(1, 0, 0)], [1024], 1, 1, 1)
  }

  lemma OneChunk(from: nat, host: string)
    ensures var r := Scatter256(from, host);
      && WellFormed(r) && NoWrap(r) && Whole(r) && Total(r) == 1 && DisjointDst(r)
      && ChunkAt(r, 0) == ChunkTask(0, from, 0, 256)
  {
    var r := Scatter256(from, host);
    assert ChunkCount(256, 256) == 1;
    assert Start(r.lengths, 256, 0) == 0;
    assert Start(r.lengths, 256, 1) == 1;
    assert SumLengths(r.lengths, 0) == 0;
  }

  lemma ExampleOk()
    ensures ConfigOk(TwoTransfers())
  {
    hide Total, ChunkAt, DisjointDst, NoWrap, WellFormed, Whole;
    var c := TwoTransfers();
    OneChunk(0, "a");
    OneChunk(4096, "b");
    assert c.pipes[0].xfer == 0 && c.pipes[1].xfer == 1;
    WellFormedLengths();
  }

  lemma WellFormedLengths()
    ensures forall from: nat, host: string ::
      WellFormed(Scatter256(from, host)) && ChunksFit(Scatter256(from, host), 1024)
  {
  }

  /* ---------- the run ---------- */

  ghost function Running0(mem: Memory): State {
    Init(TwoTransfers(), mem).(xs := [Xfer(Active, 0, 0, 0, false), Xfer(Waiting, 0, 0, 0, false)], base := [mem, mem])
  }

  ghost function Assigned0(mem: Memory): State {
    Running0(mem).(
    xs := [Xfer(Active, 1, 0, 0, false), Xfer(Waiting, 0, 0, 0, false)],
    pipes := [Pipe([0], [], [], 0, 1, 0, 0), Pipe([], [], [], 0, 0, 0, 0)],
    stage := map[Cid(0, 0) := Pending(0)])
  }

  // The copy of the first transfer's chunk is under way.
  ghost function Copying0(mem: Memory): State {
    Assigned0(mem).(
    pipes := [Pipe([], [CopyingChunk(0, 1, 0, 256, None, false)], [], 0, 1, 0, 0), Pipe([], [], [], 0, 0, 0, 0)],
    bufs := [Offsets(256, 0)], nextId := 2,
    reqQ := [CopyRequest(Local(0), Proxy(0, 0), 256, 1)],
    stage := map[Cid(0, 0) := Copying(0, 1, Blk(0, 0, 256))],
    copies := map[1 := Copy(Cid(0, 0), InRequests, None)])
  }

  // The second transfer was started, and its start has reset the allocator.
  ghost function Reset1(mem: Memory): State {
    Copying0(mem).(xs := [Xfer(Active, 1, 0, 0, false), Xfer(Queued, 0, 0, 0, false)], bufs := [Offsets(0, 0)])
  }

  ghost function Assigned1(mem: Memory): State {
    Reset1(mem).(
    xs := [Xfer(Active, 1, 0, 0, false), Xfer(Active, 1, 0, 0, false)],
    pipes := [Pipe([], [CopyingChunk(0, 1, 0, 256, None, false)], [], 0, 1, 0, 0), Pipe([0], [], [], 0, 1, 0, 0)],
    stage := map[Cid(0, 0) := Copying(0, 1, Blk(0, 0, 256)), Cid(1, 0) := Pending(1)])
  }

  // The steps are a run of users who keep to the rules, from s to s'.
  ghost predicate Leads(c: Config, s: State, steps: seq<Step>, s': State)
    requires ConfigOk(c)
  {
    IsRun(c, s, steps) && After(c, s, steps) == s' && AllCareful(c, s, steps)
  }

  lemma LeadsOne(c: Config, s: State, step: Step, s': State)
    requires ConfigOk(c) && Sized(c, s) && Enabled(c, s, step) && Careful(c, s, step) && Next(c, s, step) == s'
    ensures Leads(c, s, [step], s')
  {
    hide ConfigOk, Enabled, Next, Careful, Sized;
    assert [step][1..] == [];
    assert Leads(c, s', [], s');
    assert IsRun(c, s, [step]);
  }

  lemma {:induction false} LeadsOn(c: Config, s: State, a: seq<Step>, m: State, b: seq<Step>, s': State)
    requires ConfigOk(c) && Leads(c, s, a, m) && Leads(c, m, b, s')
    ensures Leads(c, s, a + b, s')
    decreases |a|
  {
    hide ConfigOk, Enabled, Next, Careful, Sized;
    if a == [] {
      assert a + b == b;
    } else {
      assert (a + b)[0] == a[0] && (a + b)[1..] == a[1..] + b;
      LeadsOn(c, Next(c, s, a[0]), a[1..], m, b, s');
    }
  }

  lemma FirstRuns(mem: Memory)
    requires ConfigOk(TwoTransfers())
    ensures Leads(TwoTransfers(), Init(TwoTransfers(), mem), [Begin(0)] + [Activate(0)], Running0(mem))
  {
    hide ConfigOk, DisjointDst, TransfersApart, ChunkAt, Total, Leads;
    var c := TwoTransfers();
    OneChunk(0, "a");
    var s0 := Init(c, mem);
    var s1 := Next(c, s0, Begin(0));
    assert ActivePxn(c, s1.xs) == {};
    var s2 := Next(c, s1, Activate(0));
    var s := Running0(mem);
    assert s2.xs == s.xs && s2.base == s.base;
    LeadsOne(c, s0, Begin(0), s1);
    LeadsOne(c, s1, Activate(0), s2);
    LeadsOn(c, s0, [Begin(0)], s1, [Activate(0)], s2);
  }

  lemma FirstAssigned(mem: Memory)
    requires ConfigOk(TwoTransfers())
    ensures Leads(TwoTransfers(), Running0(mem), [AssignProxy(0)], Assigned0(mem))
  {
    hide ConfigOk, DisjointDst, TransfersApart, ChunkAt, Total, Leads;
    var c := TwoTransfers();
    OneChunk(0, "a");
    var s := Running0(mem);
    assert AssignedOn(c, s.pipes, 0, 1) == 0;
    assert ProxyRoom(c, s, 0, 0);
    var t, n := Assigned0(mem), Next(c, s, AssignProxy(0));
    assert n.xs == t.xs && n.stage == t.stage;
    assert n.pipes[0] == t.pipes[0] && n.pipes[1] == t.pipes[1];
    assert n.pipes == t.pipes;
    LeadsOne(c, s, AssignProxy(0), t);
  }

  lemma FirstCopying(mem: Memory)
    requires ConfigOk(TwoTransfers())
    ensures Leads(TwoTransfers(), Assigned0(mem), [Submit(0)], Copying0(mem))
  {
    hide ConfigOk, DisjointDst, TransfersApart, ChunkAt, Total, Leads, ProxyRoom;
    var c := TwoTransfers();
    OneChunk(0, "a");
    var s := Assigned0(mem);
    var t, n := Copying0(mem), Next(c, s, Submit(0));
    assert n.bufs == t.bufs && n.reqQ == t.reqQ && n.stage == t.stage && n.copies == t.copies;
    assert n.pipes[0].pending == [] && n.pipes[0].copying == t.pipes[0].copying;
    assert n.pipes[0] == t.pipes[0] && n.pipes[1] == t.pipes[1];
    assert n.pipes == t.pipes;
    LeadsOne(c, s, Submit(0), t);
  }

  // The two transfers go to different hosts, from different places: they are apart.
  lemma TheyAreApart()
    requires ConfigOk(TwoTransfers())
    ensures DisjointDst(TwoTransfers().reqs[1]) && TransfersApart(TwoTransfers().reqs[1], TwoTransfers().reqs[0])
  {
    hide ConfigOk;
    OneChunk(4096, "b");
    OneChunk(0, "a");
  }

  lemma SecondBegins(mem: Memory)
    requires ConfigOk(TwoTransfers())
    ensures Leads(TwoTransfers(), Copying0(mem), [Begin(1)] + [Reset(0)], Reset1(mem))
  {
    hide ConfigOk, DisjointDst, TransfersApart, ChunkAt, Total, Leads, ProxyRoom;
    var c := TwoTransfers();
    TheyAreApart();
    var s := Copying0(mem);
    var n := Next(c, s, Begin(1));
    var t := Reset1(mem);
    assert n.xs == t.xs && n.base == t.base;
    LeadsOne(c, s, Begin(1), n);
    var r := Next(c, n, Reset(0));
    assert r.bufs == t.bufs;
    LeadsOne(c, n, Reset(0), r);
    LeadsOn(c, s, [Begin(1)], n, [Reset(0)], r);
  }

  lemma SecondAssigned(mem: Memory)
    requires ConfigOk(TwoTransfers())
    ensures Leads(TwoTransfers(), Reset1(mem), [Activate(1)] + [AssignProxy(1)], Assigned1(mem))
  {
    hide ConfigOk, DisjointDst, TransfersApart, ChunkAt, Total, Leads;
    var c := TwoTransfers();
    OneChunk(4096, "b");
    var s, t := Reset1(mem), Assigned1(mem);
    assert ActivePxn(c, s.xs) == {0};
    var n := Next(c, s, Activate(1));
    LeadsOne(c, s, Activate(1), n);
    assert AssignedOn(c, n.pipes, 0, 1) == 1;
    assert ProxyRoom(c, n, 1, 0);
    var r := Next(c, n, AssignProxy(1));
    assert r.xs == t.xs && r.stage == t.stage;
    assert r.pipes[0] == t.pipes[0] && r.pipes[1] == t.pipes[1];
    assert r.pipes == t.pipes;
    LeadsOne(c, n, AssignProxy(1), r);
    LeadsOn(c, s, [Activate(1)], n, [AssignProxy(1)], r);
  }

  // The submit that hands out the block in use once more.
  lemma SameBlockAgain(mem: Memory)
    requires ConfigOk(TwoTransfers()) && Sized(TwoTransfers(), Assigned1(mem))
    ensures var c := TwoTransfers(); var s := Assigned1(mem);
      && Enabled(c, s, Submit(1)) && UsesProxy(s, Cid(0, 0))
      && var s' := Next(c, s, Submit(1));
         && Cid(0, 0) in s'.stage && s'.stage[Cid(0, 0)].Copying? && Cid(1, 0) in s'.stage
         && s'.stage[Cid(1, 0)].Copying?
         && s'.stage[Cid(0, 0)].blk == s'.stage[Cid(1, 0)].blk == Blk(0, 0, 256)
  {
    hide ConfigOk, ChunkAt, Total;
    OneChunk(4096, "b");
  }

  // A run in which everybody keeps to the rules but a transfer is started, and resets the
  // allocator, while another one's copy is under way: the next submit hands the same proxy
  // memory out again. The runs of ProxyMemorySafe and of what rests on it exclude this.
  lemma ResetWhileCopying(mem: Memory) returns (steps: seq<Step>)
    ensures var c := TwoTransfers();
      && ConfigOk(c) && IsRun(c, Init(c, mem), steps) && AllCareful(c, Init(c, mem), steps)
      && var s := After(c, Init(c, mem), steps);
         && Sized(c, s) && Enabled(c, s, Submit(1)) && UsesProxy(s, Cid(0, 0))
         && var s' := Next(c, s, Submit(1));
            && Cid(0, 0) in s'.stage && s'.stage[Cid(0, 0)].Copying? && Cid(1, 0) in s'.stage
            && s'.stage[Cid(1, 0)].Copying?
            && s'.stage[Cid(0, 0)].blk == s'.stage[Cid(1, 0)].blk
  {
    hide ConfigOk, Enabled, Next, IsRun, AllCareful, UsesProxy;
    ExampleOk();
    var c := TwoTransfers();
    var s0 := Init(c, mem);
    FirstRuns(mem);
    FirstAssigned(mem);
    LeadsOn(c, s0, [Begin(0)] + [Activate(0)], Running0(mem), [AssignProxy(0)], Assigned0(mem));
    var a := [Begin(0)] + [Activate(0)] + [AssignProxy(0)];
    FirstCopying(mem);
    LeadsOn(c, s0, a, Assigned0(mem), [Submit(0)], Copying0(mem));
    SecondBegins(mem);
    LeadsOn(c, s0, a + [Submit(0)], Copying0(mem), [Begin(1)] + [Reset(0)], Reset1(mem));
    SecondAssigned(mem);
    var b := a + [Submit(0)] + ([Begin(1)] + [Reset(0)]);
    LeadsOn(c, s0, b, Reset1(mem), [Activate(1)] + [AssignProxy(1)], Assigned1(mem));
    steps := b + ([Activate(1)] + [AssignProxy(1)]);
    SizedAtEnd(mem);
    SameBlockAgain(mem);
  }

  lemma SizedAtEnd(mem: Memory)
    ensures Sized(TwoTransfers(), Assigned1(mem))
  {
  }
}

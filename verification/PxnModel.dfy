/** The data plane as a transition system: the worker that drives several transfers, the
    copy thread, the GPU's copy engine and the NICs, each step one atomic action. A PXN
    transfer sends part of its chunks through pipelines: NVLink copy into a proxy buffer,
    then RDMA from there. A post may be refused and a work request may come back with an
    error; the transfer then fails and the worker cleans up after it. */
module PxnModel {
  import opened Chunks
  import opened Layout
  import opened ProxyBuffer
  import opened FlowControl

  const COPY_QUEUE_CAPACITY: nat := 4096
  const MAX_ACTIVE_PXN: nat := 5

  /* ---------- what does not change during a run ---------- */

  // One proxy NIC of a PXN transfer and the GPU whose buffer stages for it.
  datatype PipeConfig = PipeConfig(xfer: nat, nic: nat, gpu: nat)

  datatype Config = Config(
    reqs: seq<Request>,         // the transfers; the index stands for the handle
    pxn: seq<bool>,
    direct: seq<set<nat>>,      // the NICs a transfer posts to without staging
    alpha: seq<real>,           // weight of staged chunks in the load of a proxy NIC
    pipes: seq<PipeConfig>,
    bufSize: seq<nat>,          // proxy buffer of each GPU
    nics: nat,
    qps: nat,
    maxPerQp: nat)
  {
    function MaxPerNic(): nat {
      maxPerQp * qps
    }
  }

  // A chunk of a transfer.
  datatype Cid = Cid(x: nat, i: nat)

  ghost predicate ValidCid(c: Config, id: Cid) {
    id.x < |c.reqs| && WellFormed(c.reqs[id.x]) && id.i < Total(c.reqs[id.x])
  }

  ghost function Len(c: Config, id: Cid): nat
    requires ValidCid(c, id)
  {
    ChunkAt(c.reqs[id.x], id.i).len
  }

  ghost function Src(c: Config, id: Cid): Loc
    requires ValidCid(c, id)
  {
    ChunkSrc(c.reqs[id.x], id.i)
  }

  ghost function Dst(c: Config, id: Cid): Loc
    requires ValidCid(c, id)
  {
    ChunkDst(c.reqs[id.x], id.i)
  }

  ghost predicate ConfigOk(c: Config) {
    && |c.pxn| == |c.direct| == |c.alpha| == |c.reqs|
    && c.qps > 0 && c.maxPerQp > 0
    && (forall x :: 0 <= x < |c.reqs| ==>
          WellFormed(c.reqs[x]) && NoWrap(c.reqs[x]) && Whole(c.reqs[x]) && Total(c.reqs[x]) > 0)
    && (forall x, n :: 0 <= x < |c.reqs| && n in c.direct[x] ==> n < c.nics)
    && (forall x :: 0 <= x < |c.reqs| ==> c.alpha[x] >= 0.0)
    && (forall g :: 0 <= g < |c.bufSize| ==> RealSize(c.bufSize[g]))
    && (forall k :: 0 <= k < |c.pipes| ==> PipeOk(c, c.pipes[k]))
    && (forall j, k :: 0 <= j < k < |c.pipes| && c.pipes[j].xfer == c.pipes[k].xfer ==>
          c.pipes[j].nic != c.pipes[k].nic)
    && (forall x :: 0 <= x < |c.reqs| ==>
          c.direct[x] != {} || exists k :: 0 <= k < |c.pipes| && c.pipes[k].xfer == x)
  }

  // A pipeline belongs to a PXN transfer; no chunk of it is longer than its proxy buffer.
  ghost predicate PipeOk(c: Config, p: PipeConfig)
    requires |c.pxn| == |c.direct| == |c.reqs|
  {
    && p.xfer < |c.reqs| && p.nic < c.nics && p.gpu < |c.bufSize|
    && c.pxn[p.xfer] && c.reqs[p.xfer].direction.Scatter?
    && p.nic !in c.direct[p.xfer]
    && ChunksFit(c.reqs[p.xfer], c.bufSize[p.gpu])
  }

  // A chunk is as long as the maximum allows, but no longer than its host's slice.
  ghost predicate ChunksFit(req: Request, size: nat) {
    req.max <= size || forall h :: 0 <= h < |req.lengths| ==> req.lengths[h] <= size
  }

  /* ---------- state ---------- */

  // A transfer is Waiting until its user starts it, Queued until the worker takes it up.
  // The worker lets go of it Finished or Failed.
  datatype Status = Waiting | Queued | Active | Finished | Failed

  datatype Xfer = Xfer(
    status: Status,
    next: nat,         // next_chunk_idx
    completed: nat,    // total_completed
    bytes: nat,        // per_nic_bytes, summed over the NICs
    failed: bool)      // an error was recorded

  // A chunk handed to the copy thread.
  datatype CopyingChunk = CopyingChunk(chunk: nat, id: nat, addr: nat, len: nat, flag: Option<nat>, received: bool)

  // One pipeline. posted and completed are the owner's counters for this pipeline's NIC.
  datatype Pipe = Pipe(
    pending: seq<nat>,
    copying: seq<CopyingChunk>,
    inflight: seq<nat>,
    snapshot: nat,
    assignedOut: nat,
    posted: nat,
    completed: nat)

  datatype CopyRequest = CopyRequest(src: Loc, dst: Loc, len: nat, id: nat)
  // A copy that was refused has no flag.
  datatype CopyResult = CopyResult(id: nat, flag: Option<nat>)
  datatype CopyThread = Looking | Popped(req: CopyRequest) | Pushing(res: CopyResult)

  // A copy in a GPU stream whose host callback has not run yet.
  datatype Job = Job(req: CopyRequest, flag: nat, landed: bool)

  // A work request: the fields its wr_id encodes, the pipeline it came through (proof's
  // record only), and the copy it asks for.
  datatype Wr = Wr(nic: nat, qp: nat, id: Cid, via: Option<nat>, src: Loc, dst: Loc, len: nat)

  // Where a chunk is. No step reads this: it is the proof's own record.
  datatype Blk = Blk(gpu: nat, off: nat, len: nat) {
    ghost predicate Apart(b: Blk) {
      gpu != b.gpu || off + len <= b.off || b.off + b.len <= off
    }
  }
  datatype Stage =
    | Pending(k: nat)
    | Copying(k: nat, id: nat, blk: Blk)
    | Posted(wr: Wr, held: Option<Blk>)
    | Done
    | Dropped(sent: bool)   // given up with its failed transfer, posted before or not

  // How far the copy of a request has come in the queues between worker and copy thread.
  datatype Where = InRequests | WithThread | WithResult | InResults | Received

  datatype Copy = Copy(cid: Cid, at: Where, flag: Option<nat>)

  datatype State = State(
    xs: seq<Xfer>,
    pipes: seq<Pipe>,
    bufs: seq<Offsets>,
    nextId: nat,
    reqQ: seq<CopyRequest>,
    ct: CopyThread,
    resQ: seq<CopyResult>,
    recycleQ: seq<nat>,
    pool: seq<nat>,
    flags: map<nat, bool>,       // the allocated flags and their values
    jobs: map<nat, Job>,         // by request id
    posted: set<Wr>,             // accepted by a NIC, data not moved yet
    executed: set<Wr>,           // data moved, completion not polled yet
    lost: set<Wr>,               // came back with an error (proof's record)
    flow: Counters,
    mem: Memory,
    base: seq<Memory>,           // what memory held when each transfer was started (proof's record)
    stage: map<Cid, Stage>,
    copies: map<nat, Copy>)      // by request id

  ghost function Init(c: Config, mem: Memory): State {
    State(seq(|c.reqs|, _ => Xfer(Waiting, 0, 0, 0, false)),
          seq(|c.pipes|, _ => Pipe([], [], [], 0, 0, 0, 0)),
          seq(|c.bufSize|, _ => Offsets(0, 0)),
          1, [], Looking, [], [], [], map[], map[], {}, {}, {},
          Idle(c.nics, c.qps), mem, seq(|c.reqs|, _ => mem), map[], map[])
  }

  ghost predicate Sized(c: Config, s: State) {
    && |s.xs| == |s.base| == |c.reqs|
    && |s.pipes| == |c.pipes|
    && |s.bufs| == |c.bufSize|
    && Shape(s.flow, c.nics, c.qps)
  }

  /* ---------- helpers of the guards ---------- */

  ghost function ActivePxn(c: Config, xs: seq<Xfer>): set<nat>
    requires |xs| == |c.pxn|
  {
    set x: nat | x < |xs| && c.pxn[x] && xs[x].status == Active
  }

  // Chunks of pipelines on NIC n that are assigned and not yet completed.
  ghost function AssignedOn(c: Config, pipes: seq<Pipe>, n: nat, upTo: nat): nat
    requires upTo <= |pipes| == |c.pipes|
  {
    if upTo == 0 then 0
    else AssignedOn(c, pipes, n, upTo - 1) + if c.pipes[upTo - 1].nic == n then pipes[upTo - 1].assignedOut else 0
  }

  // The load check of a proxy NIC: staged chunks weigh alpha, and the limit grows with the
  // number of active PXN transfers.
  ghost predicate ProxyRoom(c: Config, s: State, x: nat, n: nat)
    requires Sized(c, s) && |c.pxn| == |c.alpha| == |c.reqs| && x < |c.reqs| && n < c.nics
  {
    var rdma := NicOut(s.flow, n);
    var total := AssignedOn(c, s.pipes, n, |s.pipes|);
    var nvlink := if total > rdma then total - rdma else 0;
    var actives := |ActivePxn(c, s.xs)|;
    (nvlink as real * c.alpha[x] + rdma as real).Floor
      < c.MaxPerNic() + 2 * c.MaxPerNic() * (if actives == 0 then 1 else actives)
  }

  ghost predicate NicRoom(c: Config, f: Counters, n: nat, q: nat)
    requires Shape(f, c.nics, c.qps) && n < c.nics && q < c.qps
  {
    NicOut(f, n) < c.MaxPerNic() && QpOut(f, n, q) < c.maxPerQp
  }

  // Chunk j of the copying list of pipeline k waits for the result of request id.
  ghost predicate Awaits(s: State, k: nat, j: nat, id: nat) {
    && k < |s.pipes| && j < |s.pipes[k].copying|
    && s.pipes[k].copying[j].id == id && !s.pipes[k].copying[j].received
  }

  // The pipeline of transfer x on NIC n, found by a search over the pipelines.
  ghost function PipeOn(c: Config, x: nat, n: nat, upTo: nat): (r: Option<nat>)
    requires upTo <= |c.pipes|
    ensures r.Some? ==> r.value < upTo && c.pipes[r.value].xfer == x && c.pipes[r.value].nic == n
    ensures r.None? ==> forall k :: 0 <= k < upTo ==> c.pipes[k].xfer != x || c.pipes[k].nic != n
  {
    if upTo == 0 then None
    else if c.pipes[upTo - 1].xfer == x && c.pipes[upTo - 1].nic == n then Some(upTo - 1)
    else PipeOn(c, x, n, upTo - 1)
  }

  function SumUp(lens: seq<nat>): nat {
    if lens == [] then 0 else AlignUp(lens[0]) + SumUp(lens[1..])
  }

  // Give back the records lens one by one.
  ghost function FreeAll(o: Offsets, lens: seq<nat>): Offsets {
    o.(free := o.free + SumUp(lens))
  }

  function Min(a: int, b: int): int {
    if a < b then a else b
  }

  /* ---------- steps ---------- */

  datatype Step =
    | Begin(x: nat)                      // a user calls scatterAsync, gatherAsync, ...
    | UserWrite(at: Loc, value: Byte)    // any host's software writes a byte of its memory
    | Activate(x: nat)
    | PostDirect(x: nat, n: nat, q: nat)
    | AssignProxy(k: nat)
    | Submit(k: nat)
    | SubmitFull(k: nat)
    | Recycle
    | PopRequest
    | Launch(f: nat)
    | CopyFails                          // the GPU refuses the copy
    | Land(id: nat)
    | Callback(id: nat)
    | PushResult
    | Dispatch(k: nat, j: nat)
    | DropResult
    | Drain(k: nat)
    | PostProxy(k: nat, q: nat)
    | Execute(wr: Wr)
    | Poll(wr: Wr)
    | Cleanup(k: nat)
    | Finish(x: nat)
    | PostFails(x: nat, n: nat, q: nat)  // the NIC refuses a direct post
    | PostProxyFails(k: nat, q: nat)     // the NIC refuses a staged post
    | PollFails(wr: Wr)                  // a completion with an error
    | Fail(x: nat)                       // the worker lets go of a failed transfer
    | Reset(g: nat)

  ghost predicate Running(s: State, x: nat) {
    x < |s.xs| && s.xs[x].status == Active
  }

  // Started and not finished.
  ghost predicate Live(xs: seq<Xfer>, x: nat) {
    x < |xs| && (xs[x].status == Queued || xs[x].status == Active)
  }

  ghost predicate PipeRunning(c: Config, s: State, k: nat) {
    k < |c.pipes| && Running(s, c.pipes[k].xfer)
  }

  ghost predicate Enabled(c: Config, s: State, step: Step)
    requires ConfigOk(c) && Sized(c, s)
  {
    match step
    case Begin(x) => x < |s.xs| && s.xs[x].status == Waiting
    case UserWrite(at, _) => !at.Proxy?
    case Activate(x) =>
      x < |s.xs| && s.xs[x].status == Queued && (c.pxn[x] ==> |ActivePxn(c, s.xs)| < MAX_ACTIVE_PXN)
    case PostDirect(x, n, q) => CanPost(c, s, x, n, q)
    case AssignProxy(k) =>
      && PipeRunning(c, s, k) && s.xs[c.pipes[k].xfer].next < Total(c.reqs[c.pipes[k].xfer])
      && ProxyRoom(c, s, c.pipes[k].xfer, c.pipes[k].nic)
    case Submit(k) => CanSubmit(c, s, k) && |s.reqQ| < COPY_QUEUE_CAPACITY
    case SubmitFull(k) => CanSubmit(c, s, k) && |s.reqQ| == COPY_QUEUE_CAPACITY
    case Recycle => s.ct.Looking? && s.recycleQ != []
    case PopRequest => s.ct.Looking? && s.reqQ != []
    case Launch(f) =>
      && s.ct.Popped?
      && (if s.pool != [] then f == s.pool[|s.pool| - 1] else f !in s.flags)
    case CopyFails => s.ct.Popped?
    case Land(id) => id in s.jobs && !s.jobs[id].landed
    case Callback(id) => id in s.jobs && s.jobs[id].landed
    case PushResult => s.ct.Pushing? && |s.resQ| < COPY_QUEUE_CAPACITY
    case Dispatch(k, j) =>
      s.resQ != [] && PipeRunning(c, s, k) && Awaits(s, k, j, s.resQ[0].id)
    case DropResult =>
      s.resQ != [] && forall k: nat, j: nat :: PipeRunning(c, s, k) ==> !Awaits(s, k, j, s.resQ[0].id)
    case Drain(k) => PipeRunning(c, s, k)
    case PostProxy(k, q) => CanPostFront(c, s, k, q)
    case Execute(w) => w in s.posted
    case Poll(w) => w in s.executed && w.nic < c.nics && w.qp < c.qps
    case Cleanup(k) =>
      && PipeRunning(c, s, k) && !s.xs[c.pipes[k].xfer].failed
      && s.xs[c.pipes[k].xfer].completed >= Total(c.reqs[c.pipes[k].xfer])
    case Finish(x) =>
      && Running(s, x) && !s.xs[x].failed && s.xs[x].completed >= Total(c.reqs[x])
      && forall k :: 0 <= k < |c.pipes| && c.pipes[k].xfer == x ==> s.pipes[k].inflight == []
    case PostFails(x, n, q) => CanPost(c, s, x, n, q)
    case PostProxyFails(k, q) => CanPostFront(c, s, k, q)
    case PollFails(w) => w in s.posted + s.executed && w.nic < c.nics && w.qp < c.qps
    case Fail(x) => Running(s, x) && s.xs[x].failed
    case Reset(g) => g < |s.bufs|
  }

  // The next chunk of the transfer can go to queue pair q of NIC n without staging.
  ghost predicate CanPost(c: Config, s: State, x: nat, n: nat, q: nat)
    requires ConfigOk(c) && Sized(c, s)
  {
    && Running(s, x) && s.xs[x].next < Total(c.reqs[x])
    && n in c.direct[x] && q < c.qps && NicRoom(c, s.flow, n, q)
  }

  // The pipeline's front chunk is copied and can go to queue pair q.
  ghost predicate CanPostFront(c: Config, s: State, k: nat, q: nat)
    requires ConfigOk(c) && Sized(c, s)
  {
    && PipeRunning(c, s, k) && s.pipes[k].copying != []
    && s.pipes[k].copying[0].received && s.pipes[k].copying[0].flag.Some?
    && s.pipes[k].copying[0].flag.value in s.flags && s.flags[s.pipes[k].copying[0].flag.value]
    && q < c.qps && NicRoom(c, s.flow, c.pipes[k].nic, q)
  }

  ghost predicate CanSubmit(c: Config, s: State, k: nat)
    requires ConfigOk(c) && Sized(c, s)
  {
    && PipeRunning(c, s, k) && s.pipes[k].pending != []
    && TryAlloc(s.bufs[c.pipes[k].gpu], c.bufSize[c.pipes[k].gpu],
                ChunkAt(c.reqs[c.pipes[k].xfer], s.pipes[k].pending[0]).len).Some?
  }

  // The worker hands a used flag back; with the queue full it deletes the flag.
  ghost function GiveFlag(s: State, f: nat): State {
    if |s.recycleQ| < COPY_QUEUE_CAPACITY then s.(recycleQ := s.recycleQ + [f])
    else s.(flags := s.flags - {f})
  }

  ghost function GiveIf(s: State, f: Option<nat>): State {
    if f.Some? then GiveFlag(s, f.value) else s
  }

  ghost function Next(c: Config, s: State, step: Step): State
    requires ConfigOk(c) && Sized(c, s) && Enabled(c, s, step)
  {
    hide ProxyRoom, NicRoom, TryAlloc, ChunkAt;
    match step
    case Begin(x) => s.(xs := s.xs[x := s.xs[x].(status := Queued)], base := s.base[x := s.mem])
    case UserWrite(at, value) => s.(mem := Written(s.mem, at, value))
    case Activate(x) => s.(xs := s.xs[x := s.xs[x].(status := Active)])
    case PostDirect(x, n, q) => NextPostDirect(c, s, x, n, q)
    case AssignProxy(k) => NextAssignProxy(c, s, k)
    case Submit(k) => NextSubmit(c, s, k)
    case SubmitFull(k) => NextSubmitFull(c, s, k)
    case Recycle => s.(recycleQ := s.recycleQ[1..], pool := s.pool + [s.recycleQ[0]])
    case PopRequest =>
      var req := s.reqQ[0];
      s.(reqQ := s.reqQ[1..], ct := Popped(req), copies := Move(s.copies, req.id, WithThread))
    case Launch(f) => NextLaunch(s, f)
    case CopyFails =>
      s.(ct := Pushing(CopyResult(s.ct.req.id, None)), copies := Move(s.copies, s.ct.req.id, WithResult))
    case Land(id) =>
      var job := s.jobs[id];
      s.(jobs := s.jobs[id := job.(landed := true)], mem := Copied(s.mem, job.req.src, job.req.dst, job.req.len))
    case Callback(id) => s.(jobs := s.jobs - {id}, flags := s.flags[s.jobs[id].flag := true])
    case PushResult =>
      s.(ct := Looking, resQ := s.resQ + [s.ct.res], copies := Move(s.copies, s.ct.res.id, InResults))
    case Dispatch(k, j) => NextDispatch(c, s, k, j)
    case DropResult => GiveIf(s.(resQ := s.resQ[1..], copies := s.copies - {s.resQ[0].id}), s.resQ[0].flag)
    case Drain(k) => NextDrain(c, s, k)
    case PostProxy(k, q) => NextPostProxy(c, s, k, q)
    case Execute(w) =>
      s.(posted := s.posted - {w}, executed := s.executed + {w}, mem := Copied(s.mem, w.src, w.dst, w.len))
    case Poll(w) => NextPoll(c, s, w)
    case Cleanup(k) =>
      var p := s.pipes[k];
      var g := c.pipes[k].gpu;
      s.(pipes := s.pipes[k := p.(inflight := [])], bufs := s.bufs[g := FreeAll(s.bufs[g], p.inflight)])
    case Finish(x) => s.(xs := s.xs[x := s.xs[x].(status := Finished)])
    case PostFails(x, _, _) => s.(xs := Mark(s.xs, x))
    case PostProxyFails(k, _) => s.(xs := Mark(s.xs, c.pipes[k].xfer))
    case PollFails(w) =>
      s.(posted := s.posted - {w}, executed := s.executed - {w}, lost := s.lost + {w},
         flow := Complete(s.flow, w.nic, w.qp), xs := Mark(s.xs, w.id.x))
    case Fail(x) => NextFail(c, s, x)
    case Reset(g) => s.(bufs := s.bufs[g := Offsets(0, 0)])
  }

  // An error is recorded for transfer x.
  ghost function Mark(xs: seq<Xfer>, x: nat): seq<Xfer> {
    if x < |xs| then xs[x := xs[x].(failed := true)] else xs
  }

  ghost function Move(copies: map<nat, Copy>, id: nat, at: Where): map<nat, Copy> {
    if id in copies then copies[id := copies[id].(at := at)] else copies
  }

  ghost function NextPostDirect(c: Config, s: State, x: nat, n: nat, q: nat): State
    requires ConfigOk(c) && Sized(c, s) && Enabled(c, s, PostDirect(x, n, q))
  {
    var id := Cid(x, s.xs[x].next);
    var w := Wr(n, q, id, None, Src(c, id), Dst(c, id), Sge(Len(c, id)));
    s.(xs := s.xs[x := s.xs[x].(next := s.xs[x].next + 1, bytes := s.xs[x].bytes + Len(c, id))],
       posted := s.posted + {w},
       flow := Post(s.flow, n, q),
       stage := s.stage[id := Posted(w, None)])
  }

  ghost function NextAssignProxy(c: Config, s: State, k: nat): State
    requires ConfigOk(c) && Sized(c, s) && Enabled(c, s, AssignProxy(k))
  {
    var x := c.pipes[k].xfer;
    var p := s.pipes[k];
    s.(xs := s.xs[x := s.xs[x].(next := s.xs[x].next + 1)],
       pipes := s.pipes[k := p.(pending := p.pending + [s.xs[x].next], assignedOut := p.assignedOut + 1)],
       stage := s.stage[Cid(x, s.xs[x].next) := Pending(k)])
  }

  ghost function NextSubmit(c: Config, s: State, k: nat): State
    requires ConfigOk(c) && Sized(c, s) && CanSubmit(c, s, k)
  {
    var p := s.pipes[k];
    var g := c.pipes[k].gpu;
    var cid := Cid(c.pipes[k].xfer, p.pending[0]);
    var t := ChunkAt(c.reqs[cid.x], cid.i);
    var (o, off) := TryAlloc(s.bufs[g], c.bufSize[g], t.len).value;
    s.(pipes := s.pipes[k := p.(pending := p.pending[1..],
                                copying := p.copying + [CopyingChunk(cid.i, s.nextId, off, t.len, None, false)])],
       bufs := s.bufs[g := o],
       nextId := s.nextId + 1,
       reqQ := s.reqQ + [CopyRequest(Local(t.localAddr), Proxy(g, off), t.len, s.nextId)],
       stage := s.stage[cid := Copying(k, s.nextId, Blk(g, off, t.len))],
       copies := s.copies[s.nextId := Copy(cid, InRequests, None)])
  }

  // The request queue is full: the space just allocated is given back at once.
  ghost function NextSubmitFull(c: Config, s: State, k: nat): State
    requires ConfigOk(c) && Sized(c, s) && CanSubmit(c, s, k)
  {
    var g := c.pipes[k].gpu;
    var t := ChunkAt(c.reqs[c.pipes[k].xfer], s.pipes[k].pending[0]);
    var (o, _) := TryAlloc(s.bufs[g], c.bufSize[g], t.len).value;
    s.(bufs := s.bufs[g := Free(o, t.len)], nextId := s.nextId + 1)
  }

  ghost function NextLaunch(s: State, f: nat): State
    requires s.ct.Popped?
  {
    var req := s.ct.req;
    s.(ct := Pushing(CopyResult(req.id, Some(f))),
       pool := if s.pool != [] then s.pool[..|s.pool| - 1] else [],
       flags := s.flags[f := false],
       jobs := s.jobs[req.id := Job(req, f, false)],
       copies :=
         if req.id in s.copies then s.copies[req.id := Copy(s.copies[req.id].cid, WithResult, Some(f))]
         else s.copies)
  }

  // The result reaches its chunk. That of a refused copy records an error.
  ghost function NextDispatch(c: Config, s: State, k: nat, j: nat): State
    requires s.resQ != [] && k < |s.pipes| && k < |c.pipes| && j < |s.pipes[k].copying|
  {
    var p := s.pipes[k];
    s.(xs := if s.resQ[0].flag.None? then Mark(s.xs, c.pipes[k].xfer) else s.xs,
       resQ := s.resQ[1..],
       pipes := s.pipes[k := p.(copying :=
                           p.copying[j := p.copying[j].(flag := s.resQ[0].flag, received := true)])],
       copies := Move(s.copies, s.resQ[0].id, Received))
  }

  // How many records the drain gives back: one for each completion it had not seen. The
  // subtraction would wrap if the snapshot were ahead; the invariant says that it never is.
  ghost function DrainCount(p: Pipe): nat {
    if p.completed < p.snapshot then |p.inflight| else Min(p.completed - p.snapshot, |p.inflight|)
  }

  ghost function NextDrain(c: Config, s: State, k: nat): State
    requires ConfigOk(c) && Sized(c, s) && k < |c.pipes|
  {
    var p := s.pipes[k];
    var g := c.pipes[k].gpu;
    var n := DrainCount(p);
    s.(pipes := s.pipes[k := p.(inflight := p.inflight[n..], snapshot := p.completed)],
       bufs := s.bufs[g := FreeAll(s.bufs[g], p.inflight[..n])])
  }

  ghost function ProxyWr(c: Config, s: State, k: nat, q: nat): Wr
    requires ConfigOk(c) && Sized(c, s) && k < |c.pipes| && s.pipes[k].copying != []
  {
    var cc := s.pipes[k].copying[0];
    var req := c.reqs[c.pipes[k].xfer];
    Wr(c.pipes[k].nic, q, Cid(c.pipes[k].xfer, cc.chunk), Some(k),
       Proxy(c.pipes[k].gpu, cc.addr), ChunkDst(req, cc.chunk), Sge(ChunkAt(req, cc.chunk).len))
  }

  ghost function NextPostProxy(c: Config, s: State, k: nat, q: nat): State
    requires ConfigOk(c) && Sized(c, s) && Enabled(c, s, PostProxy(k, q))
  {
    var p := s.pipes[k];
    var x := c.pipes[k].xfer;
    var cc := p.copying[0];
    var w := ProxyWr(c, s, k, q);
    GiveFlag(
      s.(xs := s.xs[x := s.xs[x].(bytes := s.xs[x].bytes + ChunkAt(c.reqs[x], cc.chunk).len)],
         pipes := s.pipes[k := p.(copying := p.copying[1..], inflight := p.inflight + [cc.len],
                                  posted := p.posted + 1)],
         posted := s.posted + {w},
         flow := Post(s.flow, w.nic, q),
         stage := s.stage[w.id := Posted(w, Some(Blk(c.pipes[k].gpu, cc.addr, cc.len)))],
         copies := s.copies - {cc.id}),
      cc.flag.value)
  }

  ghost function CountDone(xs: seq<Xfer>, x: nat): seq<Xfer> {
    if x < |xs| then xs[x := xs[x].(completed := xs[x].completed + 1)] else xs
  }

  // The pipeline that the search by NIC finds gets the completion, with a guarded decrement.
  ghost function CreditPipe(c: Config, pipes: seq<Pipe>, x: nat, n: nat): seq<Pipe>
    requires |pipes| == |c.pipes|
  {
    var k := PipeOn(c, x, n, |c.pipes|);
    if k.None? then pipes
    else
      var p := pipes[k.value];
      pipes[k.value := p.(completed := p.completed + 1,
                          assignedOut := if p.assignedOut > 0 then p.assignedOut - 1 else 0)]
  }

  ghost function NextPoll(c: Config, s: State, w: Wr): State
    requires ConfigOk(c) && Sized(c, s) && Enabled(c, s, Poll(w))
  {
    s.(executed := s.executed - {w},
       flow := Complete(s.flow, w.nic, w.qp),
       stage := s.stage[w.id := Done],
       xs := CountDone(s.xs, w.id.x),
       pipes := CreditPipe(c, s.pipes, w.id.x, w.nic))
  }

  /* ---------- a failed transfer is let go ---------- */

  // The flags of the chunks whose result has come, given back one by one.
  ghost function GiveAll(s: State, cs: seq<CopyingChunk>): (s': State)
    ensures s' == s.(flags := s'.flags, recycleQ := s'.recycleQ, copies := s'.copies)
    decreases |cs|
  {
    if cs == [] then s
    else
      GiveAll(if cs[0].received then GiveIf(s.(copies := s.copies - {cs[0].id}), cs[0].flag) else s, cs[1..])
  }

  function CopyingLens(copying: seq<CopyingChunk>): seq<nat> {
    seq(|copying|, j requires 0 <= j < |copying| => copying[j].len)
  }

  const NO_CHUNKS: Pipe := Pipe([], [], [], 0, 0, 0, 0)

  // The pipelines of transfer x below n: the space of every chunk that is being copied and
  // of every record is given back, and so is every flag. Nothing reads such a pipeline
  // afterwards; the model shows it empty.
  ghost function Abandon(c: Config, s: State, x: nat, n: nat): (s': State)
    requires ConfigOk(c) && Sized(c, s) && n <= |c.pipes|
    ensures Sized(c, s')
    ensures s' == s.(bufs := s'.bufs, pipes := s'.pipes, flags := s'.flags, recycleQ := s'.recycleQ,
                     copies := s'.copies)
  {
    if n == 0 then s
    else
      var r := Abandon(c, s, x, n - 1);
      if c.pipes[n - 1].xfer != x then r
      else
        assert PipeOk(c, c.pipes[n - 1]);
        var p, g := r.pipes[n - 1], c.pipes[n - 1].gpu;
        GiveAll(r.(bufs := r.bufs[g := FreeAll(FreeAll(r.bufs[g], CopyingLens(p.copying)), p.inflight)],
                   pipes := r.pipes[n - 1 := NO_CHUNKS]),
                p.copying)
  }

  ghost predicate GivenUp(st: Stage, lost: set<Wr>) {
    st.Pending? || st.Copying? || (st.Posted? && st.wr in lost)
  }

  // Chunks not posted, and those whose work request was lost, are given up. Work requests
  // still with a NIC stay with it.
  ghost function DropStages(stage: map<Cid, Stage>, lost: set<Wr>, x: nat): map<Cid, Stage> {
    map id | id in stage ::
      if id.x == x && GivenUp(stage[id], lost) then Dropped(stage[id].Posted?) else stage[id]
  }

  ghost function NextFail(c: Config, s: State, x: nat): State
    requires ConfigOk(c) && Sized(c, s) && Running(s, x)
  {
    Abandon(c, s, x, |c.pipes|).(
      xs := s.xs[x := s.xs[x].(status := Failed)],
      stage := DropStages(s.stage, s.lost, x),
      lost := set w | w in s.lost && w.id.x != x)
  }

  /* ---------- runs ---------- */

  ghost predicate IsRun(c: Config, s: State, steps: seq<Step>)
    requires ConfigOk(c)
    decreases |steps|
  {
    steps == [] || (Sized(c, s) && Enabled(c, s, steps[0]) && IsRun(c, Next(c, s, steps[0]), steps[1..]))
  }

  ghost function After(c: Config, s: State, steps: seq<Step>): State
    requires ConfigOk(c) && IsRun(c, s, steps)
    decreases |steps|
  {
    if steps == [] then s else After(c, Next(c, s, steps[0]), steps[1..])
  }

  // The callback of every copy that transfer x has handed to the copy thread has run.
  ghost predicate CalledBack(c: Config, s: State, x: nat) {
    forall k, j :: 0 <= k < |s.pipes| && k < |c.pipes| && c.pipes[k].xfer == x && 0 <= j < |s.pipes[k].copying| ==>
      Launched(s, s.pipes[k].copying[j].id) && s.pipes[k].copying[j].id !in s.jobs
  }

  ghost predicate Launched(s: State, id: nat) {
    id in s.copies && LaunchedAt(s.copies[id].at)
  }

  predicate LaunchedAt(at: Where) {
    at == WithResult || at == InResults || at == Received
  }

  // And every work request of its pipelines has come back.
  ghost predicate Quiet(c: Config, s: State, x: nat) {
    && CalledBack(c, s, x)
    && forall w :: w in s.posted + s.executed && w.id.x == x ==> w.via.None?
  }

  // Two things depend on what else is under way. A started transfer resets the allocators of
  // its pipelines' buffers, whoever uses them; and a failed transfer is cleaned up at once.
  ghost predicate InOrder(c: Config, s: State, step: Step) {
    && (step.Reset? && step.g < |s.bufs| ==> s.bufs[step.g].free >= s.bufs[step.g].alloc)
    && (step.Fail? ==> Quiet(c, s, step.x))
  }

  // No allocator of the run is reset before its totals have met, and no failed transfer is
  // let go with anything of its pipelines under way.
  ghost predicate AllInOrder(c: Config, s: State, steps: seq<Step>)
    requires ConfigOk(c) && IsRun(c, s, steps)
    decreases |steps|
  {
    steps == [] || (InOrder(c, s, steps[0]) && AllInOrder(c, Next(c, s, steps[0]), steps[1..]))
  }

  /* ---------- what a user keeps to ---------- */

  ghost predicate InSrc(req: Request, l: Loc)
    requires WellFormed(req)
  {
    exists h: nat, o: nat :: h < |req.lengths| && o < req.lengths[h] && l == SliceSrc(req, h, o)
  }

  // Nothing that one of the two transfers writes is read or written by the other.
  ghost predicate TransfersApart(r: Request, q: Request)
    requires WellFormed(r) && WellFormed(q)
  {
    && (forall l: Loc :: InDst(r, l) ==> !InDst(q, l) && !InSrc(q, l))
    && (forall l: Loc :: InDst(q, l) ==> !InSrc(r, l))
  }

  // Work requests of transfer y may still write: it runs, or it failed and some of its work
  // requests have not come back.
  ghost predicate Busy(xs: seq<Xfer>, posted: set<Wr>, y: nat) {
    y < |xs| && (Live(xs, y) || exists w :: w in posted && w.id.x == y)
  }

  // A transfer is started only apart from those that may still write; while it runs nobody
  // writes its source or its destination.
  ghost predicate Careful(c: Config, s: State, step: Step)
    requires ConfigOk(c) && Sized(c, s)
  {
    match step
    case Begin(x) =>
      x < |c.reqs| ==>
        && DisjointDst(c.reqs[x])
        && forall y: nat :: Busy(s.xs, s.posted, y) && y != x ==> TransfersApart(c.reqs[x], c.reqs[y])
    case UserWrite(at, _) => forall y: nat :: Live(s.xs, y) ==> !InDst(c.reqs[y], at) && !InSrc(c.reqs[y], at)
    case _ => true
  }

  ghost predicate AllCareful(c: Config, s: State, steps: seq<Step>)
    requires ConfigOk(c) && IsRun(c, s, steps)
    decreases |steps|
  {
    steps == [] || (Careful(c, s, steps[0]) && AllCareful(c, Next(c, s, steps[0]), steps[1..]))
  }
}

/** What holds in every reachable state of the data plane, one predicate for each concern.
    Each takes only the parts of the state that it speaks about. */
module PxnInvariant {
  import opened Chunks
  import opened Layout
  import opened ProxyBuffer
  import opened FlowControl
  import opened PxnModel

  /* ---------- transfers ---------- */

  ghost function DoneOf(stage: map<Cid, Stage>, x: nat): set<Cid> {
    set id | id in stage && id.x == x && stage[id].Done?
  }

  // Chunks are handed out in index order; the completion counter counts the done ones.
  ghost predicate XfersOk(c: Config, xs: seq<Xfer>, stage: map<Cid, Stage>) {
    && |xs| == |c.reqs|
    && (forall id: Cid :: id in stage <==> id.x < |xs| && id.i < xs[id.x].next)
    && (forall x :: 0 <= x < |xs| ==> XferOk(c, xs[x], x, stage))
  }

  // The worker has not taken the transfer up.
  predicate Early(status: Status) {
    status == Waiting || status == Queued
  }

  ghost predicate XferOk(c: Config, t: Xfer, x: nat, stage: map<Cid, Stage>) {
    && x < |c.reqs| && c.reqs[x].max > 0
    && t.next <= Total(c.reqs[x])
    && t.completed == |DoneOf(stage, x)|
    && (Early(t.status) ==> t.next == 0 && !t.failed)
    && (t.status == Finished ==> t.completed >= Total(c.reqs[x]))
    && (t.status == Failed ==> t.failed)
    && (forall id :: id in stage && id.x == x ==> StatusFits(t.status, stage[id]))
  }

  // Chunks are dropped with their transfer, which then has none in a list.
  ghost predicate StatusFits(status: Status, st: Stage) {
    if status == Failed then !st.Pending? && !st.Copying? else !st.Dropped?
  }

  /* ---------- pipelines ---------- */

  ghost predicate IsPending(stage: map<Cid, Stage>, id: Cid, k: nat) {
    id in stage && stage[id] == Pending(k)
  }

  // The pending lists hold exactly the chunks whose stage says so, each once.
  ghost predicate PendingOk(c: Config, pipes: seq<Pipe>, stage: map<Cid, Stage>) {
    && |pipes| == |c.pipes|
    && (forall k, j :: 0 <= k < |pipes| && 0 <= j < |pipes[k].pending| ==>
          IsPending(stage, Cid(c.pipes[k].xfer, pipes[k].pending[j]), k))
    && (forall k, i, j :: 0 <= k < |pipes| && 0 <= i < j < |pipes[k].pending| ==>
          pipes[k].pending[i] != pipes[k].pending[j])
    && (forall id :: id in stage && stage[id].Pending? ==>
          stage[id].k < |pipes| && c.pipes[stage[id].k].xfer == id.x && id.i in pipes[stage[id].k].pending)
  }

  ghost predicate EntryOk(c: Config, k: nat, cc: CopyingChunk, stage: map<Cid, Stage>, copies: map<nat, Copy>)
    requires k < |c.pipes|
  {
    var id := Cid(c.pipes[k].xfer, cc.chunk);
    && cc.id in copies && copies[cc.id].cid == id
    && id in stage && stage[id] == Copying(k, cc.id, Blk(c.pipes[k].gpu, cc.addr, cc.len))
    && (cc.received <==> copies[cc.id].at == Received)
    && cc.flag == if cc.received then copies[cc.id].flag else None
  }

  ghost predicate InCopying(pipes: seq<Pipe>, k: nat, id: nat) {
    k < |pipes| && exists j :: 0 <= j < |pipes[k].copying| && pipes[k].copying[j].id == id
  }

  // The copying lists hold exactly the outstanding copies but for orphans, in the order of
  // their ids.
  ghost predicate CopyingOk(c: Config, pipes: seq<Pipe>, stage: map<Cid, Stage>, copies: map<nat, Copy>, nextId: nat) {
    && |pipes| == |c.pipes|
    && (forall k, j :: 0 <= k < |pipes| && 0 <= j < |pipes[k].copying| ==>
          EntryOk(c, k, pipes[k].copying[j], stage, copies))
    && (forall k, i, j :: 0 <= k < |pipes| && 0 <= i < j < |pipes[k].copying| ==>
          pipes[k].copying[i].id < pipes[k].copying[j].id)
    && (forall id :: id in copies ==> id < nextId && CopyOk(pipes, stage, copies, id))
    && (forall cid :: cid in stage && stage[cid].Copying? ==>
          stage[cid].id in copies && copies[stage[cid].id].cid == cid)
  }

  // A copy whose chunk was dropped: its callback has run, and its result is on its way.
  ghost predicate Orphan(stage: map<Cid, Stage>, copies: map<nat, Copy>, id: nat)
    requires id in copies
  {
    && copies[id].cid in stage && stage[copies[id].cid].Dropped?
    && Returning(copies[id].at)
  }

  predicate Returning(at: Where) {
    at == WithResult || at == InResults
  }

  ghost predicate CopyOk(pipes: seq<Pipe>, stage: map<Cid, Stage>, copies: map<nat, Copy>, id: nat)
    requires id in copies
  {
    var cid := copies[id].cid;
    || Orphan(stage, copies, id)
    || (cid in stage && stage[cid].Copying? && stage[cid].id == id && InCopying(pipes, stage[cid].k, id))
  }

  // A staged chunk is a chunk of a PXN transfer, its block is on the pipeline's GPU and as
  // long as the chunk.
  ghost predicate StageOk(c: Config, id: Cid, st: Stage) {
    && ValidCid(c, id)
    && match st
       case Pending(k) => k < |c.pipes| && c.pipes[k].xfer == id.x
       case Copying(k, _, b) =>
         k < |c.pipes| && c.pipes[k].xfer == id.x && b.gpu == c.pipes[k].gpu && b.len == Len(c, id)
       case Posted(w, held) => w.id == id && WrOk(c, w, held)
       case _ => true
  }

  ghost predicate WrOk(c: Config, w: Wr, held: Option<Blk>)
    requires ValidCid(c, w.id)
  {
    && w.nic < c.nics && w.qp < c.qps && w.dst == Dst(c, w.id) && w.len == Len(c, w.id)
    && w.id.x < |c.direct|
    && match w.via
       case None => w.nic in c.direct[w.id.x] && w.src == Src(c, w.id) && held.None?
       case Some(k) =>
         && k < |c.pipes| && c.pipes[k].xfer == w.id.x && c.pipes[k].nic == w.nic
         && held.Some? && held.value.gpu == c.pipes[k].gpu && held.value.len == w.len
         && w.src == Proxy(held.value.gpu, held.value.off)
  }

  ghost predicate StagesOk(c: Config, stage: map<Cid, Stage>) {
    forall id :: id in stage ==> StageOk(c, id, stage[id])
  }

  /* ---------- the copy thread's queues ---------- */

  // The request carries what the chunk's stage says, and its copy is at the given place.
  ghost predicate RequestOk(c: Config, req: CopyRequest, at: Where, stage: map<Cid, Stage>, copies: map<nat, Copy>) {
    && req.id in copies && copies[req.id].at == at && copies[req.id].flag.None?
    && RequestFields(c, req, copies[req.id].cid, stage)
  }

  ghost predicate RequestFields(c: Config, req: CopyRequest, cid: Cid, stage: map<Cid, Stage>) {
    && cid in stage && stage[cid].Copying? && ValidCid(c, cid)
    && req.src == Src(c, cid) && req.len == Len(c, cid)
    && req.dst == Proxy(stage[cid].blk.gpu, stage[cid].blk.off)
  }

  ghost predicate ResultOk(res: CopyResult, at: Where, copies: map<nat, Copy>) {
    res.id in copies && copies[res.id].at == at && copies[res.id].flag == res.flag
  }

  ghost predicate RequestsOk(c: Config, reqQ: seq<CopyRequest>, stage: map<Cid, Stage>, copies: map<nat, Copy>) {
    && (forall j :: 0 <= j < |reqQ| ==> RequestOk(c, reqQ[j], InRequests, stage, copies))
    && (forall i, j :: 0 <= i < j < |reqQ| ==> reqQ[i].id != reqQ[j].id)
    && (forall id :: id in copies && copies[id].at == InRequests ==> InRequestQ(reqQ, id))
  }

  ghost predicate InRequestQ(reqQ: seq<CopyRequest>, id: nat) {
    exists j :: 0 <= j < |reqQ| && reqQ[j].id == id
  }

  ghost predicate ThreadOk(c: Config, ct: CopyThread, stage: map<Cid, Stage>, copies: map<nat, Copy>) {
    && (ct.Popped? ==> RequestOk(c, ct.req, WithThread, stage, copies))
    && (ct.Pushing? ==> ResultOk(ct.res, WithResult, copies))
    && (forall id :: id in copies && copies[id].at == WithThread ==> ct.Popped? && ct.req.id == id)
    && (forall id :: id in copies && copies[id].at == WithResult ==> ct.Pushing? && ct.res.id == id)
  }

  ghost predicate ResultsOk(resQ: seq<CopyResult>, copies: map<nat, Copy>) {
    && (forall j :: 0 <= j < |resQ| ==> ResultOk(resQ[j], InResults, copies))
    && (forall i, j :: 0 <= i < j < |resQ| ==> resQ[i].id != resQ[j].id)
    && (forall id :: id in copies && copies[id].at == InResults ==> InResultQ(resQ, id))
  }

  ghost predicate InResultQ(resQ: seq<CopyResult>, id: nat) {
    exists j :: 0 <= j < |resQ| && resQ[j].id == id
  }

  /* ---------- flags ---------- */

  ghost predicate InUse(copies: map<nat, Copy>, id: nat) {
    id in copies && LaunchedAt(copies[id].at) && copies[id].flag.Some?
  }

  ghost predicate WithCopy(copies: map<nat, Copy>, f: nat) {
    exists id: nat :: InUse(copies, id) && copies[id].flag.value == f
  }

  // A flag lives in exactly one place: with one launched copy, in the recycle queue, or in
  // the pool. It is true exactly when the callback of its copy has run.
  ghost predicate FlagsOk(copies: map<nat, Copy>, jobs: map<nat, Job>, flags: map<nat, bool>, pool: seq<nat>,
                          recycleQ: seq<nat>) {
    && UsedFlagsOk(copies, jobs, flags, pool, recycleQ)
    && FreeFlagsOk(flags, pool, recycleQ)
    && NoneLost(copies, flags, pool, recycleQ)
  }

  ghost predicate UsedFlagsOk(copies: map<nat, Copy>, jobs: map<nat, Job>, flags: map<nat, bool>,
                              pool: seq<nat>, recycleQ: seq<nat>)
  {
    && (forall id :: InUse(copies, id) ==>
          && copies[id].flag.value in flags && copies[id].flag.value !in pool && copies[id].flag.value !in recycleQ
          && (flags[copies[id].flag.value] <==> id !in jobs))
    && (forall id, other :: InUse(copies, id) && InUse(copies, other) && id != other ==>
          copies[id].flag.value != copies[other].flag.value)
    && (forall id :: id in jobs ==> InUse(copies, id) && jobs[id].flag == copies[id].flag.value)
  }

  ghost predicate NoneLost(copies: map<nat, Copy>, flags: map<nat, bool>, pool: seq<nat>, recycleQ: seq<nat>) {
    forall f :: f in flags ==> f in pool || f in recycleQ || WithCopy(copies, f)
  }

  ghost predicate FreeFlagsOk(flags: map<nat, bool>, pool: seq<nat>, recycleQ: seq<nat>) {
    && (forall i :: 0 <= i < |pool| ==> pool[i] in flags && pool[i] !in recycleQ)
    && (forall i :: 0 <= i < |recycleQ| ==> recycleQ[i] in flags)
    && (forall i, j :: 0 <= i < j < |pool| ==> pool[i] != pool[j])
    && (forall i, j :: 0 <= i < j < |recycleQ| ==> recycleQ[i] != recycleQ[j])
  }

  ghost predicate JobsOk(c: Config, jobs: map<nat, Job>, stage: map<Cid, Stage>, copies: map<nat, Copy>) {
    forall id :: id in jobs ==>
      id in copies && jobs[id].req.id == id && RequestFields(c, jobs[id].req, copies[id].cid, stage)
  }

  /* ---------- work requests ---------- */

  ghost predicate WrsOk(posted: set<Wr>, executed: set<Wr>, stage: map<Cid, Stage>) {
    && posted !! executed
    && (forall w :: w in posted + executed ==> w.id in stage && stage[w.id].Posted? && stage[w.id].wr == w)
    && (forall id :: id in stage && stage[id].Posted? ==>
          stage[id].wr in posted + executed && stage[id].wr.id == id)
  }

  // Work requests that came back with an error belong to transfers that record it.
  ghost predicate LostOk(xs: seq<Xfer>, executed: set<Wr>, lost: set<Wr>) {
    && lost !! executed
    && forall w :: w in lost ==> w.id.x < |xs| && xs[w.id.x].failed
  }

  // So does the transfer of a chunk whose copy was refused.
  ghost predicate RefusedOk(c: Config, pipes: seq<Pipe>, xs: seq<Xfer>) {
    && |pipes| == |c.pipes|
    && forall k, j :: 0 <= k < |pipes| && 0 <= j < |pipes[k].copying| && Refused(pipes[k].copying[j]) ==>
         c.pipes[k].xfer < |xs| && xs[c.pipes[k].xfer].failed
  }

  predicate Refused(cc: CopyingChunk) {
    cc.received && cc.flag.None?
  }

  ghost function OnQp(wrs: set<Wr>, n: nat, q: nat): set<Wr> {
    set w | w in wrs && w.nic == n && w.qp == q
  }

  ghost predicate FlowOk(c: Config, flow: Counters, wrs: set<Wr>) {
    && Balanced(flow, c.nics, c.qps, c.maxPerQp)
    && forall n, q :: 0 <= n < c.nics && 0 <= q < c.qps ==> QpOut(flow, n, q) == |OnQp(wrs, n, q)|
  }

  ghost function Via(wrs: set<Wr>, k: nat): set<Wr> {
    set w | w in wrs && w.via == Some(k)
  }

  // The counters of one pipeline. Its records not yet given back are its completions not
  // yet seen plus what is still outstanding, until the transfer's cleanup gives back all.
  ghost predicate CountsOk(c: Config, pipes: seq<Pipe>, xs: seq<Xfer>, wrs: set<Wr>) {
    && |pipes| == |c.pipes| && |xs| == |c.reqs|
    && forall k :: 0 <= k < |pipes| ==> CountOk(c, pipes[k], k, xs, wrs)
  }

  ghost predicate CountOk(c: Config, p: Pipe, k: nat, xs: seq<Xfer>, wrs: set<Wr>)
    requires k < |c.pipes|
  {
    && p.posted == p.completed + |Via(wrs, k)|
    && p.snapshot <= p.completed
    && p.assignedOut == |p.pending| + |p.copying| + |Via(wrs, k)|
    && (|p.inflight| == p.posted - p.snapshot || (p.inflight == [] && AllDone(c, xs, c.pipes[k].xfer)))
    && (HasFailed(xs, c.pipes[k].xfer) ==> p == NO_CHUNKS)
  }

  ghost predicate HasFailed(xs: seq<Xfer>, x: nat) {
    x < |xs| && xs[x].status == Failed
  }

  ghost predicate AllDone(c: Config, xs: seq<Xfer>, x: nat) {
    x < |xs| && x < |c.reqs| && c.reqs[x].max > 0 && xs[x].completed >= Total(c.reqs[x])
  }

  /* ---------- proxy buffers ---------- */

  // What pipeline k has taken from its buffer and not yet given back.
  ghost function Owed(p: Pipe): nat {
    SumUp(CopyingLens(p.copying)) + SumUp(p.inflight)
  }

  ghost function OwedOn(c: Config, pipes: seq<Pipe>, g: nat, upTo: nat): nat
    requires upTo <= |pipes| == |c.pipes|
  {
    if upTo == 0 then 0
    else OwedOn(c, pipes, g, upTo - 1) + if c.pipes[upTo - 1].gpu == g then Owed(pipes[upTo - 1]) else 0
  }

  ghost predicate BufOk(o: Offsets, size: nat, owed: nat) {
    && RealSize(size) && o.alloc % ALIGNMENT == 0 && o.alloc < size + ALIGNMENT
    && o.free <= o.alloc && o.alloc - o.free == owed
  }

  ghost predicate BufsOk(c: Config, pipes: seq<Pipe>, bufs: seq<Offsets>) {
    && |bufs| == |c.bufSize| && |pipes| == |c.pipes|
    && forall g :: 0 <= g < |bufs| ==> BufOk(bufs[g], c.bufSize[g], OwedOn(c, pipes, g, |pipes|))
  }

  // Every record is a chunk's length.
  ghost predicate RecordsOk(c: Config, pipes: seq<Pipe>) {
    && |pipes| == |c.pipes|
    && forall k, j :: 0 <= k < |pipes| && 0 <= j < |pipes[k].inflight| ==>
         pipes[k].inflight[j] >= 1 && pipes[k].inflight[j] + 255 < WORD
  }

  // The block of proxy memory that a chunk occupies: from the moment its copy is submitted
  // until its RDMA is known to be complete.
  ghost function Held(st: Stage): Option<Blk> {
    match st
    case Copying(_, _, b) => Some(b)
    case Posted(_, held) => held
    case _ => None
  }

  ghost predicate Holds(stage: map<Cid, Stage>, id: Cid) {
    id in stage && Held(stage[id]).Some?
  }

  ghost predicate BlkOk(c: Config, b: Blk, bufs: seq<Offsets>) {
    && b.gpu < |bufs| && b.gpu < |c.bufSize|
    && 1 <= b.len
    && b.off + AlignUp(b.len) <= bufs[b.gpu].alloc
    && b.off + b.len <= c.bufSize[b.gpu]
  }

  // Occupied blocks are in bounds and no two overlap.
  ghost predicate BlocksOk(c: Config, bufs: seq<Offsets>, stage: map<Cid, Stage>) {
    && (forall id :: Holds(stage, id) ==> BlkOk(c, Held(stage[id]).value, bufs))
    && (forall id, other :: Holds(stage, id) && Holds(stage, other) && id != other ==>
          Held(stage[id]).value.Apart(Held(stage[other]).value))
  }

  /* ---------- data ---------- */

  // The bytes at l are those of the chunk's source in memory m0.
  ghost predicate Carries(c: Config, m0: Memory, m: Memory, id: Cid, l: Loc)
    requires ValidCid(c, id)
  {
    forall o: nat :: o < Len(c, id) ==> m(l.Plus(o)) == m0(Src(c, id).Plus(o))
  }

  // What memory held when transfer x was started.
  ghost function BaseOf(base: seq<Memory>, x: nat): Memory {
    if x < |base| then base[x] else (l: Loc) => 0
  }

  // The source of a running transfer is as it was.
  ghost predicate SourcesKept(c: Config, base: seq<Memory>, m: Memory, xs: seq<Xfer>) {
    forall id: Cid :: ValidCid(c, id) && Live(xs, id.x) ==> Carries(c, BaseOf(base, id.x), m, id, Src(c, id))
  }

  ghost predicate LandedCopy(copies: map<nat, Copy>, jobs: map<nat, Job>, id: nat) {
    InUse(copies, id) && (id !in jobs || jobs[id].landed)
  }

  ghost predicate LoadedCopy(stage: map<Cid, Stage>, copies: map<nat, Copy>, jobs: map<nat, Job>, id: nat) {
    LandedCopy(copies, jobs, id) && !Orphan(stage, copies, id)
  }

  ghost predicate BlockLoaded(c: Config, base: seq<Memory>, m: Memory, id: Cid, b: Blk)
    requires ValidCid(c, id)
  {
    Carries(c, BaseOf(base, id.x), m, id, Proxy(b.gpu, b.off))
  }

  // A landed copy has filled its block, unless its chunk was dropped.
  ghost predicate CopiesLoaded(c: Config, base: seq<Memory>, m: Memory,
                               stage: map<Cid, Stage>, copies: map<nat, Copy>, jobs: map<nat, Job>)
  {
    forall id :: LoadedCopy(stage, copies, jobs, id) ==>
      && copies[id].cid in stage && stage[copies[id].cid].Copying? && ValidCid(c, copies[id].cid)
      && BlockLoaded(c, base, m, copies[id].cid, stage[copies[id].cid].blk)
  }

  // A work request through a pipeline reads a filled block.
  ghost predicate PostedLoaded(c: Config, base: seq<Memory>, m: Memory, stage: map<Cid, Stage>) {
    forall id :: id in stage && stage[id].Posted? && stage[id].held.Some? ==>
      ValidCid(c, id) && BlockLoaded(c, base, m, id, stage[id].held.value)
  }

  ghost predicate Arrived(stage: map<Cid, Stage>, executed: set<Wr>, id: Cid) {
    id in stage && (stage[id].Done? || (stage[id].Posted? && stage[id].wr in executed))
  }

  // While its transfer runs, an executed chunk's destination holds its bytes.
  ghost predicate DeliveredOk(c: Config, base: seq<Memory>, m: Memory, xs: seq<Xfer>,
                              stage: map<Cid, Stage>, executed: set<Wr>)
  {
    forall id :: Arrived(stage, executed, id) && Live(xs, id.x) ==>
      ValidCid(c, id) && Carries(c, BaseOf(base, id.x), m, id, Dst(c, id))
  }

  /* ---------- all together ---------- */

  // Work requests that have come back one way or the other, and all.
  ghost function Back(s: State): set<Wr> {
    s.executed + s.lost
  }

  ghost function Wrs(s: State): set<Wr> {
    s.posted + Back(s)
  }

  // Transfers, lists, queues, flags and work requests. No reset disturbs this.
  ghost predicate Core(c: Config, s: State) {
    && ConfigOk(c) && Sized(c, s)
    && XfersOk(c, s.xs, s.stage)
    && StagesOk(c, s.stage)
    && PendingOk(c, s.pipes, s.stage)
    && CopyingOk(c, s.pipes, s.stage, s.copies, s.nextId)
    && RequestsOk(c, s.reqQ, s.stage, s.copies)
    && ThreadOk(c, s.ct, s.stage, s.copies)
    && ResultsOk(s.resQ, s.copies)
    && FlagsOk(s.copies, s.jobs, s.flags, s.pool, s.recycleQ)
    && JobsOk(c, s.jobs, s.stage, s.copies)
    && WrsOk(s.posted, Back(s), s.stage)
    && LostOk(s.xs, s.executed, s.lost)
    && RefusedOk(c, s.pipes, s.xs)
    && FlowOk(c, s.flow, s.posted + s.executed)
  }

  // The counters of the pipelines and the proxy buffers.
  ghost predicate Books(c: Config, s: State) {
    && CountsOk(c, s.pipes, s.xs, Wrs(s))
    && RecordsOk(c, s.pipes)
    && BufsOk(c, s.pipes, s.bufs)
    && BlocksOk(c, s.bufs, s.stage)
  }

  ghost predicate Inv(c: Config, s: State) {
    Core(c, s) && Books(c, s)
  }

  ghost predicate RangesApart(a: Loc, n: nat, b: Loc, m: nat) {
    forall o: nat :: o < m ==> !a.Range(n, b.Plus(o))
  }

  // The two chunks write different bytes, and the first writes nothing that the other reads.
  ghost predicate CidsApart(c: Config, id: Cid, other: Cid)
    requires ValidCid(c, id) && ValidCid(c, other)
  {
    && (id != other ==> RangesApart(Dst(c, id), Len(c, id), Dst(c, other), Len(c, other)))
    && RangesApart(Dst(c, id), Len(c, id), Src(c, other), Len(c, other))
  }

  // What may still be written is apart from what the running transfers read and write.
  ghost predicate LiveApart(c: Config, xs: seq<Xfer>, posted: set<Wr>) {
    forall id: Cid, other: Cid ::
      ValidCid(c, id) && ValidCid(c, other) && Busy(xs, posted, id.x) && Live(xs, other.x) ==> CidsApart(c, id, other)
  }

  ghost predicate DataInv(c: Config, s: State) {
    && LiveApart(c, s.xs, s.posted)
    && SourcesKept(c, s.base, s.mem, s.xs)
    && CopiesLoaded(c, s.base, s.mem, s.stage, s.copies, s.jobs)
    && PostedLoaded(c, s.base, s.mem, s.stage)
    && DeliveredOk(c, s.base, s.mem, s.xs, s.stage, s.executed)
  }
}

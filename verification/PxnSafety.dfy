/** What the invariant means for a caller and for the maintainer of the data plane. */
module PxnSafety {
  import opened Chunks
  import opened Layout
  import opened ProxyBuffer
  import opened FlowControl
  import opened PxnModel
  import opened PxnInvariant
  import opened PxnQueues
  import opened PxnCounts
  import opened PxnData
  import opened PxnSteps
  import opened PxnFailure
  import opened PxnBooks
  import opened PxnDelivery

  // Reached by a run that resets no allocator in use and lets go of no failed transfer with
  // something of its pipelines under way.
  ghost predicate Reachable(c: Config, m0: Memory, s: State)
    requires ConfigOk(c)
  {
    exists steps: seq<Step> ::
      IsRun(c, Init(c, m0), steps) && AllInOrder(c, Init(c, m0), steps) && s == After(c, Init(c, m0), steps)
  }

  // Reached by a run whose users keep to the rules.
  ghost predicate CarefullyReachable(c: Config, m0: Memory, s: State)
    requires ConfigOk(c)
  {
    exists steps: seq<Step> ::
      && IsRun(c, Init(c, m0), steps) && AllInOrder(c, Init(c, m0), steps) && AllCareful(c, Init(c, m0), steps)
      && s == After(c, Init(c, m0), steps)
  }

  lemma ReachableInv(c: Config, m0: Memory, s: State)
    requires ConfigOk(c) && Reachable(c, m0, s)
    ensures Inv(c, s) && Sized(c, s)
  {
    hide Inv;
    InitInv(c, m0);
    var steps: seq<Step> :|
      IsRun(c, Init(c, m0), steps) && AllInOrder(c, Init(c, m0), steps) && s == After(c, Init(c, m0), steps);
    RunInv(c, Init(c, m0), steps);
    InvSized(c, s);
  }

  lemma ReachableData(c: Config, m0: Memory, s: State)
    requires ConfigOk(c) && CarefullyReachable(c, m0, s)
    ensures Inv(c, s) && DataInv(c, s)
  {
    hide Inv, DataInv;
    InitInv(c, m0);
    InitData(c, m0);
    var steps: seq<Step> :|
      && IsRun(c, Init(c, m0), steps) && AllInOrder(c, Init(c, m0), steps) && AllCareful(c, Init(c, m0), steps)
      && s == After(c, Init(c, m0), steps);
    RunData(c, Init(c, m0), steps);
  }

  /* ---------- proxy memory ---------- */

  // A chunk whose NVLink copy or whose RDMA read of proxy memory is outstanding.
  ghost predicate UsesProxy(s: State, id: Cid) {
    id in s.stage && (s.stage[id].Copying? || (s.stage[id].Posted? && s.stage[id].wr.via.Some?))
  }

  lemma UserHolds(c: Config, s: State, id: Cid)
    requires StagesOk(c, s.stage) && UsesProxy(s, id)
    ensures Holds(s.stage, id) && !s.stage[id].Pending?
  {
    assert StageOk(c, id, s.stage[id]);
  }

  // Proxy memory is never handed out again while a copy into it or an RDMA read from it is
  // outstanding, and every block handed out lies in its buffer.
  lemma ProxyMemorySafe(c: Config, m0: Memory, s: State, k: nat, id: Cid)
    requires ConfigOk(c) && Reachable(c, m0, s) && Sized(c, s) && Enabled(c, s, Submit(k))
    requires UsesProxy(s, id)
    ensures var s' := Next(c, s, Submit(k)); var cid := Cid(c.pipes[k].xfer, s.pipes[k].pending[0]);
      && cid != id && cid in s'.stage && s'.stage[cid].Copying?
      && s'.stage[cid].blk.len == ChunkAt(c.reqs[cid.x], cid.i).len
      && s'.stage[cid].blk.off + s'.stage[cid].blk.len <= c.bufSize[c.pipes[k].gpu]
      && Held(s.stage[id]).Some? && Held(s.stage[id]).value.Apart(s'.stage[cid].blk)
  {
    hide Core, Books, XfersOk, StagesOk, PendingOk, CopyingOk, WrsOk, FlagsOk, JobsOk, LostOk, RefusedOk, FlowOk,
         CountsOk, RecordsOk, BufsOk, TryAlloc, ChunkAt, NextPostDirect, NextAssignProxy, NextSubmitFull, NextLaunch,
         NextDispatch, NextDrain, NextPostProxy, NextPoll, NextFail;
    ReachableInv(c, m0, s);
    CoreParts(c, s);
    SubmitStage(c, s, k);
    HeadFacts(c, s, k);
    SubmitBlocks(c, s, k, NextSubmit(c, s, k));
    UserHolds(c, s, id);
    var s' := NextSubmit(c, s, k);
    assert Holds(s'.stage, id) && Holds(s'.stage, Head(c, s, k));
  }

  // The allocator of a buffer starts over only while no chunk uses the buffer.
  lemma ReusedOnlyWhenIdle(c: Config, m0: Memory, s: State, g: nat, id: Cid)
    requires ConfigOk(c) && Reachable(c, m0, s) && g < |s.bufs| && s.bufs[g].free >= s.bufs[g].alloc
    requires UsesProxy(s, id)
    ensures Held(s.stage[id]).Some? && Held(s.stage[id]).value.gpu != g
  {
    hide BufsOk, RecordsOk, FlowOk, CountsOk, WrsOk, JobsOk, FlagsOk, ResultsOk, ThreadOk, RequestsOk, XfersOk,
         CopyingOk, PendingOk, BlocksOk;
    ReachableInv(c, m0, s);
    assert StageOk(c, id, s.stage[id]);
    MetNothingHeld(c, s, g);
    assert Holds(s.stage, id);
  }

  /* ---------- flags ---------- */

  // If the worker sees the flag of a chunk true, that chunk's own copy has landed: its
  // block holds its slice of what the source held when the transfer was started, whatever
  // other copies the flag served before.
  lemma FlagSound(c: Config, m0: Memory, s: State, k: nat, j: nat)
    requires ConfigOk(c) && CarefullyReachable(c, m0, s)
    requires k < |s.pipes| && j < |s.pipes[k].copying| && k < |c.pipes|
    requires var cc := s.pipes[k].copying[j];
      cc.received && cc.flag.Some? && cc.flag.value in s.flags && s.flags[cc.flag.value]
    ensures var cc := s.pipes[k].copying[j]; var id := Cid(c.pipes[k].xfer, cc.chunk);
      && cc.id !in s.jobs && ValidCid(c, id)
      && BlockLoaded(c, s.base, s.mem, id, Blk(c.pipes[k].gpu, cc.addr, cc.len))
  {
    hide BufsOk, RecordsOk, FlowOk, CountsOk, WrsOk, JobsOk, ResultsOk, ThreadOk, RequestsOk, XfersOk, PendingOk,
         BlocksOk, SourcesKept, PostedLoaded, DeliveredOk, Carries, StagesOk, FreeFlagsOk, CopyOk;
    ReachableData(c, m0, s);
    assert EntryOk(c, k, s.pipes[k].copying[j], s.stage, s.copies);
    assert InUse(s.copies, s.pipes[k].copying[j].id);
    assert LandedCopy(s.copies, s.jobs, s.pipes[k].copying[j].id);
  }

  ghost predicate Once(s: seq<nat>, f: nat) {
    f in s && forall i, j :: 0 <= i < |s| && 0 <= j < |s| && s[i] == f == s[j] ==> i == j
  }

  // A flag that exists is in exactly one place: once in the pool, once in the recycle queue,
  // or with one copy that has been launched. None is lost and none is shared.
  lemma FlagOnePlace(c: Config, m0: Memory, s: State, f: nat)
    requires ConfigOk(c) && Reachable(c, m0, s) && f in s.flags
    ensures f in s.pool || f in s.recycleQ || WithCopy(s.copies, f)
    ensures f in s.pool ==> Once(s.pool, f) && f !in s.recycleQ && !WithCopy(s.copies, f)
    ensures f in s.recycleQ ==> Once(s.recycleQ, f) && f !in s.pool && !WithCopy(s.copies, f)
    ensures forall id, other ::
      InUse(s.copies, id) && InUse(s.copies, other) && s.copies[id].flag == Some(f) == s.copies[other].flag ==>
        id == other
  {
    hide BufsOk, RecordsOk, FlowOk, CountsOk, WrsOk, JobsOk, ResultsOk, ThreadOk, RequestsOk, XfersOk, PendingOk,
         BlocksOk, StagesOk, CopyingOk;
    ReachableInv(c, m0, s);
  }

  /* ---------- flow control ---------- */

  // The counters of a queue pair are the requests outstanding on it, within its bound; the
  // NIC's are within the NIC bound; and a NIC below its bound has a queue pair below its own.
  lemma FlowBounded(c: Config, m0: Memory, s: State, n: nat)
    requires ConfigOk(c) && Reachable(c, m0, s) && n < c.nics && Sized(c, s)
    ensures forall q :: 0 <= q < c.qps ==> QpOut(s.flow, n, q) == |OnQp(s.posted + s.executed, n, q)| <= c.maxPerQp
    ensures 0 <= NicOut(s.flow, n) <= c.MaxPerNic()
    ensures NicOut(s.flow, n) < c.MaxPerNic() <==> exists q :: 0 <= q < c.qps && NicRoom(c, s.flow, n, q)
  {
    hide BufsOk, RecordsOk, CountsOk, WrsOk, JobsOk, ResultsOk, ThreadOk, RequestsOk, XfersOk, PendingOk, BlocksOk,
         StagesOk, CopyingOk, FlagsOk;
    ReachableInv(c, m0, s);
    NicBound(s.flow, c.nics, c.qps, c.maxPerQp, n);
    FreeQpIff(s.flow, c.nics, c.qps, c.maxPerQp, n);
    if NicOut(s.flow, n) < c.MaxPerNic() {
      var q :| 0 <= q < c.qps && QpOut(s.flow, n, q) < c.maxPerQp;
      assert NicRoom(c, s.flow, n, q);
    }
  }

  /* ---------- conservation ---------- */

  // A pipeline's assigned_outstanding is what is pending, what is copying, and what is
  // posted and not completed; and a completion for it finds it above zero.
  lemma PipelineConserved(c: Config, m0: Memory, s: State, k: nat)
    requires ConfigOk(c) && Reachable(c, m0, s) && k < |s.pipes|
    ensures s.pipes[k].completed <= s.pipes[k].posted
    ensures s.pipes[k].assignedOut
      == |s.pipes[k].pending| + |s.pipes[k].copying| + (s.pipes[k].posted - s.pipes[k].completed)
    ensures forall w :: w in s.executed && w.via == Some(k) ==> s.pipes[k].assignedOut > 0
  {
    hide BufsOk, RecordsOk, FlowOk, WrsOk, JobsOk, ResultsOk, ThreadOk, RequestsOk, XfersOk, PendingOk, BlocksOk,
         StagesOk, CopyingOk, FlagsOk;
    ReachableInv(c, m0, s);
    assert CountOk(c, s.pipes[k], k, s.xs, Wrs(s));
    forall w | w in s.executed && w.via == Some(k)
      ensures s.pipes[k].assignedOut > 0
    {
      assert w in Via(Wrs(s), k);
    }
  }

  // When a transfer has completed every chunk, its lists are empty: the cleanup of a
  // finished transfer finds nothing pending and nothing copying.
  lemma NothingLeftAtFinish(c: Config, m0: Memory, s: State, k: nat)
    requires ConfigOk(c) && Reachable(c, m0, s) && k < |s.pipes| && k < |c.pipes|
    requires AllDone(c, s.xs, c.pipes[k].xfer)
    ensures s.pipes[k].pending == [] && s.pipes[k].copying == [] && s.pipes[k].posted == s.pipes[k].completed
  {
    hide BufsOk, RecordsOk, FlowOk, JobsOk, ResultsOk, ThreadOk, RequestsOk, BlocksOk, FlagsOk, XfersOk, StagesOk,
         PendingOk, CopyingOk, WrsOk, CountsOk;
    ReachableInv(c, m0, s);
    NoChunkWhenDone(c, s, k);
    NoViaWhenDone(c, s, k);
  }

  lemma NoChunkWhenDone(c: Config, s: State, k: nat)
    requires k < |c.pipes| && k < |s.pipes| && AllDone(c, s.xs, c.pipes[k].xfer)
    requires XfersOk(c, s.xs, s.stage) && PendingOk(c, s.pipes, s.stage)
    requires CopyingOk(c, s.pipes, s.stage, s.copies, s.nextId)
    ensures s.pipes[k].pending == [] && s.pipes[k].copying == []
  {
    hide XfersOk, XferOk, PendingOk, CopyingOk;
    HeadsStaged(c, s.pipes, s.stage, s.copies, s.nextId, k);
    CompletedIffAllDone(c, s.xs, s.stage, c.pipes[k].xfer);
    HandedOut(c, s.xs, s.stage, c.pipes[k].xfer);
  }

  // A chunk that is anywhere has an index below the number of chunks.
  lemma HandedOut(c: Config, xs: seq<Xfer>, stage: map<Cid, Stage>, x: nat)
    requires XfersOk(c, xs, stage) && x < |xs|
    ensures x < |c.reqs| && c.reqs[x].max > 0
    ensures forall id: Cid :: id in stage && id.x == x ==> id.i < Total(c.reqs[x])
  {
    assert XferOk(c, xs[x], x, stage);
  }

  lemma NoViaWhenDone(c: Config, s: State, k: nat)
    requires ConfigOk(c) && k < |c.pipes| && k < |s.pipes| && AllDone(c, s.xs, c.pipes[k].xfer)
    requires XfersOk(c, s.xs, s.stage) && StagesOk(c, s.stage) && WrsOk(s.posted, Back(s), s.stage)
    requires CountsOk(c, s.pipes, s.xs, Wrs(s))
    ensures s.pipes[k].posted == s.pipes[k].completed
  {
    hide XfersOk, WellFormed, ChunkAt;
    var wrs := Wrs(s);
    forall w | w in wrs
      ensures w.via != Some(k)
    {
      assert StageOk(c, w.id, s.stage[w.id]);
      CompletedIffAllDone(c, s.xs, s.stage, c.pipes[k].xfer);
    }
    assert Via(wrs, k) == {};
    assert CountOk(c, s.pipes[k], k, s.xs, wrs);
  }
}

/** How the steps of the data plane change the work requests, the counters of the pipelines
    and the proxy buffers. */
module PxnCounts {
  import opened Chunks
  import opened Layout
  import opened ProxyBuffer
  import opened FlowControl
  import opened PxnModel
  import opened PxnInvariant
  import opened PxnQueues

  /* ---------- work requests ---------- */

  lemma WrsPost(posted: set<Wr>, executed: set<Wr>, stage: map<Cid, Stage>, w: Wr, held: Option<Blk>)
    requires WrsOk(posted, executed, stage)
    requires w.id in stage ==> !stage[w.id].Posted?
    ensures w !in posted + executed
    ensures WrsOk(posted + {w}, executed, stage[w.id := Posted(w, held)])
  {
    var stage' := stage[w.id := Posted(w, held)];
    forall v | v in posted + {w} + executed
      ensures v.id in stage' && stage'[v.id].Posted? && stage'[v.id].wr == v
    {
      if v != w {
        assert v in posted + executed;
      }
    }
    forall id | id in stage' && stage'[id].Posted?
      ensures stage'[id].wr in posted + {w} + executed
    {
      if id != w.id {
        assert stage[id].wr in posted + executed;
      }
    }
  }

  lemma WrsExecute(posted: set<Wr>, executed: set<Wr>, stage: map<Cid, Stage>, w: Wr)
    requires WrsOk(posted, executed, stage) && w in posted
    ensures (posted - {w}) + (executed + {w}) == posted + executed
    ensures WrsOk(posted - {w}, executed + {w}, stage)
  {
    assert (posted - {w}) + (executed + {w}) == posted + executed;
  }

  lemma WrsPoll(posted: set<Wr>, executed: set<Wr>, stage: map<Cid, Stage>, w: Wr)
    requires WrsOk(posted, executed, stage) && w in executed
    ensures w.id in stage && stage[w.id].Posted? && stage[w.id].wr == w
    ensures posted + (executed - {w}) == (posted + executed) - {w}
    ensures WrsOk(posted, executed - {w}, stage[w.id := Done])
  {
    assert w in posted + executed;
    assert posted + (executed - {w}) == (posted + executed) - {w};
    var stage' := stage[w.id := Done];
    forall v | v in posted + (executed - {w})
      ensures v.id in stage' && stage'[v.id].Posted? && stage'[v.id].wr == v
    {
      assert v in posted + executed;
    }
    forall id | id in stage' && stage'[id].Posted?
      ensures stage'[id].wr in posted + (executed - {w})
    {
      assert stage[id].wr in posted + executed;
      assert stage[id].wr.id == id;
    }
  }

  lemma WrsSame(posted: set<Wr>, executed: set<Wr>, stage: map<Cid, Stage>, id: Cid, st: Stage)
    requires WrsOk(posted, executed, stage)
    requires id in stage ==> !stage[id].Posted?
    requires !st.Posted?
    ensures WrsOk(posted, executed, stage[id := st])
  {
    var stage' := stage[id := st];
    forall v | v in posted + executed
      ensures v.id in stage' && stage'[v.id].Posted? && stage'[v.id].wr == v
    {
      assert v.id != id;
    }
  }

  lemma FlowPost(c: Config, flow: Counters, wrs: set<Wr>, w: Wr)
    requires FlowOk(c, flow, wrs) && w !in wrs && w.nic < c.nics && w.qp < c.qps
    requires QpOut(flow, w.nic, w.qp) < c.maxPerQp
    ensures FlowOk(c, Post(flow, w.nic, w.qp), wrs + {w})
  {
    PostKeepsBalance(flow, c.nics, c.qps, c.maxPerQp, w.nic, w.qp);
    forall n, q | 0 <= n < c.nics && 0 <= q < c.qps
      ensures QpOut(Post(flow, w.nic, w.qp), n, q) == |OnQp(wrs + {w}, n, q)|
    {
      assert OnQp(wrs + {w}, n, q) == OnQp(wrs, n, q) + if w.nic == n && w.qp == q then {w} else {};
    }
  }

  lemma FlowComplete(c: Config, flow: Counters, wrs: set<Wr>, w: Wr)
    requires FlowOk(c, flow, wrs) && w in wrs && w.nic < c.nics && w.qp < c.qps
    ensures FlowOk(c, Complete(flow, w.nic, w.qp), wrs - {w})
  {
    assert w in OnQp(wrs, w.nic, w.qp);
    CompleteKeepsBalance(flow, c.nics, c.qps, c.maxPerQp, w.nic, w.qp);
    forall n, q | 0 <= n < c.nics && 0 <= q < c.qps
      ensures QpOut(Complete(flow, w.nic, w.qp), n, q) == |OnQp(wrs - {w}, n, q)|
    {
      assert OnQp(wrs - {w}, n, q) == OnQp(wrs, n, q) - if w.nic == n && w.qp == q then {w} else {};
    }
  }

  /* ---------- the counters of the pipelines ---------- */

  lemma ViaPost(wrs: set<Wr>, w: Wr, l: nat)
    requires w !in wrs
    ensures Via(wrs + {w}, l) == Via(wrs, l) + (if w.via == Some(l) then {w} else {})
    ensures |Via(wrs + {w}, l)| == |Via(wrs, l)| + if w.via == Some(l) then 1 else 0
  {
    assert Via(wrs + {w}, l) == Via(wrs, l) + (if w.via == Some(l) then {w} else {});
  }

  lemma ViaPoll(wrs: set<Wr>, w: Wr, l: nat)
    requires w in wrs
    ensures Via(wrs - {w}, l) == Via(wrs, l) - (if w.via == Some(l) then {w} else {})
    ensures |Via(wrs - {w}, l)| == |Via(wrs, l)| - if w.via == Some(l) then 1 else 0
  {
    assert Via(wrs - {w}, l) == Via(wrs, l) - (if w.via == Some(l) then {w} else {});
    assert w.via == Some(l) ==> w in Via(wrs, l);
  }

  ghost predicate KeepsDone(c: Config, xs: seq<Xfer>, xs': seq<Xfer>) {
    && |xs'| == |xs|
    && forall x :: (AllDone(c, xs, x) ==> AllDone(c, xs', x)) && (HasFailed(xs', x) ==> HasFailed(xs, x))
  }

  // One pipeline changes, the others keep their counters and their work requests.
  lemma CountsAt(c: Config, pipes: seq<Pipe>, xs: seq<Xfer>, wrs: set<Wr>, k: nat, p': Pipe, xs': seq<Xfer>,
                 wrs': set<Wr>)
    requires CountsOk(c, pipes, xs, wrs) && k < |pipes| && KeepsDone(c, xs, xs')
    requires forall l: nat :: l != k ==> |Via(wrs', l)| == |Via(wrs, l)|
    requires CountOk(c, p', k, xs', wrs')
    ensures CountsOk(c, pipes[k := p'], xs', wrs')
  {
    var pipes' := pipes[k := p'];
    forall l | 0 <= l < |pipes'|
      ensures CountOk(c, pipes'[l], l, xs', wrs')
    {
      assert CountOk(c, pipes[l], l, xs, wrs);
      assert l != k ==> |Via(wrs', l)| == |Via(wrs, l)|;
    }
  }

  lemma CountsSame(c: Config, pipes: seq<Pipe>, xs: seq<Xfer>, wrs: set<Wr>, xs': seq<Xfer>, wrs': set<Wr>)
    requires CountsOk(c, pipes, xs, wrs) && KeepsDone(c, xs, xs')
    requires forall l: nat :: |Via(wrs', l)| == |Via(wrs, l)|
    ensures CountsOk(c, pipes, xs', wrs')
  {
    forall l | 0 <= l < |pipes|
      ensures CountOk(c, pipes[l], l, xs', wrs')
    {
      assert CountOk(c, pipes[l], l, xs, wrs);
      assert |Via(wrs', l)| == |Via(wrs, l)|;
    }
  }

  // The drain gives back one record for each completion it had not seen: as many records
  // stay as requests are outstanding.
  lemma CountDrain(c: Config, p: Pipe, k: nat, xs: seq<Xfer>, wrs: set<Wr>)
    requires k < |c.pipes| && CountOk(c, p, k, xs, wrs)
    ensures DrainCount(p) <= |p.inflight|
    ensures p.inflight != [] ==> DrainCount(p) == p.completed - p.snapshot
    ensures CountOk(c, p.(inflight := p.inflight[DrainCount(p)..], snapshot := p.completed), k, xs, wrs)
  {
  }

  // The guarded decrement of assigned_outstanding never skips.
  lemma CountPoll(c: Config, p: Pipe, k: nat, xs: seq<Xfer>, wrs: set<Wr>, w: Wr, xs': seq<Xfer>)
    requires k < |c.pipes| && CountOk(c, p, k, xs, wrs) && KeepsDone(c, xs, xs')
    requires w in wrs && w.via == Some(k)
    ensures p.assignedOut > 0
    ensures CountOk(c, p.(completed := p.completed + 1, assignedOut := p.assignedOut - 1), k, xs', wrs - {w})
  {
    ViaPoll(wrs, w, k);
    assert w in Via(wrs, k);
  }

  lemma CountPost(c: Config, p: Pipe, k: nat, xs: seq<Xfer>, wrs: set<Wr>, w: Wr, len: nat, xs': seq<Xfer>)
    requires k < |c.pipes| && CountOk(c, p, k, xs, wrs) && !AllDone(c, xs, c.pipes[k].xfer) && KeepsDone(c, xs, xs')
    requires w !in wrs && w.via == Some(k) && p.copying != []
    ensures CountOk(c, p.(copying := p.copying[1..], inflight := p.inflight + [len], posted := p.posted + 1), k, xs',
                    wrs + {w})
  {
    ViaPost(wrs, w, k);
  }

  /* ---------- what the pipelines owe their buffers ---------- */

  lemma {:induction false} SumUpAppend(a: seq<nat>, b: seq<nat>)
    ensures SumUp(a + b) == SumUp(a) + SumUp(b)
  {
    if a == [] {
      assert a + b == b;
    } else {
      SumUpAppend(a[1..], b);
      assert (a + b)[1..] == a[1..] + b;
    }
  }

  lemma SumUpOne(n: nat)
    ensures SumUp([n]) == AlignUp(n)
  {
    assert SumUp([]) == 0;
  }

  lemma {:induction false} SumUpPositive(a: seq<nat>, j: nat)
    requires j < |a| && a[j] >= 1 && a[j] + 255 < WORD
    ensures SumUp(a) > 0
  {
    AlignUpBounds(a[j]);
    if j > 0 {
      SumUpPositive(a[1..], j - 1);
    }
  }

  lemma OwedSubmit(p: Pipe, cc: CopyingChunk)
    ensures Owed(p.(copying := p.copying + [cc])) == Owed(p) + AlignUp(cc.len)
  {
    assert CopyingLens(p.copying + [cc]) == CopyingLens(p.copying) + [cc.len];
    SumUpAppend(CopyingLens(p.copying), [cc.len]);
    SumUpOne(cc.len);
  }

  // Posting moves the chunk's debt from the copying list to the records.
  lemma OwedPost(p: Pipe)
    requires p.copying != []
    ensures Owed(p.(copying := p.copying[1..], inflight := p.inflight + [p.copying[0].len])) == Owed(p)
  {
    assert CopyingLens(p.copying)[1..] == CopyingLens(p.copying[1..]);
    SumUpAppend(p.inflight, [p.copying[0].len]);
    SumUpOne(p.copying[0].len);
  }

  lemma OwedFree(p: Pipe, n: nat)
    requires n <= |p.inflight|
    ensures Owed(p.(inflight := p.inflight[n..])) + SumUp(p.inflight[..n]) == Owed(p)
  {
    assert p.inflight == p.inflight[..n] + p.inflight[n..];
    SumUpAppend(p.inflight[..n], p.inflight[n..]);
  }

  lemma OwedSame(p: Pipe, p': Pipe)
    requires p'.inflight == p.inflight && |p'.copying| == |p.copying|
    requires forall j :: 0 <= j < |p.copying| ==> p'.copying[j].len == p.copying[j].len
    ensures Owed(p') == Owed(p)
  {
    assert CopyingLens(p'.copying) == CopyingLens(p.copying);
  }

  lemma {:induction false} OwedOnChange(c: Config, pipes: seq<Pipe>, k: nat, p': Pipe, g: nat, upTo: nat)
    requires upTo <= |pipes| == |c.pipes| && k < |pipes|
    ensures OwedOn(c, pipes[k := p'], g, upTo) ==
      OwedOn(c, pipes, g, upTo) + if k < upTo && c.pipes[k].gpu == g then Owed(p') - Owed(pipes[k]) else 0
  {
    if upTo > 0 {
      OwedOnChange(c, pipes, k, p', g, upTo - 1);
    }
  }

  lemma {:induction false} OwedOnAtLeast(c: Config, pipes: seq<Pipe>, g: nat, k: nat, upTo: nat)
    requires k < upTo <= |pipes| == |c.pipes| && c.pipes[k].gpu == g
    ensures OwedOn(c, pipes, g, upTo) >= Owed(pipes[k])
  {
    if k < upTo - 1 {
      OwedOnAtLeast(c, pipes, g, k, upTo - 1);
    }
  }

  // Pipeline k and the offsets of its buffer change together.
  lemma BufsAt(c: Config, pipes: seq<Pipe>, bufs: seq<Offsets>, k: nat, p': Pipe, o': Offsets)
    requires BufsOk(c, pipes, bufs) && k < |pipes| && c.pipes[k].gpu < |bufs|
    requires OffsetsOk(o', c.bufSize[c.pipes[k].gpu])
    requires (o'.alloc - o'.free) - (bufs[c.pipes[k].gpu].alloc - bufs[c.pipes[k].gpu].free)
      == Owed(p') - Owed(pipes[k])
    ensures BufsOk(c, pipes[k := p'], bufs[c.pipes[k].gpu := o'])
  {
    forall g | 0 <= g < |bufs|
      ensures BufOk(bufs[c.pipes[k].gpu := o'][g], c.bufSize[g], OwedOn(c, pipes[k := p'], g, |pipes|))
    {
      assert BufOk(bufs[g], c.bufSize[g], OwedOn(c, pipes, g, |pipes|));
      OwedOnChange(c, pipes, k, p', g, |pipes|);
    }
  }

  lemma BufsOwedSame(c: Config, pipes: seq<Pipe>, bufs: seq<Offsets>, k: nat, p': Pipe)
    requires BufsOk(c, pipes, bufs) && k < |pipes| && Owed(p') == Owed(pipes[k])
    ensures BufsOk(c, pipes[k := p'], bufs)
  {
    forall g | 0 <= g < |bufs|
      ensures BufOk(bufs[g], c.bufSize[g], OwedOn(c, pipes[k := p'], g, |pipes|))
    {
      assert BufOk(bufs[g], c.bufSize[g], OwedOn(c, pipes, g, |pipes|));
      OwedOnChange(c, pipes, k, p', g, |pipes|);
    }
  }

  /* ---------- nothing owed, nothing occupied ---------- */

  // The heart of proxy memory safety: when the totals of a buffer meet, no copy into it and
  // no RDMA read from it is outstanding, although the drain gives records back by count.
  lemma NothingOwedNothingHeld(c: Config, s: State, g: nat, id: Cid)
    requires ConfigOk(c) && |s.xs| == |c.reqs|
    requires XfersOk(c, s.xs, s.stage) && StagesOk(c, s.stage)
    requires CopyingOk(c, s.pipes, s.stage, s.copies, s.nextId)
    requires WrsOk(s.posted, Back(s), s.stage)
    requires CountsOk(c, s.pipes, s.xs, Wrs(s)) && RecordsOk(c, s.pipes)
    requires OwedOn(c, s.pipes, g, |s.pipes|) == 0
    requires Holds(s.stage, id)
    ensures Held(s.stage[id]).value.gpu != g
  {
    var st := s.stage[id];
    assert StageOk(c, id, st);
    ChunkInside(c.reqs[id.x], id.i);
    if Held(st).value.gpu == g {
      if st.Copying? {
        CopyingOwes(c, s.pipes, s.stage, s.copies, s.nextId, id);
        OwedOnAtLeast(c, s.pipes, g, st.k, |s.pipes|);
      } else {
        PostedOwes(c, s, id);
        OwedOnAtLeast(c, s.pipes, g, st.wr.via.value, |s.pipes|);
      }
    }
  }

  lemma CopyingOwes(c: Config, pipes: seq<Pipe>, stage: map<Cid, Stage>, copies: map<nat, Copy>, nextId: nat, id: Cid)
    requires CopyingOk(c, pipes, stage, copies, nextId) && id in stage && stage[id].Copying?
    requires StageOk(c, id, stage[id]) && ConfigOk(c)
    ensures stage[id].k < |pipes| && Owed(pipes[stage[id].k]) > 0
  {
    var k, rid := stage[id].k, stage[id].id;
    assert CopyOk(pipes, stage, copies, rid);
    var j :| 0 <= j < |pipes[k].copying| && pipes[k].copying[j].id == rid;
    assert EntryOk(c, k, pipes[k].copying[j], stage, copies);
    ChunkInside(c.reqs[id.x], id.i);
    assert PipeOk(c, c.pipes[k]);
    SumUpPositive(CopyingLens(pipes[k].copying), j);
  }

  lemma PostedOwes(c: Config, s: State, id: Cid)
    requires ConfigOk(c) && XfersOk(c, s.xs, s.stage) && StagesOk(c, s.stage)
    requires WrsOk(s.posted, Back(s), s.stage)
    requires CountsOk(c, s.pipes, s.xs, Wrs(s)) && RecordsOk(c, s.pipes)
    requires id in s.stage && s.stage[id].Posted? && s.stage[id].wr.via.Some?
    ensures s.stage[id].wr.via.value < |s.pipes| && Owed(s.pipes[s.stage[id].wr.via.value]) > 0
  {
    hide StagesOk, WrsOk, StageOk, XfersOk, WrOk;
    var k := s.stage[id].wr.via.value;
    PostedVia(c, s, id);
    assert CountOk(c, s.pipes[k], k, s.xs, Wrs(s));
    CompletedIffAllDone(c, s.xs, s.stage, id.x);
    assert s.pipes[k].inflight != [];
    SumUpPositive(s.pipes[k].inflight, 0);
  }

  lemma PostedVia(c: Config, s: State, id: Cid)
    requires StagesOk(c, s.stage) && WrsOk(s.posted, Back(s), s.stage)
    requires id in s.stage && s.stage[id].Posted? && s.stage[id].wr.via.Some?
    ensures var w := s.stage[id].wr;
      && ValidCid(c, id) && w.via.value < |c.pipes| && c.pipes[w.via.value].xfer == id.x
      && w in Via(Wrs(s), w.via.value)
  {
    assert StageOk(c, id, s.stage[id]);
  }

  /* ---------- occupied blocks ---------- */

  ghost predicate SameHeld(stage: map<Cid, Stage>, stage': map<Cid, Stage>) {
    forall id :: Holds(stage', id) ==> Holds(stage, id) && Held(stage'[id]) == Held(stage[id])
  }

  // The allocation total of a buffer only falls while the buffer is unoccupied.
  ghost predicate Grown(bufs: seq<Offsets>, bufs': seq<Offsets>, stage: map<Cid, Stage>) {
    && |bufs'| == |bufs|
    && forall g :: 0 <= g < |bufs| ==>
         bufs[g].alloc <= bufs'[g].alloc || forall id :: Holds(stage, id) ==> Held(stage[id]).value.gpu != g
  }

  lemma BlocksSame(c: Config, bufs: seq<Offsets>, stage: map<Cid, Stage>, bufs': seq<Offsets>, stage': map<Cid, Stage>)
    requires BlocksOk(c, bufs, stage) && SameHeld(stage, stage') && Grown(bufs, bufs', stage)
    ensures BlocksOk(c, bufs', stage')
  {
    forall id | Holds(stage', id)
      ensures BlkOk(c, Held(stage'[id]).value, bufs')
    {
      assert Holds(stage, id) && BlkOk(c, Held(stage[id]).value, bufs);
    }
  }

  // The block handed out to a copy is apart from every occupied block.
  lemma BlocksSubmit(c: Config, bufs: seq<Offsets>, stage: map<Cid, Stage>, cid: Cid, g: nat, len: nat, k: nat,
                     rid: nat)
    requires BlocksOk(c, bufs, stage) && g < |bufs| && g < |c.bufSize| && OffsetsOk(bufs[g], c.bufSize[g])
    requires 1 <= len <= c.bufSize[g] && TryAlloc(bufs[g], c.bufSize[g], len).Some?
    requires !Holds(stage, cid)
    requires bufs[g].free >= bufs[g].alloc ==> forall id :: Holds(stage, id) ==> Held(stage[id]).value.gpu != g
    ensures var (o, off) := TryAlloc(bufs[g], c.bufSize[g], len).value;
      BlocksOk(c, bufs[g := o], stage[cid := Copying(k, rid, Blk(g, off, len))])
  {
    var (o, off) := TryAlloc(bufs[g], c.bufSize[g], len).value;
    AllocOffsets(bufs[g], c.bufSize[g], len);
    AlignUpBounds(len);
    var b := Blk(g, off, len);
    var stage' := stage[cid := Copying(k, rid, b)];
    forall id | Holds(stage', id)
      ensures BlkOk(c, Held(stage'[id]).value, bufs[g := o])
      ensures id != cid ==> Held(stage'[id]).value.Apart(b) && b.Apart(Held(stage'[id]).value)
    {
      if id != cid {
        assert Holds(stage, id) && BlkOk(c, Held(stage[id]).value, bufs);
        if Held(stage[id]).value.gpu == g {
          AlignUpBounds(Held(stage[id]).value.len);
        }
      }
    }
  }
}

/** Memory, what one RDMA work request does to it, and the data layout the API documents:
    executing the chunks of a transfer in any order gives that layout. */
module Layout {
  import opened Rings
  import opened Chunks

  type Byte = x: nat | x < 256

  // A byte of the local machine, of a remote host, or of the proxy buffer of a GPU.
  datatype Loc = Local(addr: nat) | Remote(host: string, addr: nat) | Proxy(gpu: nat, addr: nat) {
    function Plus(o: nat): Loc {
      match this
      case Local(a) => Local(a + o)
      case Remote(h, a) => Remote(h, a + o)
      case Proxy(g, a) => Proxy(g, a + o)
    }

    predicate SameSpace(l: Loc) {
      match this
      case Local(_) => l.Local?
      case Remote(h, _) => l.Remote? && l.host == h
      case Proxy(g, _) => l.Proxy? && l.gpu == g
    }

    // l is one of the len bytes that start here.
    predicate Range(len: nat, l: Loc) {
      SameSpace(l) && addr <= l.addr < addr + len
    }
  }

  type Memory = Loc -> Byte

  // One DMA copy of len bytes. The source is read before anything is written.
  function Copied(m: Memory, src: Loc, dst: Loc, len: nat): Memory {
    (l: Loc) => if dst.Range(len, l) then m(src.Plus(l.addr - dst.addr)) else m(l)
  }

  // One byte written from outside.
  function Written(m: Memory, at: Loc, value: Byte): Memory {
    (l: Loc) => if l == at then value else m(l)
  }

  lemma CopiedAt(m: Memory, src: Loc, dst: Loc, len: nat, o: nat)
    requires o < len
    ensures Copied(m, src, dst, len)(dst.Plus(o)) == m(src.Plus(o))
  {
    assert dst.SameSpace(dst.Plus(o)) && dst.Plus(o).addr == dst.addr + o;
  }

  function ChunkLocal(req: Request, i: nat): Loc
    requires WellFormed(req)
  {
    Local(ChunkAt(req, i).localAddr)
  }

  function ChunkRemote(req: Request, i: nat): Loc
    requires WellFormed(req)
  {
    var t := ChunkAt(req, i);
    Remote(req.hosts[t.host], t.remoteAddr)
  }

  // A gather reads the remote side, a scatter or a broadcast reads the local side.
  function ChunkSrc(req: Request, i: nat): Loc
    requires WellFormed(req)
  {
    if req.direction.Gather? then ChunkRemote(req, i) else ChunkLocal(req, i)
  }

  function ChunkDst(req: Request, i: nat): Loc
    requires WellFormed(req)
  {
    if req.direction.Gather? then ChunkLocal(req, i) else ChunkRemote(req, i)
  }

  function RunChunk(req: Request, m: Memory, i: nat): Memory
    requires WellFormed(req)
  {
    Copied(m, ChunkSrc(req, i), ChunkDst(req, i), Sge(ChunkAt(req, i).len))
  }

  // The chunks executed in the order the completions happen to take.
  function RunChunks(req: Request, m: Memory, order: seq<nat>): Memory
    requires WellFormed(req)
  {
    if order == [] then m
    else RunChunk(req, RunChunks(req, m, order[..|order| - 1]), order[|order| - 1])
  }

  /* ---------- the documented layout ---------- */

  // Byte o of host h's slice, on either side.
  function SliceLocal(req: Request, h: nat, o: nat): Loc
    requires h < |req.lengths|
  {
    Local(req.localAddr + LocalOffset(req, h) + o)
  }

  function SliceRemote(req: Request, h: nat, o: nat): Loc
    requires h < |req.hosts| == |req.remoteAddrs|
  {
    Remote(req.hosts[h], req.remoteAddrs[h] + o)
  }

  function SliceSrc(req: Request, h: nat, o: nat): Loc
    requires WellFormed(req) && h < |req.lengths|
  {
    if req.direction.Gather? then SliceRemote(req, h, o) else SliceLocal(req, h, o)
  }

  function SliceDst(req: Request, h: nat, o: nat): Loc
    requires WellFormed(req) && h < |req.lengths|
  {
    if req.direction.Gather? then SliceLocal(req, h, o) else SliceRemote(req, h, o)
  }

  // l belongs to the destination of the transfer.
  ghost predicate InDst(req: Request, l: Loc)
    requires WellFormed(req)
  {
    exists h: nat, o: nat :: h < |req.lengths| && o < req.lengths[h] && l == SliceDst(req, h, o)
  }

  // No two bytes of the transfer land on the same destination byte. A gather and a
  // transfer to one host have this by construction.
  ghost predicate DisjointDst(req: Request)
    requires WellFormed(req)
  {
    forall g: nat, p: nat, h: nat, o: nat |
      g < |req.lengths| && p < req.lengths[g] && h < |req.lengths| && o < req.lengths[h]
      :: SliceDst(req, g, p) == SliceDst(req, h, o) ==> g == h && p == o
  }

  ghost predicate Delivered(req: Request, m0: Memory, m: Memory)
    requires WellFormed(req)
  {
    forall h: nat, o: nat :: h < |req.lengths| && o < req.lengths[h] ==>
      m(SliceDst(req, h, o)) == m0(SliceSrc(req, h, o))
  }

  ghost predicate OnlyDstChanged(req: Request, m0: Memory, m: Memory)
    requires WellFormed(req)
  {
    forall l: Loc :: !InDst(req, l) ==> m(l) == m0(l)
  }

  /* ---------- one chunk against the layout ---------- */

  // Byte k of chunk i is a byte of its host's slice, on both sides.
  lemma ChunkByte(req: Request, i: nat, k: nat)
    requires WellFormed(req) && NoWrap(req) && i < Total(req) && k < ChunkAt(req, i).len
    ensures var t := ChunkAt(req, i); var o := t.remoteAddr - req.remoteAddrs[t.host] + k;
      && t.host < |req.lengths| && 0 <= o < req.lengths[t.host]
      && ChunkSrc(req, i).Plus(k) == SliceSrc(req, t.host, o)
      && ChunkDst(req, i).Plus(k) == SliceDst(req, t.host, o)
  {
    ChunkInside(req, i);
  }

  // The work request of the chunk that carries byte o of host h's slice is long enough for it.
  ghost predicate Sent(req: Request, h: nat, o: nat)
    requires WellFormed(req) && h < |req.lengths|
  {
    var t := ChunkAt(req, ChunkCovering(req, h, o));
    req.remoteAddrs[h] + o < t.remoteAddr + Sge(t.len)
  }

  // After chunk i ran: the bytes its work request carried are delivered, every other byte
  // is as before.
  lemma RunChunkEffect(req: Request, m: Memory, i: nat, h: nat, o: nat)
    requires WellFormed(req) && NoWrap(req) && DisjointDst(req) && i < Total(req)
    requires h < |req.lengths| && o < req.lengths[h]
    ensures RunChunk(req, m, i)(SliceDst(req, h, o)) ==
      if i == ChunkCovering(req, h, o) && Sent(req, h, o) then m(SliceSrc(req, h, o)) else m(SliceDst(req, h, o))
  {
    hide ChunkCovering, Sge;
    RemoteTiling(req, h, o);
    ChunkInside(req, i);
    var t := ChunkAt(req, i);
    var d := SliceDst(req, h, o);
    if ChunkDst(req, i).Range(Sge(t.len), d) {
      var k := d.addr - ChunkDst(req, i).addr;
      ChunkByte(req, i, k);
      assert d == ChunkDst(req, i).Plus(k);
      assert Covers(req, i, h, o);
    } else if Covers(req, i, h, o) {
      ChunkByte(req, i, req.remoteAddrs[h] + o - t.remoteAddr);
    }
  }

  lemma ChunkRangeInDst(req: Request, i: nat, l: Loc)
    requires WellFormed(req) && NoWrap(req) && i < Total(req)
    requires ChunkDst(req, i).Range(ChunkAt(req, i).len, l)
    ensures InDst(req, l)
  {
    var k := l.addr - ChunkDst(req, i).addr;
    ChunkByte(req, i, k);
    assert l == ChunkDst(req, i).Plus(k);
  }

  lemma RunChunkFrame(req: Request, m: Memory, i: nat, l: Loc)
    requires WellFormed(req) && NoWrap(req) && i < Total(req) && !InDst(req, l)
    ensures RunChunk(req, m, i)(l) == m(l)
  {
    if ChunkDst(req, i).Range(Sge(ChunkAt(req, i).len), l) {
      ChunkRangeInDst(req, i, l);
    }
  }

  // A source byte of the transfer is no destination byte: it lies on the other side.
  lemma SourceNotDst(req: Request, h: nat, o: nat)
    requires WellFormed(req) && h < |req.lengths|
    ensures !InDst(req, SliceSrc(req, h, o))
  {
  }

  /* ---------- any order ---------- */

  ghost predicate AllBelow(order: seq<nat>, n: nat) {
    forall k :: 0 <= k < |order| ==> order[k] < n
  }

  lemma {:induction false} RunFrame(req: Request, m: Memory, order: seq<nat>, l: Loc)
    requires WellFormed(req) && NoWrap(req) && AllBelow(order, Total(req)) && !InDst(req, l)
    ensures RunChunks(req, m, order)(l) == m(l)
  {
    if order != [] {
      var rest := order[..|order| - 1];
      RunFrame(req, m, rest, l);
      RunChunkFrame(req, RunChunks(req, m, rest), order[|order| - 1], l);
    }
  }

  lemma {:induction false} RunByte(req: Request, m: Memory, order: seq<nat>, h: nat, o: nat)
    requires WellFormed(req) && NoWrap(req) && DisjointDst(req) && AllBelow(order, Total(req))
    requires h < |req.lengths| && o < req.lengths[h]
    ensures RunChunks(req, m, order)(SliceDst(req, h, o)) ==
      if ChunkCovering(req, h, o) in order && Sent(req, h, o) then m(SliceSrc(req, h, o)) else m(SliceDst(req, h, o))
  {
    hide Sent, ChunkCovering;
    if order != [] {
      var rest := order[..|order| - 1];
      var last := order[|order| - 1];
      assert order == rest + [last];
      RunByte(req, m, rest, h, o);
      RunChunkEffect(req, RunChunks(req, m, rest), last, h, o);
      SourceNotDst(req, h, o);
      RunFrame(req, m, rest, SliceSrc(req, h, o));
    }
  }

  lemma SentWhole(req: Request, h: nat, o: nat)
    requires WellFormed(req) && NoWrap(req) && Whole(req) && h < |req.lengths| && o < req.lengths[h]
    ensures Sent(req, h, o)
  {
    hide ChunkCovering, Sge;
    RemoteTiling(req, h, o);
    assert Covers(req, ChunkCovering(req, h, o), h, o);
    SgeWhole(req, ChunkCovering(req, h, o));
  }

  // Order independence: whatever order the chunks complete in, and even when some are
  // executed again, the memory is the documented layout and nothing else changed.
  lemma AnyOrderDelivers(req: Request, m: Memory, order: seq<nat>)
    requires WellFormed(req) && NoWrap(req) && Whole(req) && DisjointDst(req) && AllBelow(order, Total(req))
    requires forall i: nat :: i < Total(req) ==> i in order
    ensures Delivered(req, m, RunChunks(req, m, order))
    ensures OnlyDstChanged(req, m, RunChunks(req, m, order))
  {
    var end := RunChunks(req, m, order);
    forall h: nat, o: nat | h < |req.lengths| && o < req.lengths[h]
      ensures end(SliceDst(req, h, o)) == m(SliceSrc(req, h, o))
    {
      RemoteTiling(req, h, o);
      SentWhole(req, h, o);
      RunByte(req, m, order, h, o);
    }
    forall l: Loc | !InDst(req, l)
      ensures end(l) == m(l)
    {
      RunFrame(req, m, order, l);
    }
  }

  // The converse: a chunk that never ran leaves its bytes as they were.
  lemma MissingChunkLeavesBytes(req: Request, m: Memory, order: seq<nat>, h: nat, o: nat)
    requires WellFormed(req) && NoWrap(req) && DisjointDst(req) && AllBelow(order, Total(req))
    requires h < |req.lengths| && o < req.lengths[h]
    requires ChunkCovering(req, h, o) !in order
    ensures RunChunks(req, m, order)(SliceDst(req, h, o)) == m(SliceDst(req, h, o))
  {
    RunByte(req, m, order, h, o);
  }

  // A slice whose first chunk is longer than a work request can say has a byte that no work
  // request carries: the last one of that chunk.
  lemma CutShort(req: Request, h: nat) returns (o: nat)
    requires WellFormed(req) && NoWrap(req) && h < |req.lengths|
    requires req.max > 0xFFFF_FFFF && req.lengths[h] > 0xFFFF_FFFF
    ensures o < req.lengths[h] && !Sent(req, h, o)
  {
    hide Sge;
    o := (if req.lengths[h] < req.max then req.lengths[h] else req.max) - 1;
    DivUnique(o, 0, o, req.max);
    var i := ChunkCovering(req, h, o);
    CoveringOwned(req, h, o);
    OwnerOfChunk(req, i);
    ChunkInside(req, i);
    assert i == Start(req.lengths, req.max, h);
  }

  // Executing every chunk gives the documented layout whatever memory held before exactly
  // when no chunk is 4 GiB long or longer: the length field of a work request has 32 bits.
  lemma DeliversIffWhole(req: Request, order: seq<nat>)
    requires WellFormed(req) && NoWrap(req) && DisjointDst(req) && AllBelow(order, Total(req))
    requires forall i: nat :: i < Total(req) ==> i in order
    ensures (forall m: Memory :: Delivered(req, m, RunChunks(req, m, order))) <==> Whole(req)
  {
    hide RunChunks, Delivered, DisjointDst;
    if Whole(req) {
      forall m: Memory
        ensures Delivered(req, m, RunChunks(req, m, order))
      {
        AnyOrderDelivers(req, m, order);
      }
    } else {
      var h: nat :| h < |req.lengths| && req.lengths[h] > 0xFFFF_FFFF;
      var o := CutShort(req, h);
      var m: Memory := (l: Loc) => if l == SliceDst(req, h, o) then 1 else 0;
      RunByte(req, m, order, h, o);
      SourceOther(req, h, o);
      NotDelivered(req, m, RunChunks(req, m, order), h, o);
    }
  }

  // A scatter of 4 GiB in one chunk: its work request asks for no byte at all.
  lemma FourGiBSendsNothing()
    ensures var r := Request(Scatter, 0, ["a"], [0], [0x1_0000_0000], 0x1_0000_0000);
      var m: Memory := (l: Loc) => if l.Local? then 1 else 0;
      && WellFormed(r) && NoWrap(r) && DisjointDst(r) && Total(r) == 1
      && RunChunk(r, m, 0)(Remote("a", 0)) == 0 != m(Local(0))
  {
    var r := Request(Scatter, 0, ["a"], [0], [0x1_0000_0000], 0x1_0000_0000);
    assert ChunkCount(0x1_0000_0000, 0x1_0000_0000) == 1;
    assert Start(r.lengths, r.max, 0) == 0;
    assert Start(r.lengths, r.max, 1) == 1;
    assert ChunkAt(r, 0).len == 0x1_0000_0000;
    assert Sge(0x1_0000_0000) == 0;
    assert !ChunkDst(r, 0).Range(0, Remote("a", 0));
  }

  lemma SourceOther(req: Request, h: nat, o: nat)
    requires WellFormed(req) && h < |req.lengths|
    ensures SliceSrc(req, h, o) != SliceDst(req, h, o)
  {
  }

  lemma NotDelivered(req: Request, m0: Memory, m: Memory, h: nat, o: nat)
    requires WellFormed(req) && h < |req.lengths| && o < req.lengths[h]
    requires m(SliceDst(req, h, o)) != m0(SliceSrc(req, h, o))
    ensures !Delivered(req, m0, m)
  {
  }

  /* ---------- a gather undoes a scatter ---------- */

  lemma {:induction false} OffsetsApart(lengths: seq<nat>, g: nat, p: nat, h: nat, o: nat)
    requires g < |lengths| && h < |lengths| && p < lengths[g] && o < lengths[h]
    requires SumLengths(lengths, g) + p == SumLengths(lengths, h) + o
    ensures g == h && p == o
  {
    if g < h {
      SumMonotone(lengths, g + 1, h);
    } else if h < g {
      SumMonotone(lengths, h + 1, g);
    }
  }

  lemma GatherDisjoint(req: Request)
    requires WellFormed(req) && req.direction.Gather?
    ensures DisjointDst(req)
  {
    forall g: nat, p: nat, h: nat, o: nat |
      g < |req.lengths| && p < req.lengths[g] && h < |req.lengths| && o < req.lengths[h] &&
      SliceDst(req, g, p) == SliceDst(req, h, o)
      ensures g == h && p == o
    {
      OffsetsApart(req.lengths, g, p, h, o);
    }
  }

  // Scatter, then anything that leaves the remote ranges alone, then gather with the same
  // arguments: the local range holds what it held before the scatter, both in any order.
  lemma GatherAfterScatter(req: Request, m: Memory, order: seq<nat>, between: Memory, back: seq<nat>, x: nat)
    requires WellFormed(req) && NoWrap(req) && Whole(req) && req.direction.Scatter? && DisjointDst(req)
    requires AllBelow(order, Total(req)) && forall i: nat :: i < Total(req) ==> i in order
    requires AllBelow(back, Total(req)) && forall i: nat :: i < Total(req) ==> i in back
    requires forall l: Loc :: l.Remote? ==> between(l) == RunChunks(req, m, order)(l)
    requires x < SumLengths(req.lengths, |req.lengths|)
    ensures RunChunks(req.(direction := Gather), between, back)(Local(req.localAddr + x)) == m(Local(req.localAddr + x))
  {
    var gather := req.(direction := Gather);
    AnyOrderDelivers(req, m, order);
    GatherDisjoint(gather);
    AnyOrderDelivers(gather, between, back);
    var h := SliceOwner(req.lengths, |req.lengths| - 1, x);
    var o := x - SumLengths(req.lengths, h);
    assert SliceDst(gather, h, o) == Local(req.localAddr + x);
    assert SliceSrc(gather, h, o) == SliceDst(req, h, o);
    assert SliceSrc(req, h, o) == Local(req.localAddr + x);
  }
}

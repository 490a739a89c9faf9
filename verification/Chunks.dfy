/** How one transfer is cut into chunks: the planning loop of transferAsyncStart and the
    binary search of TransferContext::getChunk, with the proof that the chunks tile. */
module Chunks {
  import opened Rings

  // size_t is 64 bits wide.
  const WORD: nat := 0x1_0000_0000_0000_0000

  datatype Direction = Scatter | Gather | Broadcast

  // The arguments of one transfer. Every list has one entry per host.
  datatype Request = Request(
    direction: Direction,
    localAddr: nat,
    hosts: seq<string>,
    remoteAddrs: seq<nat>,
    lengths: seq<nat>,
    max: nat)

  datatype ChunkTask = ChunkTask(host: nat, localAddr: nat, remoteAddr: nat, len: nat)

  // What transferAsyncStart checks of its caller, and what the environment check on the
  // maximal transfer size leaves (positive, one machine word).
  ghost predicate WellFormed(req: Request) {
    && 0 < req.max < WORD
    && |req.hosts| == |req.remoteAddrs| == |req.lengths|
    && |req.lengths| > 0
    && forall h :: 0 <= h < |req.lengths| ==> req.lengths[h] < WORD
  }

  // The rounding-up addition stays inside the machine word.
  ghost predicate Fits(len: nat, max: nat) {
    len + max - 1 < WORD
  }

  ghost predicate NoWrap(req: Request) {
    forall h :: 0 <= h < |req.lengths| ==> Fits(req.lengths[h], req.max)
  }

  // The length that a work request carries: its field is 32 bits wide.
  function Sge(len: nat): (r: nat)
    ensures r <= len && r <= 0xFFFF_FFFF
  {
    len % 0x1_0000_0000
  }

  // No chunk is too long for that field.
  ghost predicate Whole(req: Request) {
    req.max <= 0xFFFF_FFFF || forall h :: 0 <= h < |req.lengths| ==> req.lengths[h] <= 0xFFFF_FFFF
  }

  // The planner's chunk count for one host, in machine arithmetic.
  function ChunkCount(len: nat, max: nat): (n: nat)
    requires max > 0
  {
    Div((len + max - 1) % WORD, max)
  }

  // The number of chunks of all hosts before h.
  function Start(lengths: seq<nat>, max: nat, h: nat): nat
    requires max > 0 && h <= |lengths|
  {
    if h == 0 then 0 else Start(lengths, max, h - 1) + ChunkCount(lengths[h - 1], max)
  }

  function Total(req: Request): nat
    requires req.max > 0
  {
    Start(req.lengths, req.max, |req.lengths|)
  }

  function SumLengths(lengths: seq<nat>, h: nat): nat
    requires h <= |lengths|
  {
    if h == 0 then 0 else SumLengths(lengths, h - 1) + lengths[h - 1]
  }

  // Where host h's slice begins in the local buffer.
  function LocalOffset(req: Request, h: nat): nat
    requires h <= |req.lengths|
  {
    if req.direction.Broadcast? then 0 else SumLengths(req.lengths, h)
  }

  // Host h is the one that chunk i belongs to.
  ghost predicate Owns(req: Request, h: nat, i: nat)
    requires req.max > 0
  {
    h < |req.lengths| && Start(req.lengths, req.max, h) <= i < Start(req.lengths, req.max, h + 1)
  }

  function OwnerFrom(req: Request, h: nat, i: nat): (r: nat)
    requires req.max > 0 && h < |req.lengths|
    ensures r <= h
  {
    if h == 0 || Start(req.lengths, req.max, h) <= i then h else OwnerFrom(req, h - 1, i)
  }

  // Chunk i of the transfer, as the layout of the API documentation fixes it.
  function ChunkAt(req: Request, i: nat): ChunkTask
    requires req.max > 0 && |req.remoteAddrs| == |req.lengths| > 0
  {
    var h := OwnerFrom(req, |req.lengths| - 1, i);
    var first := Start(req.lengths, req.max, h);
    var offset := (if i < first then 0 else i - first) * req.max;
    var remaining := if offset <= req.lengths[h] then req.lengths[h] - offset else 0;
    ChunkTask(h,
              req.localAddr + LocalOffset(req, h) + offset,
              req.remoteAddrs[h] + offset,
              if remaining < req.max then remaining else req.max)
  }

  /* ---------- arithmetic ---------- */

  lemma CeilBounds(len: nat, max: nat)
    requires max > 0 && Fits(len, max)
    ensures ChunkCount(len, max) * max >= len
    ensures len > 0 ==> ChunkCount(len, max) >= 1 && (ChunkCount(len, max) - 1) * max < len
    ensures len == 0 ==> ChunkCount(len, max) == 0
  {
    hide Div;
    var s := len + max - 1;
    assert s % WORD == s;
    var q := ChunkCount(len, max);
    assert (q - 1) * max == q * max - max;
    if q == 0 {
      assert q * max == 0;
    } else if len == 0 {
      MulAtLeast(q, max);
    }
  }

  lemma MulAtLeast(q: nat, max: nat)
    requires q >= 1
    ensures q * max >= max
  {
  }

  // The chunk count is the rounded-up quotient exactly when the addition does not wrap:
  // a length within one maximum of the word size is planned with too few chunks.
  lemma {:induction false} ChunkCountExact(len: nat, max: nat)
    requires 0 < max < WORD && len < WORD
    ensures ChunkCount(len, max) * max >= len <==> Fits(len, max)
  {
    if len + max - 1 < WORD {
      CeilBounds(len, max);
    } else {
      var s := len + max - 1 - WORD;
      assert (len + max - 1) % WORD == s;
    }
  }

  // With the largest accepted maximum, a two-byte transfer is planned as empty.
  lemma TwoBytesPlannedAsNone()
    ensures ChunkCount(2, WORD - 1) == 0
  {
  }

  /* ---------- ownership ---------- */

  lemma {:induction false} StartMonotone(lengths: seq<nat>, max: nat, g: nat, h: nat)
    requires max > 0 && g <= h <= |lengths|
    ensures Start(lengths, max, g) <= Start(lengths, max, h)
    decreases h
  {
    if g < h {
      StartMonotone(lengths, max, g, h - 1);
    }
  }

  lemma {:induction false} OwnerFromOwns(req: Request, h: nat, i: nat)
    requires req.max > 0 && h < |req.lengths|
    requires i < Start(req.lengths, req.max, h + 1)
    ensures Owns(req, OwnerFrom(req, h, i), i)
  {
    if h > 0 && i < Start(req.lengths, req.max, h) {
      OwnerFromOwns(req, h - 1, i);
    }
  }

  lemma OwnerUnique(req: Request, g: nat, h: nat, i: nat)
    requires req.max > 0 && Owns(req, g, i) && Owns(req, h, i)
    ensures g == h
  {
    if g < h {
      StartMonotone(req.lengths, req.max, g + 1, h);
    } else if h < g {
      StartMonotone(req.lengths, req.max, h + 1, g);
    }
  }

  // Each chunk of the transfer has exactly one owner, the host its task names,
  // whatever hosts of length zero the lists hold.
  lemma OwnerOfChunk(req: Request, i: nat)
    requires WellFormed(req) && i < Total(req)
    ensures Owns(req, ChunkAt(req, i).host, i)
    ensures forall h: nat :: Owns(req, h, i) ==> h == ChunkAt(req, i).host
  {
    OwnerFromOwns(req, |req.lengths| - 1, i);
    forall h: nat | Owns(req, h, i)
      ensures h == ChunkAt(req, i).host
    {
      OwnerUnique(req, h, ChunkAt(req, i).host, i);
    }
  }

  /* ---------- tiling ---------- */

  // A chunk is non-empty, no longer than the maximum, and inside its host's slice on
  // both sides.
  lemma ChunkInside(req: Request, i: nat)
    requires WellFormed(req) && NoWrap(req) && i < Total(req)
    ensures var t := ChunkAt(req, i);
      && t.host < |req.lengths|
      && 1 <= t.len <= req.max
      && req.remoteAddrs[t.host] <= t.remoteAddr
      && t.remoteAddr + t.len <= req.remoteAddrs[t.host] + req.lengths[t.host]
      && t.localAddr - (req.localAddr + LocalOffset(req, t.host)) == t.remoteAddr - req.remoteAddrs[t.host]
      && t.remoteAddr == req.remoteAddrs[t.host] + (i - Start(req.lengths, req.max, t.host)) * req.max
      && t.len == (if req.lengths[t.host] - (i - Start(req.lengths, req.max, t.host)) * req.max < req.max
                   then req.lengths[t.host] - (i - Start(req.lengths, req.max, t.host)) * req.max
                   else req.max)
  {
    OwnerOfChunk(req, i);
    var h := ChunkAt(req, i).host;
    var n := ChunkCount(req.lengths[h], req.max);
    var j := i - Start(req.lengths, req.max, h);
    CeilBounds(req.lengths[h], req.max);
    assert j <= n - 1;
    MulLe(j, n - 1, req.max);
  }

  // Then every work request carries its whole chunk.
  lemma SgeWhole(req: Request, i: nat)
    requires WellFormed(req) && NoWrap(req) && Whole(req) && i < Total(req)
    ensures Sge(ChunkAt(req, i).len) == ChunkAt(req, i).len
  {
    hide ChunkAt, Total, NoWrap;
    ChunkInside(req, i);
  }

  // The chunk that carries byte o of host h's slice.
  function ChunkCovering(req: Request, h: nat, o: nat): nat
    requires req.max > 0 && h < |req.lengths|
  {
    Start(req.lengths, req.max, h) + Div(o, req.max)
  }

  // The chunk carries the byte at offset o of host h's remote range.
  ghost predicate Covers(req: Request, i: nat, h: nat, o: nat)
    requires WellFormed(req)
  {
    var t := ChunkAt(req, i);
    t.host == h && t.remoteAddr <= req.remoteAddrs[h] + o < t.remoteAddr + t.len
  }

  lemma QuotientBelow(o: nat, len: nat, m: nat, n: nat)
    requires m > 0 && o < len <= n * m
    ensures Div(o, m) < n
  {
    hide Div;
    MulLess(Div(o, m), n, m);
  }

  lemma ByteInCount(o: nat, len: nat, max: nat)
    requires max > 0 && o < len && Fits(len, max)
    ensures Div(o, max) < ChunkCount(len, max)
  {
    hide Div, ChunkCount;
    CeilBounds(len, max);
    QuotientBelow(o, len, max, ChunkCount(len, max));
  }

  lemma StartNext(lengths: seq<nat>, max: nat, h: nat, o: nat)
    requires max > 0 && h < |lengths| && o < lengths[h] && Fits(lengths[h], max)
    ensures Start(lengths, max, h) + Div(o, max) < Start(lengths, max, h + 1)
  {
    hide Div, ChunkCount;
    ByteInCount(o, lengths[h], max);
  }

  lemma OwnedInTotal(req: Request, h: nat, i: nat)
    requires req.max > 0 && Owns(req, h, i)
    ensures i < Total(req)
  {
    StartMonotone(req.lengths, req.max, h + 1, |req.lengths|);
  }

  lemma CoveringOwned(req: Request, h: nat, o: nat)
    requires WellFormed(req) && NoWrap(req) && h < |req.lengths| && o < req.lengths[h]
    ensures ChunkCovering(req, h, o) < Total(req)
    ensures Owns(req, h, ChunkCovering(req, h, o))
  {
    hide Div, ChunkCount, Start;
    StartNext(req.lengths, req.max, h, o);
    OwnedInTotal(req, h, ChunkCovering(req, h, o));
  }

  lemma Covered(req: Request, h: nat, o: nat)
    requires WellFormed(req) && NoWrap(req) && h < |req.lengths| && o < req.lengths[h]
    requires ChunkCovering(req, h, o) < Total(req)
    ensures Covers(req, ChunkCovering(req, h, o), h, o)
  {
    var i := ChunkCovering(req, h, o);
    CoveringOwned(req, h, o);
    OwnerOfChunk(req, i);
    ChunkInside(req, i);
  }

  // Every byte of every host's remote range is carried by exactly one chunk.
  lemma RemoteTiling(req: Request, h: nat, o: nat)
    requires WellFormed(req) && NoWrap(req) && h < |req.lengths| && o < req.lengths[h]
    ensures ChunkCovering(req, h, o) < Total(req)
    ensures forall i: nat :: i < Total(req) ==> (Covers(req, i, h, o) <==> i == ChunkCovering(req, h, o))
  {
    CoveringOwned(req, h, o);
    Covered(req, h, o);
    forall i: nat | i < Total(req) && Covers(req, i, h, o)
      ensures i == ChunkCovering(req, h, o)
    {
      OwnerOfChunk(req, i);
      ChunkInside(req, i);
      var j := i - Start(req.lengths, req.max, h);
      DivUnique(o, j, o - j * req.max, req.max);
    }
  }

  lemma {:induction false} SumMonotone(lengths: seq<nat>, g: nat, h: nat)
    requires g <= h <= |lengths|
    ensures SumLengths(lengths, g) <= SumLengths(lengths, h)
    decreases h
  {
    if g < h {
      SumMonotone(lengths, g, h - 1);
    }
  }

  // The host whose slice of the local buffer holds byte x.
  function SliceOwner(lengths: seq<nat>, h: nat, x: nat): (r: nat)
    requires h < |lengths| && x < SumLengths(lengths, h + 1)
    ensures r <= h
    ensures SumLengths(lengths, r) <= x < SumLengths(lengths, r + 1)
  {
    if SumLengths(lengths, h) <= x then h else SliceOwner(lengths, h - 1, x)
  }

  // The chunk that carries byte x of the local range of a scatter or a gather.
  function LocalChunk(req: Request, x: nat): nat
    requires WellFormed(req) && x < SumLengths(req.lengths, |req.lengths|)
  {
    var h := SliceOwner(req.lengths, |req.lengths| - 1, x);
    ChunkCovering(req, h, x - SumLengths(req.lengths, h))
  }

  ghost predicate CoversLocal(req: Request, i: nat, x: nat)
    requires WellFormed(req)
  {
    var t := ChunkAt(req, i);
    t.localAddr <= req.localAddr + x < t.localAddr + t.len
  }

  // For a scatter or a gather the chunks also partition the whole local range.
  lemma LocalTiling(req: Request, x: nat)
    requires WellFormed(req) && NoWrap(req) && !req.direction.Broadcast?
    requires x < SumLengths(req.lengths, |req.lengths|)
    ensures LocalChunk(req, x) < Total(req)
    ensures forall i: nat :: i < Total(req) ==> (CoversLocal(req, i, x) <==> i == LocalChunk(req, x))
  {
    var h := SliceOwner(req.lengths, |req.lengths| - 1, x);
    var o := x - SumLengths(req.lengths, h);
    RemoteTiling(req, h, o);
    forall i: nat | i < Total(req)
      ensures CoversLocal(req, i, x) <==> i == LocalChunk(req, x)
    {
      ChunkInside(req, i);
      var g := ChunkAt(req, i).host;
      if g < h {
        SumMonotone(req.lengths, g + 1, h);
      } else if h < g {
        SumMonotone(req.lengths, h + 1, g);
      }
      assert Covers(req, i, h, o) <==> i == LocalChunk(req, x);
      if g == h {
        assert CoversLocal(req, i, x) <==> Covers(req, i, h, o);
      }
    }
  }

  // For a broadcast each host's chunks partition the same local range.
  lemma BroadcastTiling(req: Request, h: nat, x: nat)
    requires WellFormed(req) && NoWrap(req) && req.direction.Broadcast?
    requires h < |req.lengths| && x < req.lengths[h]
    ensures forall i: nat :: i < Total(req) && ChunkAt(req, i).host == h ==>
      (CoversLocal(req, i, x) <==> i == ChunkCovering(req, h, x))
  {
    RemoteTiling(req, h, x);
    forall i: nat | i < Total(req) && ChunkAt(req, i).host == h
      ensures CoversLocal(req, i, x) <==> i == ChunkCovering(req, h, x)
    {
      ChunkInside(req, i);
      assert CoversLocal(req, i, x) <==> Covers(req, i, h, x);
    }
  }

  // The lengths of the first n chunks, added up.
  function ChunkLens(req: Request, n: nat): nat
    requires req.max > 0 && |req.remoteAddrs| == |req.lengths| > 0
  {
    if n == 0 then 0 else ChunkLens(req, n - 1) + ChunkAt(req, n - 1).len
  }

  // What the first j chunks of a slice carry.
  function Filled(len: nat, max: nat, j: nat): nat {
    if j * max < len then j * max else len
  }

  lemma FilledNext(len: nat, max: nat, j: nat)
    requires max > 0 && Fits(len, max) && 0 < j <= ChunkCount(len, max)
    ensures (j - 1) * max <= len
    ensures Filled(len, max, j) - Filled(len, max, j - 1)
      == if len - (j - 1) * max < max then len - (j - 1) * max else max
  {
    CeilBounds(len, max);
    MulLe(j - 1, ChunkCount(len, max) - 1, max);
    assert j * max == (j - 1) * max + max;
  }

  lemma NthLen(req: Request, h: nat, j: nat)
    requires WellFormed(req) && NoWrap(req)
    requires h < |req.lengths| && 0 < j <= ChunkCount(req.lengths[h], req.max)
    ensures ChunkAt(req, Start(req.lengths, req.max, h) + j - 1).len
      == Filled(req.lengths[h], req.max, j) - Filled(req.lengths[h], req.max, j - 1)
  {
    var i := Start(req.lengths, req.max, h) + j - 1;
    assert Owns(req, h, i);
    OwnedInTotal(req, h, i);
    OwnerOfChunk(req, i);
    ChunkInside(req, i);
    FilledNext(req.lengths[h], req.max, j);
  }

  lemma {:induction false} LensUpTo(req: Request, h: nat, j: nat)
    requires WellFormed(req) && NoWrap(req)
    requires h < |req.lengths| && j <= ChunkCount(req.lengths[h], req.max)
    ensures ChunkLens(req, Start(req.lengths, req.max, h) + j)
      == SumLengths(req.lengths, h) + Filled(req.lengths[h], req.max, j)
    decreases h, j
  {
    hide ChunkAt, ChunkCount, Filled;
    if j > 0 {
      LensUpTo(req, h, j - 1);
      NthLen(req, h, j);
    } else {
      FilledEnds(req.lengths[h], req.max);
      if h > 0 {
        FilledEnds(req.lengths[h - 1], req.max);
        LensUpTo(req, h - 1, ChunkCount(req.lengths[h - 1], req.max));
      }
    }
  }

  lemma FilledEnds(len: nat, max: nat)
    requires max > 0 && Fits(len, max)
    ensures Filled(len, max, 0) == 0
    ensures Filled(len, max, ChunkCount(len, max)) == len
  {
    CeilBounds(len, max);
  }

  // The chunks' lengths add up to the transfer's: nothing is cut off or sent twice.
  lemma AllLens(req: Request)
    requires WellFormed(req) && NoWrap(req)
    ensures ChunkLens(req, Total(req)) == SumLengths(req.lengths, |req.lengths|)
  {
    var h := |req.lengths| - 1;
    FilledEnds(req.lengths[h], req.max);
    LensUpTo(req, h, ChunkCount(req.lengths[h], req.max));
  }

  /* ---------- the context object ---------- */

  lemma PlanStart(req: Request)
    requires req.max > 0
    ensures Start(req.lengths, req.max, 0) == 0 && LocalOffset(req, 0) == 0
  {
  }

  lemma PlanStep(req: Request, i: nat)
    requires req.max > 0 && i < |req.lengths|
    ensures Start(req.lengths, req.max, i + 1) == Start(req.lengths, req.max, i) + ChunkCount(req.lengths[i], req.max)
    ensures LocalOffset(req, i + 1) == LocalOffset(req, i) + if req.direction.Broadcast? then 0 else req.lengths[i]
  {
  }

  class TransferContext {
    const req: Request
    var totalChunks: nat
    var hostChunkStarts: seq<nat>
    var hostLocalOffsets: seq<nat>

    ghost predicate Planned()
      reads this
    {
      && WellFormed(req)
      && |hostChunkStarts| == |hostLocalOffsets| == |req.lengths|
      && (forall h :: 0 <= h < |req.lengths| ==> hostChunkStarts[h] == Start(req.lengths, req.max, h))
      && (forall h :: 0 <= h < |req.lengths| ==> hostLocalOffsets[h] == LocalOffset(req, h))
      && totalChunks == Total(req)
    }

    // The planning loop of transferAsyncStart.
    constructor (req: Request)
      requires WellFormed(req)
      ensures Planned() && this.req == req
    {
      hide Start, LocalOffset, ChunkCount;
      PlanStart(req);
      this.req := req;
      var starts: seq<nat> := [];
      var offsets: seq<nat> := [];
      var total := 0;
      var running := 0;
      for i := 0 to |req.lengths|
        invariant |starts| == |offsets| == i
        invariant forall h :: 0 <= h < i ==> starts[h] == Start(req.lengths, req.max, h)
        invariant forall h :: 0 <= h < i ==> offsets[h] == LocalOffset(req, h)
        invariant total == Start(req.lengths, req.max, i)
        invariant running == LocalOffset(req, i)
      {
        PlanStep(req, i);
        starts := starts + [total];
        offsets := offsets + [running];
        total := total + ChunkCount(req.lengths[i], req.max);
        if req.direction != Broadcast {
          running := running + req.lengths[i];
        }
      }
      totalChunks := total;
      hostChunkStarts := starts;
      hostLocalOffsets := offsets;
    }

    // TransferContext::getChunk: binary search for the last host that starts at or
    // before the chunk.
    method GetChunk(i: nat) returns (t: ChunkTask)
      requires Planned() && NoWrap(req)
      requires i < totalChunks
      ensures t == ChunkAt(req, i)
      ensures Owns(req, t.host, i)
    {
      OwnerOfChunk(req, i);
      ChunkInside(req, i);
      ghost var owner := ChunkAt(req, i).host;
      var host := 0;
      var lo, hi := 0, |hostChunkStarts|;
      while lo < hi
        invariant 0 <= lo <= hi <= |hostChunkStarts|
        invariant host == if lo == 0 then 0 else lo - 1
        invariant lo > 0 ==> lo - 1 <= owner
        invariant owner < hi
      {
        var mid := lo + (hi - lo) / 2;
        if hostChunkStarts[mid] <= i {
          if owner < mid {
            StartMonotone(req.lengths, req.max, owner + 1, mid);
          }
          host := mid;
          lo := mid + 1;
        } else {
          if mid <= owner {
            StartMonotone(req.lengths, req.max, mid, owner);
          }
          hi := mid;
        }
      }
      var within := i - hostChunkStarts[host];
      var offset := within * req.max;
      var remaining := req.lengths[host] - offset;
      var len := if remaining < req.max then remaining else req.max;
      t := ChunkTask(host, req.localAddr + hostLocalOffsets[host] + offset, req.remoteAddrs[host] + offset, len);
    }
  }
}

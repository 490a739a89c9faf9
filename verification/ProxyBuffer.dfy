/** PxnProxyBuffer: the linear allocator of one GPU's staging buffer. It moves only two
    totals; the list of live blocks is the proof's own bookkeeping. */
module ProxyBuffer {
  import opened Chunks

  const ALIGNMENT: nat := 256
  const DEFAULT_BUFFER_SIZE: nat := 256 * 0x10_0000
  const DEFAULT_MAX_CHUNK: nat := 0x4000_0000

  datatype Option<+T> = None | Some(value: T)

  // The two offsets that the code keeps.
  datatype Offsets = Offsets(alloc: nat, free: nat)

  // A part of the buffer handed out and not yet given back.
  datatype Block = Block(off: nat, len: nat) {
    ghost predicate Apart(b: Block) {
      off + len <= b.off || b.off + b.len <= off
    }
  }

  // (len + 255) & ~255 on 64 bits.
  function AlignUp(len: nat): (r: nat)
    ensures r < WORD
  {
    ((len + 255) % WORD) / 256 * 256
  }

  // tryAlloc: the new offsets and the offset handed out. None stands for address 0.
  function TryAlloc(o: Offsets, size: nat, len: nat): Option<(Offsets, nat)> {
    var a := AlignUp(len);
    if (o.alloc + a) % WORD > size then
      if o.free >= o.alloc then Some((Offsets(a, 0), 0)) else None
    else
      Some((Offsets((o.alloc + a) % WORD, o.free), o.alloc))
  }

  function Free(o: Offsets, len: nat): Offsets {
    o.(free := o.free + AlignUp(len))
  }

  function SumAligned(live: seq<Block>): nat {
    if live == [] then 0 else AlignUp(live[0].len) + SumAligned(live[1..])
  }

  // Sizes for which the comparison in tryAlloc cannot wrap. No allocatable device buffer
  // comes near half the address space.
  ghost predicate RealSize(size: nat) {
    2 * size + 512 < WORD
  }

  ghost predicate Placed(o: Offsets, size: nat, b: Block) {
    && 1 <= b.len <= size
    && b.off % ALIGNMENT == 0
    && b.off + AlignUp(b.len) <= o.alloc
    && b.off + b.len <= size
  }

  ghost predicate AllApart(live: seq<Block>) {
    forall i, j :: 0 <= i < j < |live| ==> live[i].Apart(live[j])
  }

  // The allocator invariant.
  ghost predicate Heap(o: Offsets, size: nat, live: seq<Block>) {
    && RealSize(size)
    && o.alloc < size + ALIGNMENT
    && o.alloc % ALIGNMENT == 0
    && o.free <= o.alloc
    && o.alloc - o.free == SumAligned(live)
    && (forall i :: 0 <= i < |live| ==> Placed(o, size, live[i]))
    && AllApart(live)
  }

  /* ---------- alignment ---------- */

  lemma AlignUpBounds(len: nat)
    requires len + 255 < WORD
    ensures len <= AlignUp(len) < len + 256 && AlignUp(len) % 256 == 0
  {
  }

  lemma {:induction false} SumAlignedAppend(live: seq<Block>, b: Block)
    ensures SumAligned(live + [b]) == SumAligned(live) + AlignUp(b.len)
  {
    if live == [] {
      assert live + [b] == [b];
    } else {
      SumAlignedAppend(live[1..], b);
      assert (live + [b])[1..] == live[1..] + [b];
    }
  }

  lemma {:induction false} SumAlignedRemove(live: seq<Block>, i: nat)
    requires i < |live|
    ensures SumAligned(live) == AlignUp(live[i].len) + SumAligned(live[..i] + live[i + 1..])
  {
    if i == 0 {
      assert live[..0] + live[1..] == live[1..];
    } else {
      SumAlignedRemove(live[1..], i - 1);
      assert (live[..i] + live[i + 1..])[1..] == live[1..][..i - 1] + live[1..][i..];
    }
  }

  // The totals meet only when nothing is live.
  lemma TotalsMeetIffIdle(o: Offsets, size: nat, live: seq<Block>)
    requires Heap(o, size, live)
    ensures o.free >= o.alloc <==> live == []
  {
    if live != [] {
      assert Placed(o, size, live[0]);
      AlignUpBounds(live[0].len);
    }
  }

  /* ---------- allocation ---------- */

  // Which requests succeed: those that still fit behind the last block, and every
  // request when nothing is live.
  lemma AllocSucceedsIff(o: Offsets, size: nat, live: seq<Block>, len: nat)
    requires Heap(o, size, live) && len + 255 < WORD && o.alloc + AlignUp(len) < WORD
    ensures TryAlloc(o, size, len).Some? <==> o.alloc + AlignUp(len) <= size || live == []
  {
    hide AlignUp, Placed, AllApart, SumAligned;
    TotalsMeetIffIdle(o, size, live);
  }

  // Totals as the invariant leaves them.
  ghost predicate OffsetsOk(o: Offsets, size: nat) {
    RealSize(size) && o.alloc % ALIGNMENT == 0 && o.alloc < size + ALIGNMENT && o.free <= o.alloc
  }

  lemma AlignedSum(a: nat, b: nat)
    requires a % ALIGNMENT == 0 && b % ALIGNMENT == 0
    ensures (a + b) % ALIGNMENT == 0
  {
  }

  // What tryAlloc does to the totals: it appends, or it starts over when they have met.
  lemma AllocOffsets(o: Offsets, size: nat, len: nat)
    requires OffsetsOk(o, size) && 1 <= len <= size && TryAlloc(o, size, len).Some?
    ensures var (o', off) := TryAlloc(o, size, len).value;
      && OffsetsOk(o', size) && off % ALIGNMENT == 0 && off + len <= size
      && o'.alloc == off + AlignUp(len) && o'.free <= off
      && ((off == o.alloc && o'.free == o.free) || (off == 0 && o'.free == 0 && o.free == o.alloc))
  {
    hide AlignUp;
    AlignUpBounds(len);
    AlignedSum(o.alloc, AlignUp(len));
  }

  lemma PlacedLater(o: Offsets, o': Offsets, size: nat, live: seq<Block>)
    requires live == [] || o.alloc <= o'.alloc
    requires forall i :: 0 <= i < |live| ==> Placed(o, size, live[i])
    ensures forall i :: 0 <= i < |live| ==> Placed(o', size, live[i])
  {
  }

  lemma AppendApart(o: Offsets, size: nat, live: seq<Block>, b: Block)
    requires AllApart(live) && (live == [] || b.off == o.alloc)
    requires forall i :: 0 <= i < |live| ==> Placed(o, size, live[i])
    requires size + 255 < WORD
    ensures AllApart(live + [b])
  {
    forall i, j | 0 <= i < j < |live + [b]|
      ensures (live + [b])[i].Apart((live + [b])[j])
    {
      assert Placed(o, size, live[i]);
      AlignUpBounds(live[i].len);
    }
  }

  // The block handed out keeps the invariant: it is aligned, in bounds and apart from
  // every live block.
  lemma AllocKeepsHeap(o: Offsets, size: nat, live: seq<Block>, len: nat)
    requires Heap(o, size, live) && 1 <= len <= size && TryAlloc(o, size, len).Some?
    ensures var (o', off) := TryAlloc(o, size, len).value;
      Heap(o', size, live + [Block(off, len)])
  {
    var (o', off) := TryAlloc(o, size, len).value;
    AllocOffsets(o, size, len);
    TotalsMeetIffIdle(o, size, live);
    SumAlignedAppend(live, Block(off, len));
    AppendApart(o, size, live, Block(off, len));
    PlacedLater(o, o', size, live);
  }

  lemma AllocOutcome(o: Offsets, size: nat, live: seq<Block>, len: nat)
    requires Heap(o, size, live) && 1 <= len <= size
    ensures o.alloc + AlignUp(len) < WORD
    ensures TryAlloc(o, size, len).Some? <==> o.alloc + AlignUp(len) <= size || live == []
    ensures TryAlloc(o, size, len).Some? ==>
      Heap(TryAlloc(o, size, len).value.0, size, live + [Block(TryAlloc(o, size, len).value.1, len)])
  {
    AlignUpBounds(len);
    AllocSucceedsIff(o, size, live, len);
    if TryAlloc(o, size, len).Some? {
      AllocKeepsHeap(o, size, live, len);
    }
  }

  // tryAlloc does not look at the size again after its reset. The block it hands out lies
  // inside the buffer exactly when the request is no longer than the buffer.
  lemma AllocInBoundsIff(o: Offsets, size: nat, live: seq<Block>, len: nat)
    requires Heap(o, size, live) && 1 <= len && len + 255 < WORD && TryAlloc(o, size, len).Some?
    ensures TryAlloc(o, size, len).value.1 + len <= size <==> len <= size
  {
    AlignUpBounds(len);
  }

  // The defaults violate that: a chunk may be 1 GiB, the buffer is 256 MiB.
  lemma DefaultChunkLeavesBuffer()
    ensures var r := TryAlloc(Offsets(0, 0), DEFAULT_BUFFER_SIZE, DEFAULT_MAX_CHUNK);
      r.Some? && r.value.1 + DEFAULT_MAX_CHUNK > DEFAULT_BUFFER_SIZE
  {
  }

  /* ---------- freeing ---------- */

  // Giving back any live block, in any order, keeps the invariant. The free total never
  // passes the allocation total.
  lemma FreeKeepsHeap(o: Offsets, size: nat, live: seq<Block>, i: nat)
    requires Heap(o, size, live) && i < |live|
    ensures Heap(Free(o, live[i].len), size, live[..i] + live[i + 1..])
  {
    hide AlignUp, SumAligned;
    SumAlignedRemove(live, i);
    var live' := live[..i] + live[i + 1..];
    forall k | 0 <= k < |live'|
      ensures Placed(Free(o, live[i].len), size, live'[k])
    {
      assert live'[k] == live[if k < i then k else k + 1];
    }
    forall j, k | 0 <= j < k < |live'|
      ensures live'[j].Apart(live'[k])
    {
      assert live'[j] == live[if j < i then j else j + 1];
      assert live'[k] == live[if k < i then k else k + 1];
    }
  }

  /* ---------- what later requests can get ---------- */

  // After some moment others take blocks and give some back. What one of the users owes, mine,
  // is not among what they give back.
  datatype Use = Take(len: nat) | Return(n: nat)

  function AfterUse(o: Offsets, size: nat, u: Use): Offsets {
    match u
    case Take(len) => if TryAlloc(o, size, len).Some? then TryAlloc(o, size, len).value.0 else o
    case Return(n) => o.(free := o.free + n)
  }

  predicate CanUse(o: Offsets, size: nat, mine: nat, u: Use) {
    match u
    case Take(len) => 1 <= len <= size
    case Return(n) => o.free + n + mine <= o.alloc
  }

  ghost predicate CanUseAll(o: Offsets, size: nat, mine: nat, us: seq<Use>)
    decreases |us|
  {
    us == [] || (CanUse(o, size, mine, us[0]) && CanUseAll(AfterUse(o, size, us[0]), size, mine, us[1..]))
  }

  ghost predicate Gets(o: Offsets, size: nat, u: Use, b: Block) {
    u.Take? && TryAlloc(o, size, u.len).Some? && !b.Apart(Block(TryAlloc(o, size, u.len).value.1, u.len))
  }

  // Some block that is handed out overlaps b.
  ghost predicate HandsOut(o: Offsets, size: nat, us: seq<Use>, b: Block)
    decreases |us|
  {
    us != [] && (Gets(o, size, us[0], b) || HandsOut(AfterUse(o, size, us[0]), size, us[1..], b))
  }

  // Block b lies behind what is handed out next.
  ghost predicate Behind(o: Offsets, size: nat, b: Block) {
    OffsetsOk(o, size) && 1 <= b.len && b.off + AlignUp(b.len) <= o.alloc && b.off + b.len <= size
  }

  // While something is owed nothing starts over.
  lemma UseKeeps(o: Offsets, size: nat, mine: nat, u: Use, b: Block)
    requires Behind(o, size, b) && CanUse(o, size, mine, u) && 0 < mine && o.free + mine <= o.alloc
    ensures !Gets(o, size, u, b)
    ensures var o' := AfterUse(o, size, u); Behind(o', size, b) && o'.free + mine <= o'.alloc
  {
    hide AlignUp;
    if u.Take? && TryAlloc(o, size, u.len).Some? {
      AllocOffsets(o, size, u.len);
      AlignUpBounds(b.len);
    }
  }

  lemma {:induction false} NeverHandedOut(o: Offsets, size: nat, mine: nat, us: seq<Use>, b: Block)
    requires Behind(o, size, b) && CanUseAll(o, size, mine, us) && 0 < mine && o.free + mine <= o.alloc
    ensures !HandsOut(o, size, us, b)
    decreases |us|
  {
    hide Behind, CanUse, Gets, AfterUse;
    if us != [] {
      UseKeeps(o, size, mine, us[0], b);
      NeverHandedOut(AfterUse(o, size, us[0]), size, mine, us[1..], b);
    }
  }

  lemma TakesItAll(o: Offsets, size: nat, b: Block)
    requires Behind(o, size, b)
    ensures var us := [Return(o.alloc - o.free), Take(size)]; CanUseAll(o, size, 0, us) && HandsOut(o, size, us, b)
  {
    var us := [Return(o.alloc - o.free), Take(size)];
    TakesFromIdle(o.(free := o.alloc), size, b);
    assert us[1..] == [Take(size)];
  }

  // With nothing owed the whole buffer can be asked for.
  lemma TakesFromIdle(o: Offsets, size: nat, b: Block)
    requires Behind(o, size, b) && o.free == o.alloc
    ensures CanUseAll(o, size, 0, [Take(size)]) && HandsOut(o, size, [Take(size)], b)
  {
    AlignUpBounds(size);
    assert [Take(size)][1..] == [];
    assert Gets(o, size, Take(size), b);
  }

  // Some later requests and returns hand out b's bytes.
  ghost predicate Reusable(o: Offsets, size: nat, mine: nat, b: Block) {
    exists us: seq<Use> :: CanUseAll(o, size, mine, us) && HandsOut(o, size, us, b)
  }

  // A block can be handed out once more exactly when nothing is owed for it.
  lemma HandedOutIff(o: Offsets, size: nat, mine: nat, b: Block)
    requires Behind(o, size, b) && o.free + mine <= o.alloc
    ensures Reusable(o, size, mine, b) <==> mine == 0
  {
    hide Behind, CanUseAll, HandsOut;
    if mine == 0 {
      TakesItAll(o, size, b);
      var us := [Return(o.alloc - o.free), Take(size)];
      assert CanUseAll(o, size, mine, us) && HandsOut(o, size, us, b);
    } else {
      forall us: seq<Use> | CanUseAll(o, size, mine, us)
        ensures !HandsOut(o, size, us, b)
      {
        NeverHandedOut(o, size, mine, us, b);
      }
    }
  }

  /* ---------- resetting ---------- */

  // The block that the next allocation after resetAllocator would hand out.
  function AfterReset(len: nat): Block {
    Block(0, len)
  }

  // Starting a PXN transfer resets the allocator without looking. That is harmless
  // exactly when nothing is live, which a caller can see from the two totals: otherwise
  // some request that fits is handed bytes that are still in use.
  lemma ResetSafeIffIdle(o: Offsets, size: nat, live: seq<Block>)
    requires Heap(o, size, live)
    ensures TryAlloc(Offsets(0, 0), size, size) == Some((Offsets(AlignUp(size), 0), 0))
    ensures (forall len: nat, i :: 1 <= len <= size && 0 <= i < |live| ==> live[i].Apart(AfterReset(len)))
      <==> o.free >= o.alloc
  {
    TotalsMeetIffIdle(o, size, live);
    AlignUpBounds(size);
    if live != [] {
      assert Placed(o, size, live[0]);
      assert !live[0].Apart(AfterReset(size));
    }
  }

  // Two transfers, the second started while a block of the first is live.
  lemma ResetWhileLiveOverlaps()
    ensures var o := TryAlloc(Offsets(0, 0), 1024, 256).value.0;
      && Heap(o, 1024, [Block(0, 256)])
      && TryAlloc(Offsets(0, 0), 1024, 256) == Some((Offsets(256, 0), 0))
      && !Block(0, 256).Apart(AfterReset(256))
  {
    assert SumAligned([Block(0, 256)]) == 256;
  }

  /* ---------- a reset inside an allocation ---------- */

  // resetAllocator runs on a user's thread. Between the load of the allocation total in
  // tryAlloc and its store, for a request that fits behind the last block, it zeroes both
  // totals of an idle buffer; the store then puts the old position back, with no free total
  // to match.
  function RacedAlloc(o: Offsets, len: nat): Offsets {
    Offsets(o.alloc + AlignUp(len), 0)
  }

  // The totals are off by the old position once the block is given back.
  lemma ResetInsideAlloc(o: Offsets, size: nat, len: nat)
    requires OffsetsOk(o, size) && o.free == o.alloc && 1 <= len <= size && o.alloc + AlignUp(len) <= size
    ensures TryAlloc(o, size, len) == Some((RacedAlloc(o, len).(free := o.free), o.alloc))
    ensures var after := Free(RacedAlloc(o, len), len);
      after.alloc - after.free == o.alloc
  {
  }

  function AfterUses(o: Offsets, size: nat, us: seq<Use>): Offsets
    decreases |us|
  {
    if us == [] then o else AfterUses(AfterUse(o, size, us[0]), size, us[1..])
  }

  lemma UseGrows(o: Offsets, size: nat, gap: nat, u: Use)
    requires OffsetsOk(o, size) && 0 < gap && o.free + gap <= o.alloc && CanUse(o, size, gap, u)
    ensures var o' := AfterUse(o, size, u); OffsetsOk(o', size) && o'.alloc >= o.alloc && o'.free + gap <= o'.alloc
  {
    hide AlignUp;
    if u.Take? && TryAlloc(o, size, u.len).Some? {
      AllocOffsets(o, size, u.len);
    }
  }

  // And so they stay through every later request and return, up to the next reset: the gap
  // is nobody's to give back. No request starts over, and the space only shrinks.
  lemma {:induction false} AheadUntilReset(o: Offsets, size: nat, gap: nat, us: seq<Use>)
    requires OffsetsOk(o, size) && 0 < gap && o.free + gap <= o.alloc && CanUseAll(o, size, gap, us)
    ensures var o' := AfterUses(o, size, us);
      && o'.alloc >= o.alloc && o'.free + gap <= o'.alloc
      && forall len: nat :: 1 <= len <= size ==> (TryAlloc(o', size, len).Some? <==> o'.alloc + AlignUp(len) <= size)
    decreases |us|
  {
    if us == [] {
      forall len: nat | 1 <= len <= size
        ensures TryAlloc(o, size, len).Some? <==> o.alloc + AlignUp(len) <= size
      {
        AlignUpBounds(len);
      }
    } else {
      UseGrows(o, size, gap, us[0]);
      AheadUntilReset(AfterUse(o, size, us[0]), size, gap, us[1..]);
    }
  }

  /* ---------- the object ---------- */

  class PxnProxyBuffer {
    const buffer: nat
    const size: nat
    var allocOffset: nat
    var freeOffset: nat
    ghost var live: seq<Block>

    ghost predicate Valid()
      reads this
    {
      buffer > 0 && Heap(Offsets(allocOffset, freeOffset), size, live)
    }

    constructor (buffer: nat, size: nat)
      requires buffer > 0 && RealSize(size)
      ensures Valid() && live == []
      ensures this.buffer == buffer && this.size == size
    {
      this.buffer := buffer;
      this.size := size;
      allocOffset, freeOffset, live := 0, 0, [];
    }

    ghost function Totals(): Offsets
      reads this
    {
      Offsets(allocOffset, freeOffset)
    }

    // Returns 0 when there is no room. A request that fits the buffer keeps the invariant.
    method TryAllocate(len: nat) returns (addr: nat)
      requires Valid()
      modifies this
      ensures match TryAlloc(old(Totals()), size, len)
        case None => addr == 0 && Totals() == old(Totals()) && live == old(live)
        case Some((o, off)) => addr == buffer + off && Totals() == o && live == old(live) + [Block(off, len)]
      ensures 1 <= len <= size ==> Valid()
      ensures 1 <= len <= size ==> (addr == 0 <==> old(allocOffset) + AlignUp(len) > size && old(live) != [])
    {
      hide Heap, AlignUp;
      if 1 <= len <= size {
        AllocOutcome(Totals(), size, live, len);
      }
      var aligned := AlignUp(len);
      var cur := allocOffset;
      var freeVal := freeOffset;
      if (cur + aligned) % WORD > size {
        if freeVal >= cur {
          allocOffset := 0;
          freeOffset := 0;
          cur := 0;
        } else {
          return 0;
        }
      }
      allocOffset := (cur + aligned) % WORD;
      addr := buffer + cur;
      live := live + [Block(cur, len)];
    }

    // Gives back the live block at position i of the bookkeeping, whichever it is.
    method Release(len: nat, ghost i: nat)
      requires Valid() && i < |live| && live[i].len == len
      modifies this
      ensures Valid()
      ensures live == old(live)[..i] + old(live)[i + 1..]
      ensures allocOffset == old(allocOffset) && freeOffset == old(freeOffset) + AlignUp(len)
    {
      FreeKeepsHeap(Offsets(allocOffset, freeOffset), size, live, i);
      freeOffset := freeOffset + AlignUp(len);
      live := live[..i] + live[i + 1..];
    }

    // Both totals start over, whatever is live; the invariant survives iff nothing is.
    method ResetAllocator()
      requires Valid()
      modifies this
      ensures Totals() == Offsets(0, 0) && live == old(live)
      ensures Valid() <==> old(live) == []
    {
      if live != [] {
        assert Placed(Totals(), size, live[0]);
        AlignUpBounds(live[0].len);
      }
      allocOffset := 0;
      freeOffset := 0;
    }
  }
}

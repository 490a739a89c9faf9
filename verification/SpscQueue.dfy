/** SpscQueue: the ring between the worker and the copy thread, as one thread at a time uses
    it. SpscInterleaving has its two ends running at the same time. */
module SpscQueue {

  import opened Rings

  /* ---------- the object ---------- */

  class SpscQueue<T> {
    const capacity: nat
    const buffer: array<T>
    var head: nat
    var tail: nat
    ghost var first: nat          // how many items were taken so far
    ghost var contents: seq<T>

    ghost predicate Valid()
      reads this, buffer
    {
      && buffer.Length == capacity + 1 && capacity > 0 && |contents| <= capacity
      && Ring(buffer[..], first, contents)
      && head == Slot(first, 0, capacity + 1)
      && tail == Slot(first, |contents|, capacity + 1)
    }

    constructor (capacity: nat, blank: T)
      requires capacity > 0
      ensures Valid() && contents == [] && this.capacity == capacity && fresh(buffer)
    {
      assert Slot(0, 0, capacity + 1) == 0;
      this.capacity := capacity;
      buffer := new T[capacity + 1](_ => blank);
      head, tail, first := 0, 0, 0;
      contents := [];
    }

    // Succeeds iff fewer than capacity items are queued, and then appends the item.
    method TryPush(item: T) returns (ok: bool)
      requires Valid()
      modifies this`tail, this`contents, buffer
      ensures Valid()
      ensures ok <==> |old(contents)| < capacity
      ensures |contents| <= capacity
      ensures contents == if ok then old(contents) + [item] else old(contents)
    {
      hide Ring, Slot, NextSlot;
      RingTests(first, |contents|, capacity + 1);
      var next := NextSlot(tail, capacity + 1);
      if next == head {
        return false;
      }
      RingAppend(buffer[..], first, contents, item);
      ghost var was := buffer[..];
      buffer[tail] := item;
      assert buffer[..] == was[tail := item];
      contents := contents + [item];
      tail := next;
      ok := true;
    }

    // Succeeds iff something is queued, and then takes the oldest item.
    method TryPop() returns (ok: bool, item: T)
      requires Valid()
      modifies this`head, this`first, this`contents
      ensures Valid()
      ensures ok <==> old(contents) != []
      ensures ok ==> item == old(contents)[0] && contents == old(contents)[1..]
      ensures !ok ==> contents == old(contents)
    {
      hide Ring, Slot, NextSlot;
      RingTests(first, |contents|, capacity + 1);
      item := buffer[head];
      if head == tail {
        return false, item;
      }
      RingTake(buffer[..], first, contents);
      SlotShift(first, |contents| - 1, capacity + 1);
      first := first + 1;
      contents := contents[1..];
      head := NextSlot(head, capacity + 1);
      ok := true;
    }

    method Empty() returns (r: bool)
      requires Valid()
      ensures r <==> contents == []
    {
      hide Ring, Slot, NextSlot;
      RingTests(first, |contents|, capacity + 1);
      r := head == tail;
    }

    // With both ends at rest the size is exact.
    method SizeApprox() returns (n: nat)
      requires Valid()
      ensures n == |contents|
    {
      hide Ring, Slot, NextSlot;
      RingTests(first, |contents|, capacity + 1);
      n := if tail >= head then tail - head else capacity + 1 - head + tail;
    }
  }

  // The ring holds the items from position first on, and has a slot to spare.
  ghost predicate Ring<T>(buf: seq<T>, first: nat, items: seq<T>) {
    && |items| < |buf|
    && forall i: nat :: i < |items| ==> buf[Slot(first, i, |buf|)] == items[i]
  }

  lemma RingAppend<T>(buf: seq<T>, first: nat, items: seq<T>, item: T)
    requires Ring(buf, first, items) && |items| + 1 < |buf|
    ensures Ring(buf[Slot(first, |items|, |buf|) := item], first, items + [item])
  {
    hide Slot;
    var at := Slot(first, |items|, |buf|);
    forall i: nat | i < |items|
      ensures Slot(first, i, |buf|) != at
    {
      SlotsApart(first, i, |items|, |buf|);
    }
  }

  lemma RingTake<T>(buf: seq<T>, first: nat, items: seq<T>)
    requires Ring(buf, first, items) && items != []
    ensures buf[Slot(first, 0, |buf|)] == items[0] && Ring(buf, first + 1, items[1..])
  {
    hide Slot;
    forall i: nat | i < |items| - 1
      ensures buf[Slot(first + 1, i, |buf|)] == items[1..][i]
    {
      SlotShift(first, i, |buf|);
    }
  }
}

/** The two ends of SpscQueue, interleaved load by load and store by store, and shown to be
    a bounded first-in first-out queue. */
module SpscInterleaving {
  import opened Rings

  // Where a push is: it has loaded the tail, seen room, written its slot.
  datatype Producer<T> = AtRest | LoadedTail(item: T, at: nat) | SawRoom(item: T, at: nat) | Wrote(item: T, at: nat)

  // Where a pop is: it has loaded the head, seen an item, read its slot.
  datatype Consumer<T> = Resting | LoadedHead(at: nat) | SawItem(at: nat) | Read(at: nat, item: T)

  // pushed and popped are the histories: what was published and what was taken.
  datatype State<T> = State(
    cap: nat, buf: seq<T>, head: nat, tail: nat, p: Producer<T>, c: Consumer<T>,
    pushed: seq<T>, popped: seq<T>)

  datatype Step<T> =
    | LoadTail(item: T) | CheckRoom | WriteSlot | PublishTail
    | LoadHead | CheckItem | ReadSlot | PublishHead

  predicate Enabled<T>(s: State<T>, step: Step<T>) {
    match step
    case LoadTail(_) => s.p.AtRest?
    case CheckRoom => s.p.LoadedTail?
    case WriteSlot => s.p.SawRoom?
    case PublishTail => s.p.Wrote?
    case LoadHead => s.c.Resting?
    case CheckItem => s.c.LoadedHead?
    case ReadSlot => s.c.SawItem?
    case PublishHead => s.c.Read?
  }

  // The push that checks for room finds none, and gives up.
  predicate FindsFull<T>(s: State<T>, step: Step<T>) {
    step.CheckRoom? && s.p.LoadedTail? && NextSlot(s.p.at, s.cap + 1) == s.head
  }

  predicate FindsEmpty<T>(s: State<T>, step: Step<T>) {
    step.CheckItem? && s.c.LoadedHead? && s.c.at == s.tail
  }

  ghost predicate Inv<T>(s: State<T>) {
    var m := s.cap + 1;
    && s.cap > 0 && |s.buf| == m
    && |s.popped| <= |s.pushed| <= |s.popped| + s.cap
    && s.popped == s.pushed[..|s.popped|]
    && s.head == SlotOf(s.cap, |s.popped|) && s.tail == SlotOf(s.cap, |s.pushed|)
    && (forall i :: |s.popped| <= i < |s.pushed| ==> s.buf[SlotOf(s.cap, i)] == s.pushed[i])
    && (match s.p
        case AtRest => true
        case LoadedTail(_, t) => t == s.tail
        case SawRoom(_, t) => t == s.tail && |s.pushed| < |s.popped| + s.cap
        case Wrote(x, t) => t == s.tail && |s.pushed| < |s.popped| + s.cap && s.buf[t] == x)
    && (match s.c
        case Resting => true
        case LoadedHead(h) => h == s.head
        case SawItem(h) => h == s.head && |s.popped| < |s.pushed|
        case Read(h, x) => h == s.head && |s.popped| < |s.pushed| && x == s.pushed[|s.popped|])
  }

  // The slot of position i.
  ghost function SlotOf(cap: nat, i: nat): (r: nat)
    ensures r <= cap
  {
    Slot(i, 0, cap + 1)
  }

  function Next<T>(s: State<T>, step: Step<T>): State<T>
    requires Enabled(s, step) && (|s.buf| == s.cap + 1)
  {
    match step
    case LoadTail(x) => s.(p := LoadedTail(x, s.tail))
    case CheckRoom => s.(p := if FindsFull(s, step) then AtRest else SawRoom(s.p.item, s.p.at))
    case WriteSlot =>
      if s.p.at < |s.buf| then s.(buf := s.buf[s.p.at := s.p.item], p := Wrote(s.p.item, s.p.at)) else s
    case PublishTail =>
      s.(tail := NextSlot(s.p.at, s.cap + 1), p := AtRest, pushed := s.pushed + [s.p.item])
    case LoadHead => s.(c := LoadedHead(s.head))
    case CheckItem => s.(c := if FindsEmpty(s, step) then Resting else SawItem(s.c.at))
    case ReadSlot => if s.c.at < |s.buf| then s.(c := Read(s.c.at, s.buf[s.c.at])) else s
    case PublishHead =>
      s.(head := NextSlot(s.c.at, s.cap + 1), c := Resting, popped := s.popped + [s.c.item])
  }

  // The queue as a user sees it.
  ghost function Abs<T>(s: State<T>): seq<T>
    requires |s.popped| <= |s.pushed|
  {
    s.pushed[|s.popped|..]
  }

  lemma SlotNext(cap: nat, i: nat)
    requires cap > 0
    ensures SlotOf(cap, i + 1) == NextSlot(SlotOf(cap, i), cap + 1)
  {
    RingTests(i, 0, cap + 1);
  }

  lemma SlotApart(cap: nat, i: nat, j: nat)
    requires i < j <= i + cap
    ensures SlotOf(cap, i) != SlotOf(cap, j)
  {
    SlotAt(i, j - i, cap + 1);
    SlotsApart(i, 0, j - i, cap + 1);
  }

  // The producer's slot is none of those that hold queued items.
  lemma FreeSlot<T>(s: State<T>, i: nat)
    requires Inv(s) && |s.popped| <= i < |s.pushed|
    ensures SlotOf(s.cap, i) != s.tail
  {
    hide SlotOf;
    SlotApart(s.cap, i, |s.pushed|);
  }

  // The slot of the i-th queued item.
  ghost function QueuedAt<T>(s: State<T>, i: nat): nat {
    SlotOf(s.cap, |s.popped| + i)
  }

  // The slot of every queued item holds it, and is not the slot that a push is about to
  // write: no slot is read before it was written, or overwritten before it was read.
  lemma NoConflict<T>(s: State<T>)
    requires Inv(s)
    ensures forall i: nat :: i < |Abs(s)| ==> QueuedAt(s, i) < |s.buf| && s.buf[QueuedAt(s, i)] == Abs(s)[i]
    ensures forall i: nat :: i < |Abs(s)| && s.p.SawRoom? ==> QueuedAt(s, i) != s.p.at
    ensures s.c.SawItem? ==> Abs(s) != [] && s.c.at == QueuedAt(s, 0)
  {
    hide SlotOf;
    forall i: nat | i < |Abs(s)|
      ensures s.buf[QueuedAt(s, i)] == Abs(s)[i]
      ensures QueuedAt(s, i) != s.tail
    {
      FreeSlot(s, |s.popped| + i);
    }
  }

  lemma FullIff<T>(s: State<T>)
    requires Inv(s)
    ensures NextSlot(s.tail, s.cap + 1) == s.head <==> |Abs(s)| == s.cap
    ensures s.head == s.tail <==> Abs(s) == []
  {
    hide Slot, NextSlot;
    var n := |s.pushed| - |s.popped|;
    SlotAt(|s.popped|, n, s.cap + 1);
    RingTests(|s.popped|, n, s.cap + 1);
  }

  // Nothing but one end's own place changes.
  lemma LoadInv<T>(s: State<T>, step: Step<T>)
    requires Inv(s) && Enabled(s, step) && (step.LoadTail? || step.LoadHead?)
    ensures Inv(Next(s, step))
  {
    hide SlotOf;
  }

  lemma CheckInv<T>(s: State<T>, step: Step<T>)
    requires Inv(s) && Enabled(s, step) && (step.CheckRoom? || step.CheckItem?)
    ensures Inv(Next(s, step))
  {
    hide SlotOf, NextSlot;
    FullIff(s);
  }

  lemma WriteInv<T>(s: State<T>)
    requires Inv(s) && Enabled(s, WriteSlot)
    ensures Inv(Next(s, WriteSlot))
  {
    hide SlotOf, NextSlot;
    forall i: nat | |s.popped| <= i < |s.pushed|
      ensures SlotOf(s.cap, i) != s.tail
    {
      FreeSlot(s, i);
    }
  }

  lemma PublishTailInv<T>(s: State<T>)
    requires Inv(s) && Enabled(s, PublishTail)
    ensures Inv(Next(s, PublishTail))
  {
    hide SlotOf, NextSlot;
    SlotNext(s.cap, |s.pushed|);
  }

  lemma ReadInv<T>(s: State<T>)
    requires Inv(s) && Enabled(s, ReadSlot)
    ensures Inv(Next(s, ReadSlot))
  {
    hide SlotOf, NextSlot;
  }

  lemma PublishHeadInv<T>(s: State<T>)
    requires Inv(s) && Enabled(s, PublishHead)
    ensures Inv(Next(s, PublishHead))
  {
    hide SlotOf, NextSlot;
    SlotNext(s.cap, |s.popped|);
  }

  // Every step of either end keeps the invariant.
  lemma StepInv<T>(s: State<T>, step: Step<T>)
    requires Inv(s) && Enabled(s, step)
    ensures Inv(Next(s, step))
  {
    hide Inv, Next;
    match step
    case LoadTail(_) => LoadInv(s, step);
    case LoadHead => LoadInv(s, step);
    case CheckRoom => CheckInv(s, step);
    case CheckItem => CheckInv(s, step);
    case WriteSlot => WriteInv(s);
    case PublishTail => PublishTailInv(s);
    case ReadSlot => ReadInv(s);
    case PublishHead => PublishHeadInv(s);
  }

  // What each step means for the queue: a push takes effect when the tail is published, a
  // pop when the head is; a push fails only while the queue holds cap items, a pop only
  // while it holds none; and nothing else changes it.
  lemma StepRefines<T>(s: State<T>, step: Step<T>)
    requires Inv(s) && Enabled(s, step)
    ensures Inv(Next(s, step))
    ensures step.PublishTail? ==> |Abs(s)| < s.cap && Abs(Next(s, step)) == Abs(s) + [s.p.item]
    ensures step.PublishHead? ==> Abs(s) != [] && s.c.item == Abs(s)[0] && Abs(Next(s, step)) == Abs(s)[1..]
    ensures !step.PublishTail? && !step.PublishHead? ==> Abs(Next(s, step)) == Abs(s)
    ensures step.CheckRoom? ==> (FindsFull(s, step) <==> |Abs(s)| == s.cap)
    ensures step.CheckItem? ==> (FindsEmpty(s, step) <==> Abs(s) == [])
  {
    StepInv(s, step);
    FullIff(s);
  }

  /* ---------- no end waits for the other ---------- */

  // How many of its own steps a push has still to take at most, and a pop.
  function PushLeft<T>(p: Producer<T>): nat {
    match p case AtRest => 0 case LoadedTail(_, _) => 3 case SawRoom(_, _) => 2 case Wrote(_, _) => 1
  }

  function PopLeft<T>(c: Consumer<T>): nat {
    match c case Resting => 0 case LoadedHead(_) => 3 case SawItem(_) => 2 case Read(_, _) => 1
  }

  predicate ByProducer<T>(step: Step<T>) {
    step.LoadTail? || step.CheckRoom? || step.WriteSlot? || step.PublishTail?
  }

  // A push that has begun can always take its next step, and each takes it nearer to its end
  // with the item it began with; it ends only by publishing it or finding the queue full. What
  // the other end does leaves it where it is. The same for a pop.
  lemma WaitFree<T>(s: State<T>, step: Step<T>)
    requires Inv(s) && Enabled(s, step)
    ensures var s' := Next(s, step);
      if ByProducer(step) then
        && s'.c == s.c
        && (step.LoadTail? ==> PushLeft(s'.p) == 3 && s'.p.item == step.item)
        && (!step.LoadTail? ==> PushLeft(s'.p) < PushLeft(s.p) && (!s'.p.AtRest? ==> s'.p.item == s.p.item))
        && (s'.p.AtRest? <==> step.PublishTail? || FindsFull(s, step))
      else
        && s'.p == s.p
        && (if step.LoadHead? then PopLeft(s'.c) == 3 else PopLeft(s'.c) < PopLeft(s.c))
        && (s'.c.Resting? <==> step.PublishHead? || FindsEmpty(s, step))
    ensures !s.p.AtRest? ==> Enabled(s, CheckRoom) || Enabled(s, WriteSlot) || Enabled(s, PublishTail)
    ensures !s.c.Resting? ==> Enabled(s, CheckItem) || Enabled(s, ReadSlot) || Enabled(s, PublishHead)
    ensures s.p.AtRest? ==> forall x: T :: Enabled(s, LoadTail(x))
    ensures s.c.Resting? ==> Enabled(s, LoadHead)
  {
    hide SlotOf;
    TailInRange(s);
  }

  lemma TailInRange<T>(s: State<T>)
    requires Inv(s)
    ensures s.head < |s.buf| && s.tail < |s.buf|
  {
  }

  ghost function OwnSteps<T>(steps: seq<Step<T>>): nat {
    if steps == [] then 0 else OwnSteps(steps[1..]) + if ByProducer(steps[0]) then 1 else 0
  }

  ghost predicate IsRun<T>(s: State<T>, steps: seq<Step<T>>)
    decreases |steps|
  {
    steps == [] || (Enabled(s, steps[0]) && |s.buf| == s.cap + 1 && IsRun(Next(s, steps[0]), steps[1..]))
  }

  ghost function After<T>(s: State<T>, steps: seq<Step<T>>): State<T>
    requires IsRun(s, steps)
    decreases |steps|
  {
    if steps == [] then s else After(Next(s, steps[0]), steps[1..])
  }

  ghost function Init<T>(cap: nat, blank: T): State<T> {
    State(cap, seq(cap + 1, _ => blank), 0, 0, AtRest, Resting, [], [])
  }

  lemma {:induction false} RunInv<T>(s: State<T>, steps: seq<Step<T>>)
    requires Inv(s) && IsRun(s, steps)
    ensures Inv(After(s, steps)) && After(s, steps).cap == s.cap
    decreases |steps|
  {
    if steps != [] {
      StepInv(s, steps[0]);
      RunInv(Next(s, steps[0]), steps[1..]);
    }
  }

  // Within one push the producer takes at most three steps after its load, and within one pop
  // the consumer, however the two interleave.
  lemma {:induction false} CallsEnd<T>(s: State<T>, steps: seq<Step<T>>)
    requires Inv(s) && IsRun(s, steps)
    ensures (forall j :: 0 <= j < |steps| ==> !steps[j].LoadTail?) ==>
      OwnSteps(steps) + PushLeft(After(s, steps).p) <= PushLeft(s.p)
    ensures (forall j :: 0 <= j < |steps| ==> !steps[j].LoadHead?) ==>
      |steps| - OwnSteps(steps) + PopLeft(After(s, steps).c) <= PopLeft(s.c)
    decreases |steps|
  {
    hide Inv, Next, Enabled, PushLeft, PopLeft, ByProducer;
    if steps != [] {
      StepInv(s, steps[0]);
      WaitFree(s, steps[0]);
      CallsEnd(Next(s, steps[0]), steps[1..]);
    }
  }

  // Under every interleaving, what was popped is a prefix of what was pushed, and at most
  // cap items are in between.
  lemma Fifo<T>(cap: nat, blank: T, steps: seq<Step<T>>)
    requires cap > 0 && IsRun(Init(cap, blank), steps)
    ensures var s := After(Init(cap, blank), steps);
      |s.popped| <= |s.pushed| <= |s.popped| + cap && s.popped == s.pushed[..|s.popped|]
  {
    RunInv(Init(cap, blank), steps);
  }
}

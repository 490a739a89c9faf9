/** LockFreeQueue: the ring through which any number of user threads hand transfer handles
    to one worker. A push is a load of head, a check against tail, a compare-and-swap that
    claims a position, and a store into the claimed slot; the worker waits for a claimed
    slot that is not filled yet. */
module MpscQueue {
  import opened Rings

  const QUEUE_SIZE: nat := 4096
  const INVALID: nat := 0

  /* ---------- the state of the protocol ---------- */

  datatype Producer =
    | Wanting(handle: nat)                      // about to load head
    | Loaded(handle: nat, head: nat, at: nat)   // at: how many claims there were at the load
    | Checked(handle: nat, head: nat, at: nat)
    | Claimed(handle: nat, pos: nat)            // compare-and-swap done, slot not stored yet

  datatype Consumer = Idle | Waiting | Got(handle: nat) | Cleared(handle: nat)

  // claims is the history of successful compare-and-swaps, taken that of pops.
  datatype State = State(
    n: nat, buf: seq<nat>, head: nat, tail: nat,
    producers: map<nat, Producer>, consumer: Consumer,
    claims: seq<nat>, taken: seq<nat>)

  datatype Step =
    | Begin(t: nat, handle: nat)
    | Load(t: nat)
    | Check(t: nat)
    | Cas(t: nat)
    | CasFails(t: nat)     // weak: may fail for no reason
    | Store(t: nat)
    | Peek
    | ReadSlot             // spins as long as the slot is INVALID
    | ClearSlot
    | Advance

  predicate Enabled(s: State, step: Step) {
    match step
    case Begin(t, h) => t !in s.producers && h != INVALID
    case Load(t) => t in s.producers && s.producers[t].Wanting?
    case Check(t) => t in s.producers && s.producers[t].Loaded?
    case Cas(t) => t in s.producers && s.producers[t].Checked? && s.producers[t].head == s.head
    case CasFails(t) => t in s.producers && s.producers[t].Checked?
    case Store(t) => t in s.producers && s.producers[t].Claimed?
    case Peek => s.consumer.Idle?
    case ReadSlot => s.consumer.Waiting?
    case ClearSlot => s.consumer.Got?
    case Advance => s.consumer.Cleared?
  }

  predicate Sized(s: State) {
    s.n > 1 && |s.buf| == s.n && s.head < s.n && s.tail < s.n
  }

  // The check compares the slot after the loaded head with the current tail.
  predicate SaysFull(s: State, t: nat)
    requires Sized(s)
  {
    t in s.producers && s.producers[t].Loaded? && (s.producers[t].head + 1) % s.n == s.tail
  }

  predicate SaysEmpty(s: State) {
    s.head == s.tail
  }

  function Next(s: State, step: Step): State
    requires Sized(s) && Enabled(s, step)
  {
    match step
    case Begin(t, h) => s.(producers := s.producers[t := Wanting(h)])
    case Load(t) => s.(producers := s.producers[t := Loaded(s.producers[t].handle, s.head, |s.claims|)])
    case Check(t) =>
      var p := s.producers[t];
      if SaysFull(s, t) then s.(producers := s.producers - {t})
      else s.(producers := s.producers[t := Checked(p.handle, p.head, p.at)])
    case Cas(t) =>
      var p := s.producers[t];
      s.(head := (p.head + 1) % s.n,
         claims := s.claims + [p.handle],
         producers := s.producers[t := Claimed(p.handle, |s.claims|)])
    case CasFails(t) => s.(producers := s.producers[t := Wanting(s.producers[t].handle)])
    case Store(t) =>
      var p := s.producers[t];
      s.(buf := s.buf[p.pos % s.n := p.handle], producers := s.producers - {t})
    case Peek => if SaysEmpty(s) then s else s.(consumer := Waiting)
    case ReadSlot => if s.buf[s.tail] == INVALID then s else s.(consumer := Got(s.buf[s.tail]))
    case ClearSlot => s.(buf := s.buf[s.tail := INVALID], consumer := Cleared(s.consumer.handle))
    case Advance => s.(tail := (s.tail + 1) % s.n, consumer := Idle, taken := s.taken + [s.consumer.handle])
  }

  function Init(n: nat): State {
    State(n, seq(n, _ => INVALID), 0, 0, map[], Idle, [], [])
  }

  /* ---------- the invariant ---------- */

  // Thread t has claimed position i and not stored into its slot yet.
  ghost predicate Owes(producers: map<nat, Producer>, t: nat, i: nat) {
    t in producers && producers[t].Claimed? && producers[t].pos == i
  }

  ghost predicate Unfilled(producers: map<nat, Producer>, i: nat) {
    exists t: nat :: Owes(producers, t, i)
  }

  ghost function At(n: nat, i: nat): (r: nat)
    requires n > 0
    ensures r < n
  {
    i % n
  }

  ghost predicate CountsOk(s: State) {
    && Sized(s)
    && |s.taken| <= |s.claims| <= |s.taken| + s.n - 1
    && s.taken == s.claims[..|s.taken|]
    && s.head == At(s.n, |s.claims|) && s.tail == At(s.n, |s.taken|)
    && forall i :: 0 <= i < |s.claims| ==> s.claims[i] != INVALID
  }

  // A claimed position's slot is filled with its handle, or still owed by one thread, or
  // it is the one that the worker has just cleared.
  ghost predicate SlotOk(s: State, i: nat)
    requires Sized(s) && |s.taken| <= i < |s.claims|
  {
    var v := s.buf[At(s.n, i)];
    if Unfilled(s.producers, i) then v == INVALID && !(i == |s.taken| && (s.consumer.Got? || s.consumer.Cleared?))
    else v == if i == |s.taken| && s.consumer.Cleared? then INVALID else s.claims[i]
  }

  ghost predicate InWindow(s: State, j: nat)
    requires s.n > 0
  {
    exists i: nat :: |s.taken| <= i < |s.claims| && At(s.n, i) == j
  }

  ghost predicate SlotsOk(s: State)
    requires Sized(s)
  {
    && (forall i: nat :: |s.taken| <= i < |s.claims| ==> SlotOk(s, i))
    && (forall j: nat :: j < s.n && !InWindow(s, j) ==> s.buf[j] == INVALID)
  }

  ghost predicate ProducerOk(s: State, p: Producer)
    requires s.n > 0
  {
    && p.handle != INVALID
    && match p
       case Wanting(_) => true
       case Loaded(_, h, at) => at <= |s.claims| && h == At(s.n, at)
       case Checked(_, h, at) =>
         at <= |s.claims| && h == At(s.n, at) && (|s.claims| == at ==> |s.claims| < |s.taken| + s.n - 1)
       case Claimed(h, pos) => |s.taken| <= pos < |s.claims| && s.claims[pos] == h
  }

  ghost predicate ProducersOk(s: State)
    requires s.n > 0
  {
    && (forall t :: t in s.producers ==> ProducerOk(s, s.producers[t]))
    && (forall t, u, i: nat :: Owes(s.producers, t, i) && Owes(s.producers, u, i) ==> t == u)
  }

  ghost predicate ConsumerOk(s: State) {
    && (!s.consumer.Idle? ==> |s.taken| < |s.claims|)
    && (s.consumer.Got? || s.consumer.Cleared? ==> |s.taken| < |s.claims| && s.consumer.handle == s.claims[|s.taken|])
  }

  ghost predicate Inv(s: State) {
    CountsOk(s) && SlotsOk(s) && ProducersOk(s) && ConsumerOk(s)
  }

  // A compare-and-swap claims the position of a slot that may be claimed.
  ghost predicate HasRoom(s: State, step: Step) {
    step.Cas? ==> |s.claims| < |s.taken| + s.n - 1
  }

  // No compare-and-swap succeeds after head went once around since its thread's load.
  ghost predicate NoLap(s: State, step: Step) {
    step.Cas? && Enabled(s, step) ==> |s.claims| < s.producers[step.t].at + s.n
  }

  lemma InitInv(n: nat)
    requires n > 1
    ensures Inv(Init(n))
  {
  }

  /* ---------- each step ---------- */

  // A compare-and-swap without a lap saw the head that it loaded, and so has room.
  lemma CasSawCurrent(s: State, t: nat)
    requires CountsOk(s) && ProducersOk(s) && Enabled(s, Cas(t)) && NoLap(s, Cas(t))
    ensures |s.claims| == s.producers[t].at && HasRoom(s, Cas(t))
  {
    assert ProducerOk(s, s.producers[t]);
    SlotsDistinct(s.producers[t].at, |s.claims|, s.n);
  }

  lemma WindowSlots(s: State, i: nat, j: nat)
    requires CountsOk(s) && |s.taken| <= i < |s.claims| && |s.taken| <= j <= |s.claims| && i != j
    ensures At(s.n, i) != At(s.n, j)
  {
    if At(s.n, i) == At(s.n, j) {
      SlotsDistinct(if i < j then i else j, if i < j then j else i, s.n);
    }
  }

  ghost predicate SameOwed(producers: map<nat, Producer>, producers': map<nat, Producer>, i: nat) {
    Unfilled(producers, i) <==> Unfilled(producers', i)
  }

  lemma WindowGrows(s: State, s': State, j: nat)
    requires s'.n == s.n > 0 && |s'.taken| <= |s.taken| && |s.claims| <= |s'.claims| && InWindow(s, j)
    ensures InWindow(s', j)
  {
    var i: nat :| |s.taken| <= i < |s.claims| && At(s.n, i) == j;
    assert |s'.taken| <= i < |s'.claims| && At(s'.n, i) == j;
  }

  lemma WindowMoves(s: State, s': State, j: nat)
    requires s'.n == s.n > 0 && |s'.taken| == |s.taken| + 1 && |s.claims| == |s'.claims| && InWindow(s, j)
    ensures InWindow(s', j) || j == At(s.n, |s.taken|)
  {
    var i: nat :| |s.taken| <= i < |s.claims| && At(s.n, i) == j;
    assert i != |s.taken| ==> |s'.taken| <= i < |s'.claims| && At(s'.n, i) == j;
  }

  // Slots keep their meaning if the ring does and no position changes between owed and not.
  lemma SlotsKept(s: State, s': State)
    requires Sized(s) && SlotsOk(s) && s' == s.(producers := s'.producers, consumer := s'.consumer)
    requires forall i: nat :: |s.taken| <= i < |s.claims| ==> SameOwed(s.producers, s'.producers, i)
    requires s'.consumer.Cleared? <==> s.consumer.Cleared?
    requires s'.consumer.Got? && |s.taken| < |s.claims| ==> !Unfilled(s.producers, |s.taken|)
    ensures Sized(s') && SlotsOk(s')
  {
    hide At, Unfilled;
    forall i: nat | |s.taken| <= i < |s.claims|
      ensures SlotOk(s', i)
    {
      assert SlotOk(s, i) && SameOwed(s.producers, s'.producers, i);
    }
    forall j: nat | j < s.n && !InWindow(s', j)
      ensures s'.buf[j] == INVALID
    {
      if InWindow(s, j) {
        WindowGrows(s, s', j);
      }
    }
  }

  lemma SameClaims(producers: map<nat, Producer>, t: nat, producers': map<nat, Producer>)
    requires forall u :: u != t ==>
      (u in producers' <==> u in producers) && (u in producers ==> producers'[u] == producers[u])
    requires t in producers ==> !producers[t].Claimed?
    requires t in producers' ==> !producers'[t].Claimed?
    ensures forall u, i: nat :: Owes(producers', u, i) <==> Owes(producers, u, i)
    ensures forall i: nat :: SameOwed(producers, producers', i)
  {
    forall u, i: nat
      ensures Owes(producers', u, i) <==> Owes(producers, u, i)
    {
    }
    forall i: nat
      ensures SameOwed(producers, producers', i)
    {
      assert forall u: nat :: Owes(producers', u, i) <==> Owes(producers, u, i);
    }
  }

  // A thread moves without touching ring or histories.
  lemma ThreadStep(s: State, t: nat, s': State)
    requires Inv(s) && s' == s.(producers := s'.producers)
    requires forall u :: u != t ==>
      (u in s'.producers <==> u in s.producers) && (u in s.producers ==> s'.producers[u] == s.producers[u])
    requires t in s.producers ==> !s.producers[t].Claimed?
    requires t in s'.producers ==> !s'.producers[t].Claimed? && ProducerOk(s, s'.producers[t])
    ensures Inv(s')
  {
    hide At, Unfilled, SlotsOk, Owes;
    SameClaims(s.producers, t, s'.producers);
    GotFilled(s);
    SlotsKept(s, s');
    forall u | u in s'.producers
      ensures ProducerOk(s', s'.producers[u])
    {
      assert u != t ==> ProducerOk(s, s.producers[u]);
    }
  }

  lemma GotFilled(s: State)
    requires Inv(s)
    ensures s.consumer.Got? || s.consumer.Cleared? ==> !Unfilled(s.producers, |s.taken|)
  {
    hide At, Unfilled, InWindow;
    assert |s.taken| < |s.claims| ==> SlotOk(s, |s.taken|);
  }

  lemma CheckInv(s: State, t: nat)
    requires Inv(s) && Enabled(s, Check(t))
    ensures Inv(Next(s, Check(t)))
  {
    hide SlotsOk, Owes, Unfilled;
    assert ProducerOk(s, s.producers[t]);
    FullAndEmpty(|s.taken|, |s.claims|, s.n);
    ThreadStep(s, t, Next(s, Check(t)));
  }

  lemma CasCounts(s: State, t: nat)
    requires Inv(s) && Enabled(s, Cas(t)) && HasRoom(s, Cas(t))
    ensures CountsOk(Next(s, Cas(t))) && ConsumerOk(Next(s, Cas(t)))
  {
    hide SlotsOk;
    assert ProducerOk(s, s.producers[t]);
    ModNext(|s.claims|, s.n);
  }

  lemma CasProducers(s: State, t: nat)
    requires Inv(s) && Enabled(s, Cas(t)) && HasRoom(s, Cas(t))
    ensures ProducersOk(Next(s, Cas(t)))
  {
    hide SlotsOk;
    var s' := Next(s, Cas(t));
    forall u | u in s'.producers
      ensures ProducerOk(s', s'.producers[u])
    {
      assert ProducerOk(s, s.producers[u]);
    }
    forall u, v, i: nat | Owes(s'.producers, u, i) && Owes(s'.producers, v, i)
      ensures u == v
    {
      assert u != t ==> Owes(s.producers, u, i) && ProducerOk(s, s.producers[u]);
      assert v != t ==> Owes(s.producers, v, i) && ProducerOk(s, s.producers[v]);
    }
  }

  // The claimed position is owed, no other position changes.
  lemma CasOwed(s: State, t: nat, i: nat)
    requires Sized(s) && ProducersOk(s) && Enabled(s, Cas(t))
    ensures Unfilled(Next(s, Cas(t)).producers, i) <==> Unfilled(s.producers, i) || i == |s.claims|
  {
    var ps := Next(s, Cas(t)).producers;
    assert Owes(ps, t, |s.claims|);
    if u: nat :| Owes(ps, u, i) {
      assert u != t ==> Owes(s.producers, u, i);
    }
    if u: nat :| Owes(s.producers, u, i) {
      assert Owes(ps, u, i);
    }
  }

  lemma CasSlots(s: State, t: nat)
    requires Inv(s) && Enabled(s, Cas(t)) && HasRoom(s, Cas(t))
    ensures Sized(Next(s, Cas(t))) && SlotsOk(Next(s, Cas(t)))
  {
    hide At, Unfilled;
    var s' := Next(s, Cas(t));
    var last := |s.claims|;
    FreshSlot(s, last);
    CasCounts(s, t);
    forall i: nat | |s'.taken| <= i < |s'.claims|
      ensures SlotOk(s', i)
    {
      CasOwed(s, t, i);
      assert i < last ==> SlotOk(s, i);
      assert ConsumerOk(s);
    }
    forall j: nat | j < s.n && !InWindow(s', j)
      ensures s'.buf[j] == INVALID
    {
      if InWindow(s, j) {
        WindowGrows(s, s', j);
      }
    }
  }

  // The slot after the last claim is INVALID as long as the ring is not full.
  lemma FreshSlot(s: State, i: nat)
    requires CountsOk(s) && SlotsOk(s) && i == |s.claims| && |s.claims| < |s.taken| + s.n - 1
    ensures s.buf[At(s.n, i)] == INVALID
  {
    hide At, SlotOk;
    if InWindow(s, At(s.n, i)) {
      var j: nat :| |s.taken| <= j < |s.claims| && At(s.n, j) == At(s.n, i);
      WindowSlots(s, j, i);
    }
  }

  lemma CasInv(s: State, t: nat)
    requires Inv(s) && Enabled(s, Cas(t)) && HasRoom(s, Cas(t))
    ensures Inv(Next(s, Cas(t)))
  {
    hide CountsOk, SlotsOk, ProducersOk, ConsumerOk, Next;
    CasCounts(s, t);
    CasProducers(s, t);
    CasSlots(s, t);
  }

  lemma StoreOwed(s: State, t: nat, i: nat)
    requires Sized(s) && ProducersOk(s) && Enabled(s, Store(t))
    ensures Unfilled(Next(s, Store(t)).producers, i) <==> Unfilled(s.producers, i) && i != s.producers[t].pos
  {
    var ps := Next(s, Store(t)).producers;
    assert Owes(s.producers, t, s.producers[t].pos);
    if u: nat :| Owes(ps, u, i) {
      assert Owes(s.producers, u, i);
    }
    if u: nat :| Owes(s.producers, u, i) {
      assert u != t ==> Owes(ps, u, i);
    }
  }

  lemma StoreInv(s: State, t: nat)
    requires Inv(s) && Enabled(s, Store(t))
    ensures Inv(Next(s, Store(t)))
  {
    hide At, Unfilled, SlotsOk;
    var s' := Next(s, Store(t));
    assert ProducerOk(s, s.producers[t]);
    forall u | u in s'.producers
      ensures ProducerOk(s', s'.producers[u])
    {
      assert ProducerOk(s, s.producers[u]);
    }
    forall u, v, i: nat | Owes(s'.producers, u, i) && Owes(s'.producers, v, i)
      ensures u == v
    {
      assert Owes(s.producers, u, i) && Owes(s.producers, v, i);
    }
    StoreSlots(s, t);
  }

  lemma StoreSlots(s: State, t: nat)
    requires Inv(s) && Enabled(s, Store(t))
    ensures SlotsOk(Next(s, Store(t)))
  {
    var s' := Next(s, Store(t));
    var pos := s.producers[t].pos;
    assert ProducerOk(s, s.producers[t]);
    assert Owes(s.producers, t, pos);
    StoreSlotsAt(s, t, pos, s');
  }

  lemma StoreSlotsAt(s: State, t: nat, pos: nat, s': State)
    requires Inv(s) && Enabled(s, Store(t)) && pos == s.producers[t].pos && s' == Next(s, Store(t))
    requires |s.taken| <= pos < |s.claims| && s.claims[pos] == s.producers[t].handle
    requires s'.buf == s.buf[At(s.n, pos) := s.claims[pos]] && Unfilled(s.producers, pos)
    ensures SlotsOk(s')
  {
    hide At, Unfilled;
    assert SlotOk(s, pos);
    forall i: nat | |s'.taken| <= i < |s'.claims|
      ensures SlotOk(s', i)
    {
      StoreOwed(s, t, i);
      assert SlotOk(s, i);
      if i != pos {
        WindowSlots(s, i, pos);
      }
    }
    forall j: nat | j < s.n && !InWindow(s', j)
      ensures s'.buf[j] == INVALID
    {
      assert |s'.taken| <= pos < |s'.claims| && At(s'.n, pos) == At(s.n, pos);
      if InWindow(s, j) {
        WindowGrows(s, s', j);
      }
    }
  }

  /* ---------- the worker's side ---------- */

  lemma ProducersKept(s: State, s': State)
    requires Sized(s) && ProducersOk(s) && s'.producers == s.producers && s'.claims == s.claims && s'.n == s.n
    requires |s'.taken| >= |s.taken|
    requires forall t, i: nat :: Owes(s.producers, t, i) ==> |s'.taken| <= i
    ensures ProducersOk(s')
  {
    forall t | t in s'.producers
      ensures ProducerOk(s', s'.producers[t])
    {
      assert ProducerOk(s, s.producers[t]);
      assert s.producers[t].Claimed? ==> Owes(s.producers, t, s.producers[t].pos);
    }
  }

  lemma OwedInWindow(s: State)
    requires Sized(s) && ProducersOk(s)
    ensures forall t, i: nat :: Owes(s.producers, t, i) ==> |s.taken| <= i
  {
    forall t, i: nat | Owes(s.producers, t, i)
      ensures |s.taken| <= i
    {
      assert ProducerOk(s, s.producers[t]);
    }
  }

  lemma PeekInv(s: State)
    requires Inv(s) && Enabled(s, Peek)
    ensures Inv(Next(s, Peek))
  {
    hide At, SlotsOk, Unfilled, ProducersOk;
    var s' := Next(s, Peek);
    TailNotHead(s);
    OwedInWindow(s);
    ProducersKept(s, s');
    SlotsKept(s, s');
  }

  // The worker finds the queue empty exactly when every claim was taken.
  lemma TailNotHead(s: State)
    requires CountsOk(s)
    ensures SaysEmpty(s) <==> |s.claims| == |s.taken|
  {
    FullAndEmpty(|s.taken|, |s.claims|, s.n);
  }

  lemma ReadInv(s: State)
    requires Inv(s) && Enabled(s, ReadSlot)
    ensures Inv(Next(s, ReadSlot))
  {
    hide At, SlotsOk, Unfilled, ProducersOk;
    var s' := Next(s, ReadSlot);
    ReadFilled(s);
    OwedInWindow(s);
    ProducersKept(s, s');
    SlotsKept(s, s');
  }

  // The worker waits only for a slot whose thread has not stored yet, and otherwise reads
  // the oldest claim.
  lemma ReadFilled(s: State)
    requires Inv(s) && s.consumer.Waiting?
    ensures s.buf[s.tail] == INVALID <==> Unfilled(s.producers, |s.taken|)
    ensures s.buf[s.tail] != INVALID ==> s.buf[s.tail] == s.claims[|s.taken|]
  {
    hide At, Unfilled, InWindow;
    assert SlotOk(s, |s.taken|);
  }

  lemma ClearInv(s: State)
    requires Inv(s) && Enabled(s, ClearSlot)
    ensures Inv(Next(s, ClearSlot))
  {
    hide At, Unfilled, ProducersOk;
    var s' := Next(s, ClearSlot);
    OwedInWindow(s);
    ProducersKept(s, s');
    forall i: nat | |s'.taken| <= i < |s'.claims|
      ensures SlotOk(s', i)
    {
      assert SlotOk(s, i);
      if i != |s.taken| {
        WindowSlots(s, i, |s.taken|);
      }
    }
    forall j: nat | j < s.n && !InWindow(s', j)
      ensures s'.buf[j] == INVALID
    {
      if InWindow(s, j) {
        WindowGrows(s, s', j);
      }
    }
  }

  lemma AdvanceInv(s: State)
    requires Inv(s) && Enabled(s, Advance)
    ensures Inv(Next(s, Advance))
  {
    hide At, Unfilled, ProducersOk, SlotsOk;
    var s' := Next(s, Advance);
    GotFilled(s);
    OwedInWindow(s);
    NotOwed(s, |s.taken|);
    ProducersKept(s, s');
    AdvanceCounts(s);
    AdvanceSlots(s, s');
  }

  lemma AdvanceCounts(s: State)
    requires Inv(s) && Enabled(s, Advance)
    ensures CountsOk(Next(s, Advance))
  {
    hide SlotsOk, ProducersOk;
    ModNext(|s.taken|, s.n);
  }

  lemma NotOwed(s: State, i: nat)
    requires !Unfilled(s.producers, i)
    ensures forall t: nat, j: nat :: Owes(s.producers, t, j) ==> j != i
  {
  }

  lemma AdvanceSlots(s: State, s': State)
    requires CountsOk(s) && SlotsOk(s) && ConsumerOk(s) && s.consumer.Cleared? && Sized(s')
    requires s' == s.(tail := s'.tail, consumer := Idle, taken := s'.taken) && |s'.taken| == |s.taken| + 1
    requires !Unfilled(s.producers, |s.taken|)
    ensures SlotsOk(s')
  {
    hide At, Unfilled;
    assert SlotOk(s, |s.taken|);
    forall i: nat | |s'.taken| <= i < |s'.claims|
      ensures SlotOk(s', i)
    {
      assert SlotOk(s, i);
    }
    forall j: nat | j < s.n && !InWindow(s', j)
      ensures s'.buf[j] == INVALID
    {
      if InWindow(s, j) {
        WindowMoves(s, s', j);
      }
    }
  }

  lemma LoadInv(s: State, step: Step)
    requires Inv(s) && Enabled(s, step) && (step.Begin? || step.Load? || step.CasFails?)
    ensures Inv(Next(s, step))
  {
    hide SlotsOk, Owes, Unfilled;
    assert step.t in s.producers ==> ProducerOk(s, s.producers[step.t]);
    ThreadStep(s, step.t, Next(s, step));
  }

  lemma StepInv(s: State, step: Step)
    requires Inv(s) && Enabled(s, step) && HasRoom(s, step)
    ensures Inv(Next(s, step))
  {
    hide CountsOk, SlotsOk, ProducersOk, ConsumerOk, Enabled, Next, HasRoom;
    match step
    case Begin(_, _) => LoadInv(s, step);
    case Load(_) => LoadInv(s, step);
    case Check(t) => CheckInv(s, t);
    case Cas(t) => CasInv(s, t);
    case CasFails(_) => LoadInv(s, step);
    case Store(t) => StoreInv(s, t);
    case Peek => PeekInv(s);
    case ReadSlot => ReadInv(s);
    case ClearSlot => ClearInv(s);
    case Advance => AdvanceInv(s);
  }

  /* ---------- what a user sees ---------- */

  // The queue: claimed and not taken, in the order of the compare-and-swaps.
  ghost function Queue(s: State): seq<nat>
    requires |s.taken| <= |s.claims|
  {
    s.claims[|s.taken|..]
  }

  // A push takes effect at its compare-and-swap, a pop when it advances tail; the pop
  // returns the oldest handle. Nothing else changes the queue, and the worker finds it
  // empty exactly when it is.
  lemma StepRefines(s: State, step: Step)
    requires Inv(s) && Enabled(s, step) && HasRoom(s, step)
    ensures Inv(Next(s, step))
    ensures step.Cas? ==> Queue(Next(s, step)) == Queue(s) + [s.producers[step.t].handle]
    ensures step.Advance? ==>
      Queue(s) != [] && s.consumer.handle == Queue(s)[0] && Queue(Next(s, step)) == Queue(s)[1..]
    ensures !step.Cas? && !step.Advance? ==> Queue(Next(s, step)) == Queue(s)
    ensures step.Peek? ==> (SaysEmpty(s) <==> Queue(s) == [])
  {
    hide SlotsOk, ProducersOk, At;
    StepInv(s, step);
    TailNotHead(s);
  }

  // A compare-and-swap leaves the ring sound exactly if fewer than n - 1 handles are queued,
  // laps or not. If n - 1 are, n slots are claimed afterwards and the queue looks empty; that
  // takes a lap of head since the thread's load.
  lemma CasSoundIff(s: State, t: nat)
    requires Inv(s) && Enabled(s, Cas(t))
    ensures Inv(Next(s, Cas(t))) <==> |Queue(s)| < s.n - 1
    ensures |Queue(s)| == s.n - 1 ==>
      SaysEmpty(Next(s, Cas(t))) && |Queue(Next(s, Cas(t)))| == s.n && |s.claims| >= s.producers[t].at + s.n
  {
    hide SlotsOk, ProducerOk, At;
    if |Queue(s)| < s.n - 1 {
      CasInv(s, t);
    } else {
      OverfullMeets(s, t);
      if NoLap(s, Cas(t)) {
        CasSawCurrent(s, t);
      }
    }
  }

  lemma OverfullMeets(s: State, t: nat)
    requires CountsOk(s) && Enabled(s, Cas(t)) && |Queue(s)| == s.n - 1
    ensures SaysEmpty(Next(s, Cas(t))) && |Queue(Next(s, Cas(t)))| == s.n
  {
    ModNext(|s.claims|, s.n);
    OneRound(|s.taken|, s.n);
  }

  ghost predicate IsRun(s: State, steps: seq<Step>)
    decreases |steps|
  {
    steps == [] || (Sized(s) && Enabled(s, steps[0]) && IsRun(Next(s, steps[0]), steps[1..]))
  }

  ghost function After(s: State, steps: seq<Step>): State
    requires IsRun(s, steps)
    decreases |steps|
  {
    if steps == [] then s else After(Next(s, steps[0]), steps[1..])
  }

  // No compare-and-swap of the run finds the ring full.
  ghost predicate NeverOverfills(s: State, steps: seq<Step>)
    requires IsRun(s, steps)
    decreases |steps|
  {
    steps == [] || (HasRoom(s, steps[0]) && NeverOverfills(Next(s, steps[0]), steps[1..]))
  }

  ghost predicate NeverLaps(s: State, steps: seq<Step>)
    requires IsRun(s, steps)
    decreases |steps|
  {
    steps == [] || (NoLap(s, steps[0]) && NeverLaps(Next(s, steps[0]), steps[1..]))
  }

  ghost predicate StaysSound(s: State, steps: seq<Step>)
    requires IsRun(s, steps)
    decreases |steps|
  {
    Inv(s) && (steps == [] || StaysSound(Next(s, steps[0]), steps[1..]))
  }

  // The ring is sound all along a run exactly if no compare-and-swap finds it full.
  lemma {:induction false} SoundRunIff(s: State, steps: seq<Step>)
    requires Inv(s) && IsRun(s, steps)
    ensures StaysSound(s, steps) <==> NeverOverfills(s, steps)
    decreases |steps|
  {
    hide Inv, Next, Enabled;
    if steps != [] {
      var n := Next(s, steps[0]);
      if Inv(n) {
        SoundRunIff(n, steps[1..]);
        if steps[0].Cas? {
          QueueLength(s);
          CasSoundIff(s, steps[0].t);
        }
      } else if HasRoom(s, steps[0]) {
        StepInv(s, steps[0]);
      }
    }
  }

  lemma {:induction false} RunInv(s: State, steps: seq<Step>)
    requires Inv(s) && IsRun(s, steps) && NeverOverfills(s, steps)
    ensures Inv(After(s, steps)) && After(s, steps).n == s.n
    decreases |steps|
  {
    hide Inv, HasRoom, Enabled;
    if steps != [] {
      StepInv(s, steps[0]);
      RunInv(Next(s, steps[0]), steps[1..]);
    }
  }

  // For any number of threads under every interleaving in which no compare-and-swap finds
  // the ring full: what was popped is what was claimed, in the order of the
  // compare-and-swaps; never more than 4095 slots are claimed; every slot outside
  // [tail, head) is INVALID.
  lemma Linearizable(steps: seq<Step>)
    requires IsRun(Init(QUEUE_SIZE), steps) && NeverOverfills(Init(QUEUE_SIZE), steps)
    ensures var s := After(Init(QUEUE_SIZE), steps);
      && s.n == QUEUE_SIZE && |s.buf| == QUEUE_SIZE
      && |s.taken| <= |s.claims| <= |s.taken| + 4095
      && s.taken == s.claims[..|s.taken|]
      && forall j: nat :: j < s.n && !InWindow(s, j) ==> s.buf[j] == INVALID
  {
    hide At, SlotOk, InWindow;
    InitInv(QUEUE_SIZE);
    RunInv(Init(QUEUE_SIZE), steps);
  }

  // Without a lap no compare-and-swap finds the ring full.
  lemma {:induction false} NoLapNoOverfill(s: State, steps: seq<Step>)
    requires Inv(s) && IsRun(s, steps) && NeverLaps(s, steps)
    ensures NeverOverfills(s, steps)
    decreases |steps|
  {
    hide CountsOk, SlotsOk, ProducersOk, ConsumerOk, Next, NoLap, HasRoom, Enabled;
    if steps != [] {
      if steps[0].Cas? {
        CasSawCurrent(s, steps[0].t);
      } else {
        NoCasHasRoom(s, steps[0]);
      }
      StepInv(s, steps[0]);
      NoLapNoOverfill(Next(s, steps[0]), steps[1..]);
    }
  }

  lemma NoCasHasRoom(s: State, step: Step)
    requires !step.Cas?
    ensures HasRoom(s, step)
  {
  }

  // The worker's wait for an unfilled slot is for a thread that has only its store left,
  // and ends with it.
  lemma WaitEnds(s: State) returns (t: nat)
    requires Inv(s) && s.consumer.Waiting? && s.buf[s.tail] == INVALID
    ensures Enabled(s, Store(t)) && Next(s, Store(t)).buf[s.tail] == s.claims[|s.taken|] != INVALID
  {
    hide SlotsOk;
    ReadFilled(s);
    t :| Owes(s.producers, t, |s.taken|);
    assert ProducerOk(s, s.producers[t]);
  }

  /* ---------- no handle lost or duplicated ---------- */

  ghost function Count(handles: seq<nat>, h: nat): nat {
    if handles == [] then 0 else Count(handles[..|handles| - 1], h) + if handles[|handles| - 1] == h then 1 else 0
  }

  // The threads that push h and have not claimed a position for it.
  ghost function Trying(producers: map<nat, Producer>, h: nat): set<nat> {
    set t | t in producers && !producers[t].Claimed? && producers[t].handle == h
  }

  // How many pushes of h the run begins, and how many it turns away as full.
  ghost function Begun(steps: seq<Step>, h: nat): nat {
    if steps == [] then 0 else Begun(steps[1..], h) + if steps[0].Begin? && steps[0].handle == h then 1 else 0
  }

  ghost predicate TurnsAway(s: State, step: Step, h: nat)
    requires Sized(s)
  {
    step.Check? && SaysFull(s, step.t) && s.producers[step.t].handle == h
  }

  ghost function Refused(s: State, steps: seq<Step>, h: nat): nat
    requires IsRun(s, steps)
    decreases |steps|
  {
    if steps == [] then 0
    else Refused(Next(s, steps[0]), steps[1..], h) + if TurnsAway(s, steps[0], h) then 1 else 0
  }

  lemma CountAppend(handles: seq<nat>, x: nat, h: nat)
    ensures Count(handles + [x], h) == Count(handles, h) + if x == h then 1 else 0
  {
    assert (handles + [x])[..|handles|] == handles;
  }

  ghost predicate Tries(p: Producer, h: nat) {
    !p.Claimed? && p.handle == h
  }

  lemma TryingPut(producers: map<nat, Producer>, t: nat, p: Producer, h: nat)
    ensures |Trying(producers[t := p], h)| == |Trying(producers, h)|
      - (if t in producers && Tries(producers[t], h) then 1 else 0) + if Tries(p, h) then 1 else 0
  {
    var was, now := Trying(producers, h), Trying(producers[t := p], h);
    var others := was - {t};
    assert now - {t} == others;
    assert was == if t in was then others + {t} else others;
    assert now == if t in now then others + {t} else others;
  }

  lemma TryingDrop(producers: map<nat, Producer>, t: nat, h: nat)
    ensures |Trying(producers - {t}, h)| == |Trying(producers, h)|
      - if t in producers && Tries(producers[t], h) then 1 else 0
  {
    assert Trying(producers - {t}, h) == Trying(producers, h) - {t};
  }

  // How the threads trying to push h change: one starts, or one ends, or none.
  lemma TryingStep(s: State, step: Step, h: nat)
    requires Sized(s) && Enabled(s, step)
    ensures |Trying(Next(s, step).producers, h)| == |Trying(s.producers, h)|
      + if step.Begin? && step.handle == h then 1
        else if (step.Cas? && s.producers[step.t].handle == h) || TurnsAway(s, step, h) then -1 else 0
  {
    hide Trying;
    var now := Next(s, step).producers;
    match step
    case Begin(t, _) => TryingPut(s.producers, t, now[t], h);
    case Load(t) => TryingPut(s.producers, t, now[t], h);
    case Check(t) =>
      if SaysFull(s, t) { TryingDrop(s.producers, t, h); } else { TryingPut(s.producers, t, now[t], h); }
    case Cas(t) => TryingPut(s.producers, t, now[t], h);
    case CasFails(t) => TryingPut(s.producers, t, now[t], h);
    case Store(t) => TryingDrop(s.producers, t, h);
    case _ =>
  }

  lemma StepCounts(s: State, step: Step, h: nat)
    requires Sized(s) && Enabled(s, step)
    ensures Count(Next(s, step).claims, h) + |Trying(Next(s, step).producers, h)|
      + (if TurnsAway(s, step, h) then 1 else 0)
      == Count(s.claims, h) + |Trying(s.producers, h)| + if step.Begin? && step.handle == h then 1 else 0
  {
    hide Trying, Count;
    TryingStep(s, step, h);
    if step.Cas? {
      CountAppend(s.claims, s.producers[step.t].handle, h);
    }
  }

  // Every push that began is exactly one of: claimed once, still trying, turned away.
  lemma {:induction false} PushesConserved(s: State, steps: seq<Step>, h: nat)
    requires IsRun(s, steps)
    ensures Count(After(s, steps).claims, h) + |Trying(After(s, steps).producers, h)| + Refused(s, steps, h)
      == Count(s.claims, h) + |Trying(s.producers, h)| + Begun(steps, h)
    decreases |steps|
  {
    hide Next, Enabled, TurnsAway, Trying, Count;
    if steps != [] {
      StepCounts(s, steps[0], h);
      PushesConserved(Next(s, steps[0]), steps[1..], h);
    }
  }

  /* ---------- what the checks say ---------- */

  // The worker has already taken the position that was loaded as the next free one, or a
  // whole number of rounds more.
  ghost predicate Overtaken(n: nat, at: nat, taken: nat)
    requires n > 0
  {
    taken > at && (taken - (at + 1)) % n == 0
  }

  // When the check says full, whatever happened since the load. Either the queue is full and
  // nobody claimed since, or the worker has overtaken the thread, and then the queue may
  // hold anything.
  lemma SaysFullIff(s: State, t: nat)
    requires Inv(s) && Enabled(s, Check(t))
    ensures SaysFull(s, t) <==>
      || (|Queue(s)| == s.n - 1 && |s.claims| == s.producers[t].at)
      || Overtaken(s.n, s.producers[t].at, |s.taken|)
  {
    hide SlotsOk;
    var at, took := s.producers[t].at, |s.taken|;
    assert ProducerOk(s, s.producers[t]);
    ModNext(at, s.n);
    assert SaysFull(s, t) <==> (at + 1) % s.n == took % s.n;
    if took > at {
      SameSlotIff(at + 1, took, s.n);
    } else if took + s.n == at + 1 {
      OneRound(took, s.n);
    } else if (at + 1) % s.n == took % s.n {
      SlotsDistinct(took, at + 1, s.n);
    }
  }

  // A push can be turned away as full from an empty queue: thread 1 loads head, thread 2
  // pushes, the worker pops, thread 1 checks.
  lemma FullThoughEmpty(a: nat, b: nat) returns (steps: seq<Step>)
    requires a != INVALID && b != INVALID
    ensures IsRun(Init(QUEUE_SIZE), steps)
    ensures var s := After(Init(QUEUE_SIZE), steps);
      Sized(s) && |s.taken| <= |s.claims| && Queue(s) == [] && Enabled(s, Check(1)) && SaysFull(s, 1)
  {
    hide Inv, At;
    var s0 := Init(QUEUE_SIZE);
    var s1 := Next(s0, Begin(1, a));
    var s2 := Next(s1, Load(1));
    InitInv(QUEUE_SIZE);
    StepInv(s0, Begin(1, a));
    StepInv(s1, Load(1));
    var push, s3 := PushAlone(s2, 2, b);
    QueueLength(s3);
    NobodyOwes(s3);
    var pop, s4 := PopAlone(s3);
    QueueLength(s4);
    InvSized(s4);
    EmptyAfter(s4);
    Joined(s2, push, s3, pop);
    Prefixed(s1, Load(1), push + pop);
    Prefixed(s0, Begin(1, a), [Load(1)] + (push + pop));
    steps := [Begin(1, a)] + ([Load(1)] + (push + pop));
  }

  // After one push and one pop the tail is behind slot 0.
  lemma EmptyAfter(s: State)
    requires Inv(s) && s.n == QUEUE_SIZE && |s.taken| == 1
    ensures s.tail == 1
  {
    DivUnique(1, 0, 1, QUEUE_SIZE);
  }

  lemma Prefixed(s: State, step: Step, rest: seq<Step>)
    requires Sized(s) && Enabled(s, step) && IsRun(Next(s, step), rest)
    ensures IsRun(s, [step] + rest) && After(s, [step] + rest) == After(Next(s, step), rest)
  {
    assert ([step] + rest)[1..] == rest;
  }

  lemma {:induction false} Joined(s: State, a: seq<Step>, m: State, b: seq<Step>)
    requires IsRun(s, a) && After(s, a) == m && IsRun(m, b)
    ensures IsRun(s, a + b) && After(s, a + b) == After(m, b)
    decreases |a|
  {
    if a == [] {
      assert a + b == b;
    } else {
      Joined(Next(s, a[0]), a[1..], m, b);
      assert (a + b)[1..] == a[1..] + b;
    }
  }

  // A push that no one disturbs.
  lemma PushAlone(s: State, t: nat, h: nat) returns (steps: seq<Step>, s': State)
    requires Inv(s) && t !in s.producers && h != INVALID && |Queue(s)| < s.n - 1
    ensures IsRun(s, steps) && After(s, steps) == s' && Inv(s')
    ensures s'.n == s.n && s'.claims == s.claims + [h] && s'.taken == s.taken
    ensures s'.producers == s.producers && s'.consumer == s.consumer
  {
    hide SlotsOk, ProducersOk, At;
    var s1 := Next(s, Begin(t, h));
    StepInv(s, Begin(t, h));
    var s2 := Next(s1, Load(t));
    StepInv(s1, Load(t));
    FullAndEmpty(|s.taken|, |s.claims|, s.n);
    assert !SaysFull(s2, t) by { AtIs(s.n, |s.claims|); AtIs(s.n, |s.taken|); }
    var s3 := Next(s2, Check(t));
    StepInv(s2, Check(t));
    var s4 := Next(s3, Cas(t));
    StepInv(s3, Cas(t));
    s' := Next(s4, Store(t));
    StepInv(s4, Store(t));
    assert s'.producers == s.producers;
    Prefixed(s4, Store(t), []);
    Prefixed(s3, Cas(t), [Store(t)]);
    Prefixed(s2, Check(t), [Cas(t)] + [Store(t)]);
    Prefixed(s1, Load(t), [Check(t)] + ([Cas(t)] + [Store(t)]));
    Prefixed(s, Begin(t, h), [Load(t)] + ([Check(t)] + ([Cas(t)] + [Store(t)])));
    assert [Store(t)] + [] == [Store(t)];
    steps := [Begin(t, h)] + ([Load(t)] + ([Check(t)] + ([Cas(t)] + [Store(t)])));
  }

  lemma AtIs(n: nat, i: nat)
    requires n > 0
    ensures At(n, i) == i % n
  {
  }

  lemma PopAlone(s: State) returns (steps: seq<Step>, s': State)
    requires Inv(s) && s.consumer.Idle? && Queue(s) != [] && !Unfilled(s.producers, |s.taken|)
    ensures IsRun(s, steps) && After(s, steps) == s' && Inv(s')
    ensures s'.n == s.n && s'.claims == s.claims && |s'.taken| == |s.taken| + 1
    ensures s'.producers == s.producers && s'.consumer == Idle
  {
    hide SlotsOk, ProducersOk, At, Unfilled;
    TailNotHead(s);
    var s1 := Next(s, Peek);
    StepInv(s, Peek);
    ReadFilled(s1);
    var s2 := Next(s1, ReadSlot);
    StepInv(s1, ReadSlot);
    var s3 := Next(s2, ClearSlot);
    StepInv(s2, ClearSlot);
    s' := Next(s3, Advance);
    StepInv(s3, Advance);
    Prefixed(s3, Advance, []);
    Prefixed(s2, ClearSlot, [Advance]);
    Prefixed(s1, ReadSlot, [ClearSlot] + [Advance]);
    Prefixed(s, Peek, [ReadSlot] + ([ClearSlot] + [Advance]));
    assert [Advance] + [] == [Advance];
    steps := [Peek] + ([ReadSlot] + ([ClearSlot] + [Advance]));
  }

  lemma {:induction false} PushMany(s: State, t: nat, h: nat, k: nat) returns (steps: seq<Step>, s': State)
    requires Inv(s) && t !in s.producers && h != INVALID && |Queue(s)| + k <= s.n - 1
    ensures IsRun(s, steps) && After(s, steps) == s' && Inv(s')
    ensures s'.n == s.n && |s'.claims| == |s.claims| + k && s'.taken == s.taken
    ensures s'.producers == s.producers && s'.consumer == s.consumer
    decreases k
  {
    hide Inv;
    steps, s' := [], s;
    if k > 0 {
      var one, m := PushAlone(s, t, h);
      QueueLength(m);
      QueueLength(s);
      var rest;
      rest, s' := PushMany(m, t, h, k - 1);
      Joined(s, one, m, rest);
      steps := one + rest;
    }
  }

  lemma QueueLength(s: State)
    requires Inv(s)
    ensures |s.taken| <= |s.claims| && |Queue(s)| == |s.claims| - |s.taken|
  {
  }

  // Wherever a thread is in its push, it can end it by itself within six steps, whatever the
  // others have done: with its slot stored, or turned away as full. A thread whose loaded head
  // is out of date loads again.
  lemma EndsAlone(s: State, t: nat) returns (steps: seq<Step>, s': State)
    requires Inv(s) && t in s.producers
    ensures IsRun(s, steps) && After(s, steps) == s' && Inv(s') && 0 < |steps| <= 6
    ensures forall j :: 0 <= j < |steps| ==> OfThread(steps[j], t)
    ensures s'.producers == s.producers - {t} && s'.taken == s.taken && s'.consumer == s.consumer
    ensures s'.claims ==
      if s.producers[t].Claimed? || !steps[|steps| - 1].Store? then s.claims
      else s.claims + [s.producers[t].handle]
  {
    hide Inv, At;
    InvSized(s);
    var p := s.producers[t];
    match p
    case Wanting(_) => steps, s' := FromWanting(s, t);
    case Loaded(_, _, _) =>
      var s1 := Next(s, Check(t));
      CheckStep(s, t);
      if SaysFull(s, t) {
        steps, s' := [Check(t)] + [], s1;
        Prefixed(s, Check(t), []);
      } else {
        var rest;
        rest, s' := FromChecked(s1, t);
        steps := [Check(t)] + rest;
        Prefixed(s, Check(t), rest);
      }
    case Checked(_, _, _) => steps, s' := FromChecked(s, t);
    case Claimed(_, _) =>
      s' := StoreStep(s, t);
      steps := [Store(t)] + [];
      Prefixed(s, Store(t), []);
  }

  predicate OfThread(step: Step, t: nat) {
    match step
    case Load(u) => u == t
    case Check(u) => u == t
    case Cas(u) => u == t
    case CasFails(u) => u == t
    case Store(u) => u == t
    case _ => false
  }

  lemma CheckStep(s: State, t: nat)
    requires Inv(s) && Enabled(s, Check(t))
    ensures Sized(s) && Inv(Next(s, Check(t)))
    ensures var s' := Next(s, Check(t));
      && s'.n == s.n && s'.claims == s.claims && s'.taken == s.taken && s'.consumer == s.consumer
      && s'.producers - {t} == s.producers - {t}
      && (if SaysFull(s, t) then s'.producers == s.producers - {t}
          else t in s'.producers && s'.producers[t].Checked? && s'.producers[t].handle == s.producers[t].handle)
  {
    hide SlotsOk, ProducersOk, ConsumerOk, At;
    InvSized(s);
    StepInv(s, Check(t));
  }

  lemma StoreStep(s: State, t: nat) returns (s': State)
    requires Inv(s) && t in s.producers && s.producers[t].Claimed?
    ensures Sized(s) && Enabled(s, Store(t)) && s' == Next(s, Store(t)) && Inv(s')
    ensures s'.n == s.n && s'.claims == s.claims && s'.taken == s.taken && s'.consumer == s.consumer
    ensures s'.producers == s.producers - {t}
  {
    hide SlotsOk, ProducersOk, ConsumerOk, At;
    InvSized(s);
    s' := Next(s, Store(t));
    StepInv(s, Store(t));
  }

  // With the head that it checked still current and room in the ring it claims and stores.
  lemma ClaimAndStore(s: State, t: nat) returns (steps: seq<Step>, s': State)
    requires Inv(s) && t in s.producers && s.producers[t].Checked? && s.producers[t].head == s.head
    requires |s.claims| < |s.taken| + s.n - 1
    ensures IsRun(s, steps) && After(s, steps) == s' && Inv(s') && steps == [Cas(t)] + [Store(t)]
    ensures s'.producers == s.producers - {t} && s'.taken == s.taken && s'.consumer == s.consumer
    ensures s'.claims == s.claims + [s.producers[t].handle]
  {
    hide SlotsOk, ProducersOk, ConsumerOk, At;
    InvSized(s);
    var s1 := Next(s, Cas(t));
    StepInv(s, Cas(t));
    s' := StoreStep(s1, t);
    assert s'.producers == s.producers - {t};
    Prefixed(s1, Store(t), []);
    assert [Store(t)] + [] == [Store(t)];
    steps := [Cas(t)] + [Store(t)];
    Prefixed(s, Cas(t), [Store(t)]);
  }

  lemma FromChecked(s: State, t: nat) returns (steps: seq<Step>, s': State)
    requires Inv(s) && t in s.producers && s.producers[t].Checked?
    ensures IsRun(s, steps) && After(s, steps) == s' && Inv(s') && 0 < |steps| <= 5
    ensures forall j :: 0 <= j < |steps| ==> OfThread(steps[j], t)
    ensures s'.producers == s.producers - {t} && s'.taken == s.taken && s'.consumer == s.consumer
    ensures s'.claims ==
      if !steps[|steps| - 1].Store? then s.claims else s.claims + [s.producers[t].handle]
  {
    hide SlotsOk, ProducersOk, ConsumerOk, At;
    InvSized(s);
    if s.producers[t].head == s.head && |s.claims| < |s.taken| + s.n - 1 {
      steps, s' := ClaimAndStore(s, t);
    } else {
      var s1 := Next(s, CasFails(t));
      StepInv(s, CasFails(t));
      var rest;
      rest, s' := FromWanting(s1, t);
      assert s1.producers - {t} == s.producers - {t};
      steps := [CasFails(t)] + rest;
      Prefixed(s, CasFails(t), rest);
    }
  }

  lemma FromWanting(s: State, t: nat) returns (steps: seq<Step>, s': State)
    requires Inv(s) && t in s.producers && s.producers[t].Wanting?
    ensures IsRun(s, steps) && After(s, steps) == s' && Inv(s') && 0 < |steps| <= 4
    ensures forall j :: 0 <= j < |steps| ==> OfThread(steps[j], t)
    ensures s'.producers == s.producers - {t} && s'.taken == s.taken && s'.consumer == s.consumer
    ensures s'.claims ==
      if !steps[|steps| - 1].Store? then s.claims else s.claims + [s.producers[t].handle]
  {
    hide SlotsOk, ProducersOk, ConsumerOk, At;
    InvSized(s);
    var s1 := Next(s, Load(t));
    StepInv(s, Load(t));
    assert s1.producers - {t} == s.producers - {t};
    CheckStep(s1, t);
    var s2 := Next(s1, Check(t));
    if SaysFull(s1, t) {
      s' := s2;
      Prefixed(s1, Check(t), []);
      steps := [Load(t)] + ([Check(t)] + []);
      Prefixed(s, Load(t), [Check(t)] + []);
    } else {
      FreshlyLoaded(s1, t);
      var rest;
      rest, s' := ClaimAndStore(s2, t);
      Prefixed(s1, Check(t), rest);
      steps := [Load(t)] + ([Check(t)] + rest);
      Prefixed(s, Load(t), [Check(t)] + rest);
    }
  }

  // Just after the load the check tells truly whether there is room.
  lemma FreshlyLoaded(s: State, t: nat)
    requires Inv(s) && t in s.producers && s.producers[t].Loaded? && s.producers[t].head == s.head
    requires s.producers[t].at == |s.claims| && !SaysFull(s, t)
    ensures |s.claims| < |s.taken| + s.n - 1
  {
    hide SlotsOk, ConsumerOk;
    FullAndEmpty(|s.taken|, |s.claims|, s.n);
  }

  // A compare-and-swap that finds the ring full, for every ring size: head goes once around
  // between one thread's check and its compare-and-swap, others fill the ring meanwhile, and
  // the worker finds n claimed slots looking like none.
  lemma LapOverfills(n: nat, a: nat, b: nat) returns (steps: seq<Step>)
    requires n > 1 && a != INVALID && b != INVALID
    ensures IsRun(Init(n), steps)
    ensures var s := After(Init(n), steps);
      |s.claims| == |s.taken| + n && SaysEmpty(s)
  {
    hide Inv, Unfilled;
    var s0 := Init(n);
    var s1 := Next(s0, Begin(1, a));
    var s2 := Next(s1, Load(1));
    InitInv(n);
    StepInv(s0, Begin(1, a));
    StepInv(s1, Load(1));
    var s3 := LapCheck(n, a, s2);
    var push, s4 := PushAlone(s3, 2, b);
    QueueLength(s4);
    NobodyOwes(s4);
    var pop, s5 := PopAlone(s4);
    QueueLength(s5);
    var more, s6 := PushMany(s5, 2, b, n - 1);
    var s7 := LapCas(s6);
    InvSized(s6);
    Prefixed(s6, Cas(1), []);
    Joined(s5, more, s6, [Cas(1)] + []);
    Joined(s4, pop, s5, more + ([Cas(1)] + []));
    Joined(s3, push, s4, pop + (more + ([Cas(1)] + [])));
    var tail := push + (pop + (more + ([Cas(1)] + [])));
    Prefixed(s2, Check(1), tail);
    Prefixed(s1, Load(1), [Check(1)] + tail);
    Prefixed(s0, Begin(1, a), [Load(1)] + ([Check(1)] + tail));
    steps := [Begin(1, a)] + ([Load(1)] + ([Check(1)] + tail));
  }

  lemma LapCheck(n: nat, a: nat, s: State) returns (s': State)
    requires n > 1 && Inv(s) && s == Init(n).(producers := map[1 := Loaded(a, 0, 0)])
    ensures Enabled(s, Check(1)) && s' == Next(s, Check(1)) && Inv(s')
    ensures s' == Init(n).(producers := map[1 := Checked(a, 0, 0)]) && |Queue(s')| == 0
  {
    hide Inv;
    s' := Next(s, Check(1));
    StepInv(s, Check(1));
    DivUnique(1, 0, 1, n);
  }

  lemma NobodyOwes(s: State)
    requires forall t :: t in s.producers ==> !s.producers[t].Claimed?
    ensures !Unfilled(s.producers, |s.taken|)
  {
  }

  lemma InvSized(s: State)
    requires Inv(s)
    ensures Sized(s)
  {
  }

  lemma LapCas(s: State) returns (s': State)
    requires Inv(s) && |s.claims| == s.n && |s.taken| == 1 && 1 in s.producers
    requires s.producers[1].Checked? && s.producers[1].head == 0
    ensures Enabled(s, Cas(1)) && s' == Next(s, Cas(1)) && |s'.claims| == |s'.taken| + s.n && SaysEmpty(s')
  {
    DivUnique(s.n, 1, 0, s.n);
    DivUnique(1, 0, 1, s.n);
    s' := Next(s, Cas(1));
  }

  /* ---------- the object ---------- */

  // The ring holds the handles from position first on, INVALID everywhere else.
  ghost predicate Holds(buf: seq<nat>, first: nat, handles: seq<nat>) {
    && |handles| < |buf|
    && (forall i: nat :: i < |handles| ==> buf[Slot(first, i, |buf|)] == handles[i] != INVALID)
    && forall j: nat :: j < |buf| && !Used(|buf|, first, |handles|, j) ==> buf[j] == INVALID
  }

  ghost predicate Used(n: nat, first: nat, count: nat, j: nat)
    requires n > 0
  {
    exists i: nat :: i < count && Slot(first, i, n) == j
  }

  lemma HoldsPush(buf: seq<nat>, first: nat, handles: seq<nat>, h: nat)
    requires Holds(buf, first, handles) && |handles| + 1 < |buf| && h != INVALID
    ensures Holds(buf[Slot(first, |handles|, |buf|) := h], first, handles + [h])
  {
    hide Slot;
    var at := Slot(first, |handles|, |buf|);
    var buf' := buf[at := h];
    forall i: nat | i < |handles|
      ensures Slot(first, i, |buf|) != at
    {
      SlotsApart(first, i, |handles|, |buf|);
    }
    forall j: nat | j < |buf'| && !Used(|buf|, first, |handles| + 1, j)
      ensures buf'[j] == INVALID
    {
      assert Slot(first, |handles|, |buf|) == at;
    }
  }

  lemma HoldsPop(buf: seq<nat>, first: nat, handles: seq<nat>)
    requires Holds(buf, first, handles) && handles != []
    ensures buf[Slot(first, 0, |buf|)] == handles[0] != INVALID
    ensures Holds(buf[Slot(first, 0, |buf|) := INVALID], first + 1, handles[1..])
  {
    hide Slot;
    var at := Slot(first, 0, |buf|);
    var buf' := buf[at := INVALID];
    forall i: nat | i < |handles| - 1
      ensures buf'[Slot(first + 1, i, |buf|)] == handles[1..][i] != INVALID
    {
      SlotShift(first, i, |buf|);
      SlotsApart(first, 0, i + 1, |buf|);
    }
    forall j: nat | j < |buf'| && !Used(|buf|, first + 1, |handles| - 1, j)
      ensures buf'[j] == INVALID
    {
      if j != at && Used(|buf|, first, |handles|, j) {
        UsedLater(|buf|, first, |handles|, j);
      }
    }
  }

  lemma UsedLater(n: nat, first: nat, count: nat, j: nat)
    requires n > 0 && count > 0 && Used(n, first, count, j) && j != Slot(first, 0, n)
    ensures Used(n, first + 1, count - 1, j)
  {
    hide Slot;
    var i: nat :| i < count && Slot(first, i, n) == j;
    SlotShift(first, i - 1, n);
    assert i - 1 < count - 1 && Slot(first + 1, i - 1, n) == j;
  }

  // The queue as one thread at a time uses it.
  class LockFreeQueue {
    const buffer: array<nat>
    var head: nat
    var tail: nat
    ghost var first: nat
    ghost var contents: seq<nat>

    ghost predicate Valid()
      reads this, buffer
    {
      && buffer.Length == QUEUE_SIZE && |contents| < QUEUE_SIZE
      && Holds(buffer[..], first, contents)
      && tail == Slot(first, 0, QUEUE_SIZE)
      && head == Slot(first, |contents|, QUEUE_SIZE)
    }

    constructor ()
      ensures Valid() && contents == [] && fresh(buffer)
    {
      buffer := new nat[QUEUE_SIZE](_ => INVALID);
      head, tail, first := 0, 0, 0;
      contents := [];
    }

    // Succeeds iff fewer than 4095 handles are queued, and then appends the handle.
    method TryPush(handle: nat) returns (ok: bool)
      requires Valid() && handle != INVALID
      modifies this`head, this`contents, buffer
      ensures Valid()
      ensures ok <==> |old(contents)| < 4095
      ensures contents == if ok then old(contents) + [handle] else old(contents)
    {
      hide Holds, Slot, NextSlot;
      RingTests(first, |contents|, QUEUE_SIZE);
      var next := NextSlot(head, QUEUE_SIZE);
      if next == tail {
        return false;
      }
      HoldsPush(buffer[..], first, contents, handle);
      ghost var was := buffer[..];
      buffer[head] := handle;
      assert buffer[..] == was[head := handle];
      contents := contents + [handle];
      head := next;
      ok := true;
    }

    // INVALID iff the queue is empty, else the oldest handle.
    method TryPop() returns (handle: nat)
      requires Valid()
      modifies this`tail, this`first, this`contents, buffer
      ensures Valid()
      ensures handle == INVALID <==> old(contents) == []
      ensures handle == INVALID ==> contents == old(contents)
      ensures handle != INVALID ==> handle == old(contents)[0] && contents == old(contents)[1..]
    {
      hide Holds, Slot, NextSlot;
      RingTests(first, |contents|, QUEUE_SIZE);
      if tail == head {
        return INVALID;
      }
      HoldsPop(buffer[..], first, contents);
      SlotShift(first, |contents| - 1, QUEUE_SIZE);
      handle := buffer[tail];
      ghost var was := buffer[..];
      buffer[tail] := INVALID;
      assert buffer[..] == was[tail := INVALID];
      first := first + 1;
      contents := contents[1..];
      tail := NextSlot(tail, QUEUE_SIZE);
    }
  }
}

/** Admission: at the top of its loop the worker first retries the PXN transfers it had put
    off, compacting their list in place, and then drains its queue. */
module Admission {

  const MAX_ACTIVE_PXN: nat := 5

  // An activated transfer.
  datatype Entry = Entry(handle: nat, pxn: bool, finished: bool)

  // What became of a list of handles, in order, and how many PXN transfers may still start.
  datatype Outcome = Outcome(started: seq<Entry>, kept: seq<nat>, gone: seq<nat>, room: nat)

  // One handle: released meanwhile, put off because the limit is reached, or started.
  function Admit(o: Outcome, h: nat, known: map<nat, bool>): Outcome {
    if h !in known then o.(gone := o.gone + [h])
    else if known[h] && o.room == 0 then o.(kept := o.kept + [h])
    else o.(started := o.started + [Entry(h, known[h], false)], room := if known[h] then o.room - 1 else o.room)
  }

  function AdmitAll(handles: seq<nat>, known: map<nat, bool>, room: nat): Outcome {
    if handles == [] then Outcome([], [], [], room)
    else Admit(AdmitAll(handles[..|handles| - 1], known, room), handles[|handles| - 1], known)
  }

  function Handles(entries: seq<Entry>): (r: seq<nat>)
    ensures |r| == |entries|
  {
    seq(|entries|, i requires 0 <= i < |entries| => entries[i].handle)
  }

  function Unfinished(entries: seq<Entry>): nat {
    if entries == [] then 0
    else
      var e := entries[|entries| - 1];
      Unfinished(entries[..|entries| - 1]) + if e.pxn && !e.finished then 1 else 0
  }

  lemma AdmitNext(handles: seq<nat>, h: nat, known: map<nat, bool>, room: nat)
    ensures AdmitAll(handles + [h], known, room) == Admit(AdmitAll(handles, known, room), h, known)
  {
    assert (handles + [h])[..|handles|] == handles;
  }

  // What one handle adds depends on the room only.
  lemma AdmitParts(o: Outcome, h: nat, known: map<nat, bool>)
    ensures var one := Admit(Outcome([], [], [], o.room), h, known); var o' := Admit(o, h, known);
      && o'.started == o.started + one.started && o'.room == one.room <= o.room
      && o'.kept == (if one.kept == [] then o.kept else o.kept + [h])
  {
  }

  lemma UnfinishedNext(entries: seq<Entry>, e: Entry)
    ensures Unfinished(entries + [e]) == Unfinished(entries) + if e.pxn && !e.finished then 1 else 0
  {
    assert (entries + [e])[..|entries|] == entries;
  }

  lemma {:induction false} UnfinishedAppend(a: seq<Entry>, b: seq<Entry>)
    ensures Unfinished(a + b) == Unfinished(a) + Unfinished(b)
  {
    if b == [] {
      assert a + b == a;
    } else {
      var c := b[..|b| - 1];
      UnfinishedAppend(a, c);
      assert a + b == (a + c) + [b[|b| - 1]];
      UnfinishedNext(a + c, b[|b| - 1]);
    }
  }

  /* ---------- what admission promises ---------- */

  // Every handle is started once, kept once, or gone; none twice, none invented.
  lemma {:induction false} EachOnce(handles: seq<nat>, known: map<nat, bool>, room: nat)
    ensures var o := AdmitAll(handles, known, room);
      multiset(handles) == multiset(Handles(o.started)) + multiset(o.kept) + multiset(o.gone)
  {
    hide Admit;
    if handles != [] {
      var rest, h := handles[..|handles| - 1], handles[|handles| - 1];
      EachOnce(rest, known, room);
      assert handles == rest + [h];
      AdmitOne(AdmitAll(rest, known, room), h, known);
    }
  }

  lemma AdmitOne(o: Outcome, h: nat, known: map<nat, bool>)
    ensures var o' := Admit(o, h, known);
      multiset(Handles(o'.started)) + multiset(o'.kept) + multiset(o'.gone)
      == multiset(Handles(o.started)) + multiset(o.kept) + multiset(o.gone) + multiset{h}
  {
    var o' := Admit(o, h, known);
    if |o'.started| > |o.started| {
      assert Handles(o'.started) == Handles(o.started) + [h];
    }
  }

  // part lists some of whole's items in whole's order.
  ghost predicate InOrder(part: seq<nat>, whole: seq<nat>) {
    if whole == [] then part == []
    else
      var rest := whole[..|whole| - 1];
      || InOrder(part, rest)
      || (part != [] && part[|part| - 1] == whole[|whole| - 1] && InOrder(part[..|part| - 1], rest))
  }

  lemma InOrderNone()
    ensures InOrder([], [])
  {
  }

  lemma InOrderSkip(part: seq<nat>, whole: seq<nat>, x: nat)
    requires InOrder(part, whole)
    ensures InOrder(part, whole + [x])
  {
    assert (whole + [x])[..|whole|] == whole;
  }

  lemma InOrderTake(part: seq<nat>, whole: seq<nat>, x: nat)
    requires InOrder(part, whole)
    ensures InOrder(part + [x], whole + [x])
  {
    assert (whole + [x])[..|whole|] == whole && (part + [x])[..|part|] == part;
  }

  // Those put off keep their order, and so do those started.
  lemma {:induction false} OrderKept(handles: seq<nat>, known: map<nat, bool>, room: nat)
    ensures InOrder(AdmitAll(handles, known, room).kept, handles)
    ensures InOrder(Handles(AdmitAll(handles, known, room).started), handles)
  {
    hide InOrder;
    if handles == [] {
      InOrderNone();
    } else {
      var rest, h := handles[..|handles| - 1], handles[|handles| - 1];
      OrderKept(rest, known, room);
      assert handles == rest + [h];
      var o := AdmitAll(rest, known, room);
      var o' := Admit(o, h, known);
      InOrderSkip(o.kept, rest, h);
      InOrderSkip(Handles(o.started), rest, h);
      if |o'.kept| > |o.kept| {
        InOrderTake(o.kept, rest, h);
      }
      if |o'.started| > |o.started| {
        InOrderTake(Handles(o.started), rest, h);
        assert Handles(o'.started) == Handles(o.started) + [h];
      }
    }
  }

  // Room is used up one by one; a transfer is put off only when it is a PXN one and no
  // room is left at all; one that needs no room never is.
  lemma {:induction false} RoomUsed(handles: seq<nat>, known: map<nat, bool>, room: nat)
    ensures var o := AdmitAll(handles, known, room);
      && o.room + Unfinished(o.started) == room
      && (o.kept != [] ==> o.room == 0)
      && (forall i :: 0 <= i < |o.kept| ==> o.kept[i] in known && known[o.kept[i]])
      && (forall i :: 0 <= i < |o.gone| ==> o.gone[i] !in known)
  {
    if handles != [] {
      var rest, h := handles[..|handles| - 1], handles[|handles| - 1];
      RoomUsed(rest, known, room);
      var o := AdmitAll(rest, known, room);
      if h in known {
        UnfinishedNext(o.started, Entry(h, known[h], false));
      }
    }
  }

  /* ---------- the worker's loops ---------- */

  class Worker {
    var active: seq<Entry>
    var pending: seq<nat>
    var queue: seq<nat>

    ghost predicate Valid()
      reads this
    {
      Unfinished(active) <= MAX_ACTIVE_PXN
    }

    // One call of try_activate_handle; count is the running number of active PXN transfers.
    method TryActivate(h: nat, known: map<nat, bool>, count: nat) returns (consumed: bool, count': nat)
      modifies this`active
      requires count <= MAX_ACTIVE_PXN
      ensures count' <= MAX_ACTIVE_PXN
      ensures var o := Admit(Outcome([], [], [], MAX_ACTIVE_PXN - count), h, known);
        && active == old(active) + o.started
        && count' == MAX_ACTIVE_PXN - o.room
        && (consumed <==> o.kept == [])
    {
      count' := count;
      if h !in known {
        return true, count';
      }
      if known[h] && count >= MAX_ACTIVE_PXN {
        return false, count';
      }
      active := active + [Entry(h, known[h], false)];
      if known[h] {
        count' := count' + 1;
      }
      consumed := true;
    }

    method CountActive() returns (count: nat)
      ensures count == Unfinished(active)
    {
      count := 0;
      for i := 0 to |active|
        invariant count == Unfinished(active[..i])
      {
        assert active[..i + 1][..i] == active[..i];
        if active[i].pxn && !active[i].finished {
          count := count + 1;
        }
      }
      assert active[..|active|] == active;
    }

    // Admission has gone through the handles done, and the put-off ones are kept.
    ghost predicate Reached(was: seq<Entry>, done: seq<nat>, kept: seq<nat>, count: nat, known: map<nat, bool>)
      reads this`active
    {
      Unfinished(was) <= MAX_ACTIVE_PXN && count <= MAX_ACTIVE_PXN &&
      var o := AdmitAll(done, known, MAX_ACTIVE_PXN - Unfinished(was));
      active == was + o.started && kept == o.kept && count == MAX_ACTIVE_PXN - o.room
    }

    // One more handle.
    method Try(h: nat, known: map<nat, bool>, count: nat, ghost was: seq<Entry>, ghost done: seq<nat>,
               ghost kept: seq<nat>)
      returns (consumed: bool, count': nat)
      requires Reached(was, done, kept, count, known)
      modifies this`active
      ensures Reached(was, done + [h], if consumed then kept else kept + [h], count', known)
    {
      hide AdmitAll, Unfinished, Admit;
      ghost var o := AdmitAll(done, known, MAX_ACTIVE_PXN - Unfinished(was));
      AdmitNext(done, h, known, MAX_ACTIVE_PXN - Unfinished(was));
      AdmitParts(o, h, known);
      consumed, count' := TryActivate(h, known, count);
    }

    lemma ReachedNone(known: map<nat, bool>, count: nat)
      requires Valid() && count == Unfinished(active)
      ensures Reached(active, [], [], count, known)
    {
      assert active + [] == active;
    }

    // The list while it is compacted: the handles not yet looked at are where they were.
    static lemma MovesUp(list: seq<nat>, was: seq<nat>, write: nat, i: nat)
      requires write <= i < |list| == |was| && list[i..] == was[i..]
      ensures list[i] == was[i] && was[..i + 1] == was[..i] + [was[i]] && list[i + 1..] == was[i + 1..]
      ensures list[write := list[i]][..write + 1] == list[..write] + [was[i]]
      ensures list[write := list[i]][i + 1..] == was[i + 1..]
    {
      assert list[i] == list[i..][0] == was[i..][0];
      assert list[i + 1..] == list[i..][1..];
    }

    // The put-off handles again; those still put off move up in the list.
    method RetryPending(known: map<nat, bool>, count: nat) returns (count': nat)
      requires Valid() && count == Unfinished(active)
      modifies this`active, this`pending
      ensures Reached(old(active), old(pending), pending, count', known)
    {
      hide Unfinished, Reached;
      ghost var was, active0 := pending, active;
      count' := count;
      var write := 0;
      ReachedNone(known, count);
      for i := 0 to |pending|
        invariant |pending| == |was| && write <= i
        invariant pending[i..] == was[i..]
        invariant Reached(active0, was[..i], pending[..write], count', known)
      {
        MovesUp(pending, was, write, i);
        var consumed;
        consumed, count' := Try(pending[i], known, count', active0, was[..i], pending[..write]);
        if !consumed {
          pending := pending[write := pending[i]];
          write := write + 1;
        }
      }
      assert was[..|was|] == was;
      pending := pending[..write];
    }

    // New handles until the queue is empty.
    method DrainQueue(known: map<nat, bool>, count: nat, ghost was: seq<Entry>,
                      ghost done: seq<nat>) returns (count': nat)
      requires Reached(was, done, pending, count, known)
      modifies this
      ensures Reached(was, done + old(queue), pending, count', known) && queue == []
    {
      hide Reached;
      ghost var all := queue;
      ghost var taken: seq<nat> := [];
      count' := count;
      assert done + taken == done;
      while queue != []
        invariant all == taken + queue
        invariant Reached(was, done + taken, pending, count', known)
        decreases |queue|
      {
        var h := queue[0];
        queue := queue[1..];
        var consumed;
        consumed, count' := Try(h, known, count', was, done + taken, pending);
        assert done + (taken + [h]) == (done + taken) + [h];
        taken := taken + [h];
        if !consumed {
          pending := pending + [h];
        }
      }
      assert taken == all;
    }

    // Admission of one round: the put-off handles first, compacted in place, then the
    // queue. known says which handles still stand for a transfer, and which are PXN.
    method AdmitRound(known: map<nat, bool>)
      requires Valid()
      modifies this
      ensures Valid() && Unfinished(active) <= 5
      ensures Unfinished(old(active)) <= 5
      ensures var o := AdmitAll(old(pending) + old(queue), known, 5 - Unfinished(old(active)));
        active == old(active) + o.started && pending == o.kept && queue == []
    {
      ghost var handles, room := pending + queue, MAX_ACTIVE_PXN - Unfinished(active);
      ghost var was, done := active, pending;
      var count := CountActive();
      count := RetryPending(known, count);
      count := DrainQueue(known, count, was, done);
      RoomUsed(handles, known, room);
      UnfinishedAppend(was, AdmitAll(handles, known, room).started);
    }
  }
}

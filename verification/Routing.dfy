/** From a completion back to its transfer: handles come from the pool, travel in the work
    request id, and are looked up among the live transfers when the completion is polled. */
module Routing {
  import opened Handles
  import opened WrIds

  // One transfer. uid tells apart transfers that had the same handle at different times.
  datatype Xfer = Xfer(uid: nat, total: nat, next: nat, credited: nat)

  // A posted work request; uid is the transfer that posted it.
  datatype Wr = Wr(uid: nat, nic: nat, qp: nat, handle: nat, chunk: nat) {
    function Id(): nat {
      Encode(nic, qp, handle, chunk)
    }
  }

  datatype State = State(pool: Pool, live: map<nat, Xfer>, uids: nat, wrs: set<Wr>)

  datatype Step =
    | Start(total: nat)
    | Post(handle: nat, nic: nat, qp: nat)
    | Complete(wr: Wr)
    | ReleaseTransfer(handle: nat)

  // Any handle may be passed to a release.
  predicate Enabled(s: State, step: Step) {
    match step
    case Start(total) => total <= HANDLE_SHIFT
    case Post(h, nic, qp) => h in s.live && s.live[h].next < s.live[h].total && nic < 0x100 && qp < 0x100
    case Complete(w) => w in s.wrs
    case ReleaseTransfer(_) => true
  }

  function Next(s: State, step: Step): State
    requires Enabled(s, step)
  {
    match step
    case Start(total) =>
      var (h, pool) := Allocate(s.pool);
      if h == INVALID then s
      else s.(pool := pool, live := s.live[h := Xfer(s.uids, total, 0, 0)], uids := s.uids + 1)
    case Post(h, nic, qp) =>
      var t := s.live[h];
      s.(live := s.live[h := t.(next := t.next + 1)], wrs := s.wrs + {Wr(t.uid, nic, qp, h, t.next)})
    case Complete(w) =>
      var h := DecodeHandle(w.Id());
      s.(wrs := s.wrs - {w},
         live := if h in s.live then s.live[h := s.live[h].(credited := s.live[h].credited + 1)] else s.live)
    case ReleaseTransfer(h) => s.(live := s.live - {h}, pool := Release(s.pool, h))
  }

  // The caller releases a handle once, after its transfer has finished.
  predicate Disciplined(s: State, step: Step) {
    step.ReleaseTransfer? ==> step.handle in s.live && s.live[step.handle].credited >= s.live[step.handle].total
  }

  ghost function Of(wrs: set<Wr>, h: nat): set<Wr> {
    set w | w in wrs && w.handle == h
  }

  // The work request belongs to the transfer that holds its handle now.
  ghost predicate Held(s: State, w: Wr) {
    && w.handle in s.live && s.live[w.handle].uid == w.uid && w.chunk < s.live[w.handle].next
    && w.nic < 0x100 && w.qp < 0x100
  }

  ghost predicate XferOk(s: State, h: nat)
    requires h in s.live
  {
    var t := s.live[h];
    && t.uid < s.uids && t.next <= t.total <= HANDLE_SHIFT
    && t.credited + |Of(s.wrs, h)| == t.next
  }

  ghost predicate Inv(s: State) {
    && Sound(s.pool, s.live.Keys)
    && (forall h :: h in s.live ==> XferOk(s, h))
    && (forall w :: w in s.wrs ==> Held(s, w))
    && (forall v, w :: v in s.wrs && w in s.wrs && v.handle == w.handle && v.chunk == w.chunk ==> v == w)
  }

  lemma LiveFits(s: State, h: nat)
    requires Sound(s.pool, s.live.Keys) && h in s.live
    ensures 1 <= h <= MAX_HANDLE
  {
    assert h in Given(s.pool.next);
  }

  // What a completion decodes to is the transfer that posted it, NIC and queue pair included.
  lemma RoutedToPoster(s: State, w: Wr)
    requires Inv(s) && w in s.wrs
    ensures DecodeHandle(w.Id()) in s.live && s.live[DecodeHandle(w.Id())].uid == w.uid
    ensures DecodeNic(w.Id()) == w.nic && DecodeQp(w.Id()) == w.qp
  {
    hide Sound, Encode, DecodeHandle, DecodeNic, DecodeQp, DecodeChunk;
    LiveFits(s, w.handle);
    assert XferOk(s, w.handle);
    RoundTripIff(w.nic, w.qp, w.handle, w.chunk);
  }

  // Any outstanding work request may complete next; that credits one completion to its
  // poster, and none to any other.
  lemma CreditsPoster(s: State, w: Wr)
    requires Inv(s) && w in s.wrs
    ensures Enabled(s, Complete(w)) && w.handle in s.live && s.live[w.handle].uid == w.uid
    ensures var s' := Next(s, Complete(w));
      && s'.wrs == s.wrs - {w} && s'.live.Keys == s.live.Keys
      && s'.live[w.handle].credited == s.live[w.handle].credited + 1
      && forall h :: h in s.live && h != w.handle ==> s'.live[h] == s.live[h]
  {
    hide Sound, Encode, DecodeHandle, DecodeNic, DecodeQp, DecodeChunk;
    LiveFits(s, w.handle);
    assert XferOk(s, w.handle);
    RoundTripIff(w.nic, w.qp, w.handle, w.chunk);
  }

  // No two outstanding work requests have the same id.
  lemma DistinctIds(s: State, v: Wr, w: Wr)
    requires Inv(s) && v in s.wrs && w in s.wrs && v.Id() == w.Id()
    ensures v == w
  {
    hide Sound, Encode, DecodeHandle, DecodeNic, DecodeQp, DecodeChunk;
    LiveFits(s, v.handle);
    LiveFits(s, w.handle);
    assert XferOk(s, v.handle) && XferOk(s, w.handle);
    RoundTripIff(v.nic, v.qp, v.handle, v.chunk);
    RoundTripIff(w.nic, w.qp, w.handle, w.chunk);
  }

  lemma StartInv(s: State, total: nat)
    requires Inv(s) && Enabled(s, Start(total))
    ensures Inv(Next(s, Start(total)))
  {
    hide Sound;
    AllocateSound(s.pool, s.live.Keys);
    var (h, pool) := Allocate(s.pool);
    var s' := Next(s, Start(total));
    if h != INVALID {
      assert s'.live.Keys == s.live.Keys + {h};
      assert Of(s.wrs, h) == {};
      forall g | g in s'.live
        ensures XferOk(s', g)
      {
        assert g != h ==> XferOk(s, g);
      }
    }
  }

  lemma PostXfers(s: State, h: nat, w: Wr, s': State)
    requires (forall g :: g in s.live ==> XferOk(s, g)) && h in s.live && s.live[h].next < s.live[h].total
    requires s'.live == s.live[h := s.live[h].(next := s.live[h].next + 1)] && s'.uids == s.uids
    requires s'.wrs == s.wrs + {w} && w !in s.wrs && w.handle == h
    ensures forall g :: g in s'.live ==> XferOk(s', g)
  {
    forall g | g in s'.live
      ensures XferOk(s', g)
    {
      assert XferOk(s, g);
      assert Of(s'.wrs, g) == if g == h then Of(s.wrs, g) + {w} else Of(s.wrs, g);
    }
  }

  lemma PostInv(s: State, step: Step)
    requires Inv(s) && Enabled(s, step) && step.Post?
    ensures Inv(Next(s, step))
  {
    hide Sound, XferOk, Of;
    var s' := Next(s, step);
    var h := step.handle;
    var w := Wr(s.live[h].uid, step.nic, step.qp, h, s.live[h].next);
    assert s'.live.Keys == s.live.Keys;
    assert forall v :: v in s.wrs && v.handle == h ==> v.chunk < w.chunk by {
      assert forall v :: v in s.wrs ==> Held(s, v);
    }
    PostXfers(s, h, w, s');
    forall v | v in s'.wrs
      ensures Held(s', v)
    {
      assert v != w ==> Held(s, v);
    }
  }

  lemma CompleteInv(s: State, w: Wr)
    requires Inv(s) && Enabled(s, Complete(w))
    ensures Inv(Next(s, Complete(w)))
  {
    hide Sound, Encode, DecodeHandle, DecodeNic, DecodeQp, DecodeChunk;
    RoutedToPoster(s, w);
    HandleBack(s, w);
    var s' := Next(s, Complete(w));
    assert s'.live.Keys == s.live.Keys;
    assert Of(s.wrs, w.handle) == Of(s'.wrs, w.handle) + {w};
    forall g | g in s'.live
      ensures XferOk(s', g)
    {
      assert XferOk(s, g);
      assert g != w.handle ==> Of(s'.wrs, g) == Of(s.wrs, g);
    }
  }

  lemma HandleBack(s: State, w: Wr)
    requires Inv(s) && w in s.wrs
    ensures DecodeHandle(w.Id()) == w.handle
  {
    hide Sound, Encode, DecodeHandle, DecodeNic, DecodeQp, DecodeChunk;
    LiveFits(s, w.handle);
    assert XferOk(s, w.handle);
    RoundTripIff(w.nic, w.qp, w.handle, w.chunk);
  }

  // Releasing a live handle keeps every completion routed exactly when none is outstanding.
  lemma ReleaseSafeIff(s: State, h: nat)
    requires Inv(s) && h in s.live
    ensures Inv(Next(s, ReleaseTransfer(h))) <==> Of(s.wrs, h) == {}
  {
    hide Sound;
    ReleaseSoundIff(s.pool, s.live.Keys, h);
    var s' := Next(s, ReleaseTransfer(h));
    assert s'.live.Keys == s.live.Keys - {h};
    if Of(s.wrs, h) == {} {
      forall w | w in s'.wrs
        ensures Held(s', w)
      {
        assert Held(s, w);
        assert w.handle != h by {
          assert w.handle == h ==> w in Of(s.wrs, h);
        }
      }
      forall g | g in s'.live
        ensures XferOk(s', g)
      {
        assert XferOk(s, g);
      }
    } else {
      var w :| w in Of(s.wrs, h);
      assert !Held(s', w);
    }
  }

  // A disciplined release meets that condition: a finished transfer has nothing outstanding.
  lemma ReleaseInv(s: State, h: nat)
    requires Inv(s) && Disciplined(s, ReleaseTransfer(h))
    ensures Inv(Next(s, ReleaseTransfer(h)))
  {
    hide Sound;
    assert XferOk(s, h);
    ReleaseSafeIff(s, h);
  }

  lemma StepInv(s: State, step: Step)
    requires Inv(s) && Enabled(s, step) && Disciplined(s, step)
    ensures Inv(Next(s, step))
  {
    hide Inv, Next;
    match step
    case Start(total) => StartInv(s, total);
    case Post(_, _, _) => PostInv(s, step);
    case Complete(w) => CompleteInv(s, w);
    case ReleaseTransfer(h) => ReleaseInv(s, h);
  }

  ghost function Init(): State {
    State(Pool([], MIN_HANDLE), map[], 0, {})
  }

  ghost predicate IsRun(s: State, steps: seq<Step>)
    decreases |steps|
  {
    steps == [] || (Enabled(s, steps[0]) && IsRun(Next(s, steps[0]), steps[1..]))
  }

  ghost function After(s: State, steps: seq<Step>): State
    requires IsRun(s, steps)
    decreases |steps|
  {
    if steps == [] then s else After(Next(s, steps[0]), steps[1..])
  }

  ghost predicate AllDisciplined(s: State, steps: seq<Step>)
    requires IsRun(s, steps)
    decreases |steps|
  {
    steps == [] || (Disciplined(s, steps[0]) && AllDisciplined(Next(s, steps[0]), steps[1..]))
  }

  lemma {:induction false} RunInv(s: State, steps: seq<Step>)
    requires Inv(s) && IsRun(s, steps) && AllDisciplined(s, steps)
    ensures Inv(After(s, steps))
    decreases |steps|
  {
    hide Inv, Disciplined, Enabled;
    if steps != [] {
      StepInv(s, steps[0]);
      RunInv(Next(s, steps[0]), steps[1..]);
    }
  }

  // In every run in which handles are released once and after the end, outstanding work
  // requests have distinct ids, and each completion is credited to the transfer that
  // posted it.
  lemma EveryCompletionRouted(steps: seq<Step>)
    requires IsRun(Init(), steps) && AllDisciplined(Init(), steps)
    ensures var s := After(Init(), steps);
      && (forall w :: w in s.wrs ==>
            DecodeHandle(w.Id()) in s.live && s.live[DecodeHandle(w.Id())].uid == w.uid)
      && (forall v, w :: v in s.wrs && w in s.wrs && v.Id() == w.Id() ==> v == w)
  {
    hide Encode, DecodeHandle;
    InitInv();
    RunInv(Init(), steps);
    var s := After(Init(), steps);
    forall w | w in s.wrs
      ensures DecodeHandle(w.Id()) in s.live && s.live[DecodeHandle(w.Id())].uid == w.uid
    {
      RoutedToPoster(s, w);
    }
    forall v, w | v in s.wrs && w in s.wrs && v.Id() == w.Id()
      ensures v == w
    {
      DistinctIds(s, v, w);
    }
  }

  lemma InitInv()
    ensures Inv(Init())
  {
    assert Elements([]) == {};
    assert Given(MIN_HANDLE) == {};
  }

  // A handle released while a completion is outstanding: the next transfer gets the same
  // handle, and the late completion is credited to it.
  lemma EarlyReleaseMisroutes() returns (steps: seq<Step>, w: Wr)
    ensures IsRun(Init(), steps)
    ensures var s := After(Init(), steps);
      w in s.wrs && DecodeHandle(w.Id()) in s.live && s.live[DecodeHandle(w.Id())].uid != w.uid
  {
    hide Encode, DecodeHandle;
    w := Wr(0, 0, 0, 1, 0);
    var s0 := Init();
    var s1 := Next(s0, Start(1));
    var s2 := Next(s1, Post(1, 0, 0));
    var s3 := Next(s2, ReleaseTransfer(1));
    var s4 := Next(s3, Start(1));
    assert s1.live[1] == Xfer(0, 1, 0, 0);
    assert s2.wrs == {w};
    assert s3.pool.free == [1] && s3.uids == 1;
    assert s4.live[1].uid == 1;
    RoundTripIff(0, 0, 1, 0);
    steps := [Start(1), Post(1, 0, 0), ReleaseTransfer(1), Start(1)];
    assert steps[1..] == [Post(1, 0, 0), ReleaseTransfer(1), Start(1)];
    assert steps[1..][1..] == [ReleaseTransfer(1), Start(1)];
    assert steps[1..][1..][1..] == [Start(1)];
    assert steps[1..][1..][1..][1..] == [];
  }
}

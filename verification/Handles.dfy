/** HandlePool: transfer handles are recycled so that they fit the 16 bits that a work
    request id has for them. */
module Handles {

  const INVALID: nat := 0
  const MIN_HANDLE: nat := 1
  const MAX_HANDLE: nat := 0xFFFF

  // What the pool keeps.
  datatype Pool = Pool(free: seq<nat>, next: nat)

  function Allocate(p: Pool): (nat, Pool) {
    if p.free != [] then (p.free[|p.free| - 1], p.(free := p.free[..|p.free| - 1]))
    else if p.next <= MAX_HANDLE then (p.next, p.(next := p.next + 1))
    else (INVALID, p)
  }

  // Any handle is pushed, whether it was given out or not.
  function Release(p: Pool, h: nat): Pool {
    if h == INVALID then p else p.(free := p.free + [h])
  }

  ghost function Given(next: nat): (r: set<nat>)
    ensures forall h :: h in r <==> MIN_HANDLE <= h < next
    ensures next >= MIN_HANDLE ==> |r| == next - MIN_HANDLE
  {
    if next <= MIN_HANDLE then {} else Given(next - 1) + {next - 1}
  }

  ghost function Elements(s: seq<nat>): set<nat> {
    set i: nat | i < |s| :: s[i]
  }

  ghost predicate Distinct(s: seq<nat>) {
    forall i, j :: 0 <= i < j < |s| ==> s[i] != s[j]
  }

  // The free list has no handle twice and none that is live; together they are exactly
  // the handles given out so far.
  ghost predicate Sound(p: Pool, live: set<nat>) {
    && MIN_HANDLE <= p.next <= MAX_HANDLE + 1
    && Distinct(p.free)
    && Elements(p.free) !! live
    && Elements(p.free) + live == Given(p.next)
  }

  lemma ElementsAppend(s: seq<nat>, x: nat)
    ensures Elements(s + [x]) == Elements(s) + {x}
  {
    var t := s + [x];
    forall y | y in Elements(s) + {x}
      ensures y in Elements(t)
    {
      if y == x {
        assert t[|s|] == x;
      } else {
        var i: nat :| i < |s| && s[i] == y;
        assert t[i] == y;
      }
    }
  }

  lemma ElementsLast(s: seq<nat>)
    requires s != []
    ensures Elements(s) == Elements(s[..|s| - 1]) + {s[|s| - 1]}
    ensures Distinct(s) ==> s[|s| - 1] !in Elements(s[..|s| - 1])
  {
    assert s == s[..|s| - 1] + [s[|s| - 1]];
    ElementsAppend(s[..|s| - 1], s[|s| - 1]);
  }

  lemma LiveSize(p: Pool, live: set<nat>)
    requires Sound(p, live)
    ensures |live| + |Elements(p.free)| == p.next - MIN_HANDLE
    ensures |live| == 65535 <==> p.free == [] && p.next > MAX_HANDLE
  {
    if p.free != [] {
      ElementsLast(p.free);
    } else {
      assert Elements(p.free) == {};
    }
  }

  lemma RecycleSound(p: Pool, live: set<nat>)
    requires Sound(p, live) && p.free != []
    ensures var h := p.free[|p.free| - 1];
      h !in live && 1 <= h <= MAX_HANDLE && Sound(p.(free := p.free[..|p.free| - 1]), live + {h})
  {
    hide Given;
    ElementsLast(p.free);
    var h := p.free[|p.free| - 1];
    assert h in Given(p.next);
    assert Elements(p.free[..|p.free| - 1]) + (live + {h}) == Given(p.next);
  }

  lemma NewSound(p: Pool, live: set<nat>)
    requires Sound(p, live) && p.free == [] && p.next <= MAX_HANDLE
    ensures p.next !in live && Sound(p.(next := p.next + 1), live + {p.next})
  {
    assert Elements(p.free) == {};
    assert Given(p.next + 1) == Given(p.next) + {p.next};
  }

  // A handle is given out unless 65535 are live; it is none of the live ones and fits 16 bits.
  lemma AllocateSound(p: Pool, live: set<nat>)
    requires Sound(p, live)
    ensures Allocate(p).0 == INVALID <==> |live| == 65535
    ensures Allocate(p).0 == INVALID ==> Allocate(p).1 == p
    ensures Allocate(p).0 != INVALID ==>
      && Allocate(p).0 !in live && 1 <= Allocate(p).0 <= MAX_HANDLE
      && Sound(Allocate(p).1, live + {Allocate(p).0})
  {
    hide Sound;
    LiveSize(p, live);
    if p.free != [] {
      RecycleSound(p, live);
    } else if p.next <= MAX_HANDLE {
      NextPositive(p, live);
      NewSound(p, live);
    }
  }

  lemma NextPositive(p: Pool, live: set<nat>)
    requires Sound(p, live)
    ensures p.next >= MIN_HANDLE
  {
  }

  lemma ReleaseLiveSound(p: Pool, live: set<nat>, h: nat)
    requires Sound(p, live) && h in live && h != INVALID
    ensures Sound(Release(p, h), live - {h})
  {
    hide Given, Elements;
    ElementsAppend(p.free, h);
    assert Elements(p.free) + {h} + (live - {h}) == Elements(p.free) + live;
    NotListed(p.free, h);
  }

  lemma NotListed(s: seq<nat>, h: nat)
    requires h !in Elements(s)
    ensures forall i :: 0 <= i < |s| ==> s[i] != h
  {
    forall i | 0 <= i < |s|
      ensures s[i] != h
    {
      assert s[i] in Elements(s);
    }
  }

  lemma ReleaseOtherBreaks(p: Pool, live: set<nat>, h: nat)
    requires Sound(p, live) && h !in live && h != INVALID
    ensures !Sound(Release(p, h), live - {h})
  {
    hide Given;
    var q := Release(p, h);
    ElementsAppend(p.free, h);
    assert h in Elements(q.free);
    if h in Elements(p.free) {
      var i: nat :| i < |p.free| && p.free[i] == h;
      assert q.free[i] == q.free[|p.free|];
    }
  }

  // Releasing keeps the pool sound exactly when the handle is live (or INVALID, which is
  // ignored): a second release of the same handle, or one of a handle never given out,
  // breaks it.
  lemma ReleaseSoundIff(p: Pool, live: set<nat>, h: nat)
    requires Sound(p, live)
    ensures Sound(Release(p, h), live - {h}) <==> h in live || h == INVALID
  {
    hide Sound;
    if h == INVALID {
      InvalidNotLive(p, live);
      assert live - {h} == live;
    } else if h in live {
      ReleaseLiveSound(p, live, h);
    } else {
      ReleaseOtherBreaks(p, live, h);
    }
  }

  lemma InvalidNotLive(p: Pool, live: set<nat>)
    requires Sound(p, live)
    ensures INVALID !in live
  {
    hide Elements;
    assert INVALID !in Given(p.next);
  }

  // What a double release leads to: the next two transfers get the same handle.
  lemma DoubleReleaseAliases(p: Pool, h: nat)
    requires h != INVALID
    ensures var q := Release(Release(p, h), h);
      Allocate(q).0 == h && Allocate(Allocate(q).1).0 == h
  {
  }

  /* ---------- the object ---------- */

  class HandlePool {
    var freeList: seq<nat>
    var nextNewHandle: nat
    ghost var live: set<nat>

    ghost predicate Valid()
      reads this
    {
      Sound(Pool(freeList, nextNewHandle), live)
    }

    constructor ()
      ensures Valid() && live == {}
    {
      freeList, nextNewHandle, live := [], MIN_HANDLE, {};
    }

    method AllocateHandle() returns (h: nat)
      requires Valid()
      modifies this
      ensures Valid()
      ensures h == INVALID <==> |old(live)| == 65535
      ensures h == INVALID ==> live == old(live)
      ensures h != INVALID ==> h !in old(live) && 1 <= h <= MAX_HANDLE && live == old(live) + {h}
    {
      hide Sound;
      AllocateSound(Pool(freeList, nextNewHandle), live);
      if freeList != [] {
        h := freeList[|freeList| - 1];
        freeList := freeList[..|freeList| - 1];
      } else if nextNewHandle <= MAX_HANDLE {
        h := nextNewHandle;
        nextNewHandle := nextNewHandle + 1;
      } else {
        h := INVALID;
        return;
      }
      live := live + {h};
    }

    // Pushes back whatever it is given. The pool stays valid iff that was a live handle.
    method ReleaseHandle(h: nat)
      requires Valid()
      modifies this
      ensures live == old(live) - {h}
      ensures freeList == (if h == INVALID then old(freeList) else old(freeList) + [h])
        && nextNewHandle == old(nextNewHandle)
      ensures Valid() <==> h in old(live) || h == INVALID
    {
      hide Sound;
      ReleaseSoundIff(Pool(freeList, nextNewHandle), live, h);
      if h != INVALID {
        freeList := freeList + [h];
      }
      live := live - {h};
    }
  }
}

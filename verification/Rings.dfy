/** Positions that count up for ever, kept in a ring of m slots. */
module Rings {

  lemma MulLe(a: nat, b: nat, m: nat)
    requires a <= b
    ensures a * m <= b * m
  {
  }

  lemma MulLess(a: nat, b: nat, m: nat)
    requires a * m < b * m
    ensures a < b
  {
    if b <= a {
      MulLe(b, a, m);
    }
  }

  lemma DivUnique(x: nat, q: nat, r: nat, m: nat)
    requires x == q * m + r && r < m
    ensures x % m == r && x / m == q
  {
    var p := x / m;
    assert x == p * m + x % m;
    assert (p + 1) * m == p * m + m && (q + 1) * m == q * m + m;
    MulLess(p, q + 1, m);
    MulLess(q, p + 1, m);
  }

  lemma DivRest(a: nat, m: nat)
    requires m > 0
    ensures 0 <= a / m && (a / m) * m <= a < (a / m) * m + m
  {
    assert a == (a / m) * m + a % m;
  }

  function Div(a: nat, m: nat): (q: nat)
    requires m > 0
    ensures q * m <= a < q * m + m
  {
    DivRest(a, m);
    a / m
  }

  // Quotient and rest of a position: the rest is its slot.
  lemma Split(i: nat, m: nat) returns (q: nat, r: nat)
    requires m > 0
    ensures i == q * m + r && r < m && i % m == r
  {
    q, r := Div(i, m), i - Div(i, m) * m;
    DivUnique(i, q, r, m);
  }

  // A position's slot and its successor's.
  lemma ModNext(i: nat, m: nat)
    requires m > 1
    ensures (i + 1) % m == (i % m + 1) % m
  {
    hide Div;
    var q, r := Split(i, m);
    if r + 1 < m {
      DivUnique(i + 1, q, r + 1, m);
      DivUnique(r + 1, 0, r + 1, m);
    } else {
      assert (q + 1) * m == q * m + m;
      DivUnique(i + 1, q + 1, 0, m);
      DivUnique(r + 1, 1, 0, m);
    }
  }

  lemma OneRound(i: nat, m: nat)
    requires m > 0
    ensures (i + m) % m == i % m
  {
    hide Div;
    var q, r := Split(i, m);
    assert (q + 1) * m == q * m + m;
    DivUnique(i + m, q + 1, r, m);
  }

  lemma Gap(p: nat, a: nat, q: nat, b: nat, m: nat)
    requires a < m && b < m && p * m + a <= q * m + b < p * m + a + m
    ensures (q * m + b) - (p * m + a) == if b >= a then b - a else m - a + b
  {
    assert (p + 1) * m == p * m + m && (q + 1) * m == q * m + m && (p + 2) * m == p * m + 2 * m;
    MulLess(p, q + 1, m);
    MulLess(q, p + 2, m);
  }

  // How far position j is ahead of i, read off their slots.
  lemma RingDistance(i: nat, j: nat, m: nat)
    requires m > 0 && i <= j < i + m
    ensures j - i == if j % m >= i % m then j % m - i % m else m - i % m + j % m
  {
    hide Div;
    var p, a := Split(i, m);
    var q, b := Split(j, m);
    Gap(p, a, q, b, m);
  }

  lemma SameRest(p: nat, a: nat, q: nat, b: nat, m: nat)
    requires a < m && b < m
    ensures (p * m + a + (q * m + b)) % m == if a + b < m then a + b else a + b - m
  {
    assert (p + q) * m == p * m + q * m && (p + q + 1) * m == p * m + q * m + m;
    if a + b < m {
      DivUnique(p * m + a + (q * m + b), p + q, a + b, m);
    } else {
      DivUnique(p * m + a + (q * m + b), p + q + 1, a + b - m, m);
    }
  }

  // Positions share a slot iff they are a whole number of rounds apart.
  lemma SameSlotIff(i: nat, j: nat, m: nat)
    requires m > 0 && i <= j
    ensures i % m == j % m <==> (j - i) % m == 0
  {
    hide Div;
    var p, a := Split(i, m);
    var q, b := Split(j - i, m);
    SameRest(p, a, q, b, m);
    assert j == p * m + a + (q * m + b);
  }

  // The slot of the position d after i.
  function Slot(i: nat, d: nat, m: nat): (r: nat)
    requires m > 0
    ensures r < m
  {
    (i + d) % m
  }

  // Within one round two positions share a slot only if they are the same.
  lemma SlotsDistinct(i: nat, j: nat, m: nat)
    requires m > 0 && i <= j < i + m && i % m == j % m
    ensures i == j
  {
    RingDistance(i, j, m);
  }

  // The slot after slot x.
  function NextSlot(x: nat, m: nat): (r: nat)
    requires m > 0
    ensures r < m
  {
    (x + 1) % m
  }

  lemma SlotShift(first: nat, i: nat, m: nat)
    requires m > 0
    ensures Slot(first + 1, i, m) == Slot(first, i + 1, m)
  {
  }

  lemma SlotAt(first: nat, i: nat, m: nat)
    requires m > 0
    ensures Slot(first, i, m) == Slot(first + i, 0, m)
  {
  }

  lemma SlotsApart(first: nat, i: nat, j: nat, m: nat)
    requires i < j < m
    ensures Slot(first, i, m) != Slot(first, j, m)
  {
    if Slot(first, i, m) == Slot(first, j, m) {
      SlotsDistinct(first + i, first + j, m);
    }
  }

  // The two tests of a ring that leaves one slot unused.
  lemma FullAndEmpty(first: nat, next: nat, m: nat)
    requires m > 1 && first <= next < first + m
    ensures (next % m + 1) % m == first % m <==> next - first == m - 1
    ensures first % m == next % m <==> first == next
  {
    ModNext(next, m);
    OneRound(first, m);
    if first % m == next % m {
      SlotsDistinct(first, next, m);
    }
    if (next + 1) % m == first % m && next + 1 < first + m {
      SlotsDistinct(first, next + 1, m);
    }
  }

  // The same for a ring of n items from position first on.
  lemma RingTests(first: nat, n: nat, m: nat)
    requires m > 1 && n < m
    ensures NextSlot(Slot(first, n, m), m) == Slot(first, n + 1, m)
    ensures NextSlot(Slot(first, 0, m), m) == Slot(first + 1, 0, m)
    ensures NextSlot(Slot(first, n, m), m) == Slot(first, 0, m) <==> n == m - 1
    ensures Slot(first, 0, m) == Slot(first, n, m) <==> n == 0
    ensures n == if Slot(first, n, m) >= Slot(first, 0, m) then Slot(first, n, m) - Slot(first, 0, m)
      else m - Slot(first, 0, m) + Slot(first, n, m)
  {
    FullAndEmpty(first, first + n, m);
    RingDistance(first, first + n, m);
    ModNext(first + n, m);
    ModNext(first, m);
  }
}

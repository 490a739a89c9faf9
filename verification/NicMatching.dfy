/** Which NIC connects to which: both ends work it out from the two lists of NIC names, the
    active end as a list of attempts, the passive end as the number it will wait for. */
module NicMatching {

  predicate IsDigit(c: char) {
    '0' <= c <= '9'
  }

  function DigitValue(c: char): nat
    requires IsDigit(c)
  {
    c as nat - '0' as nat
  }

  // Where the digits at the end of a name begin.
  function DigitsFrom(name: string, end: nat): (start: nat)
    requires end <= |name|
    ensures start <= end
    ensures forall i :: start <= i < end ==> IsDigit(name[i])
    ensures start > 0 ==> !IsDigit(name[start - 1])
  {
    if end > 0 && IsDigit(name[end - 1]) then DigitsFrom(name, end - 1) else end
  }

  function Number(digits: string): nat
    requires forall i :: 0 <= i < |digits| ==> IsDigit(digits[i])
  {
    if digits == "" then 0 else 10 * Number(digits[..|digits| - 1]) + DigitValue(digits[|digits| - 1])
  }

  // extractNicSuffix: the number at the end of the name, -1 without one.
  function Suffix(name: string): (r: int)
    ensures r >= -1
  {
    var start := DigitsFrom(name, |name|);
    if start == |name| then -1 else Number(name[start..])
  }

  // A number written with digits.
  function Decimal(n: nat): (s: string)
    ensures |s| > 0 && forall i :: 0 <= i < |s| ==> IsDigit(s[i])
  {
    (if n < 10 then "" else Decimal(n / 10)) + [('0' as int + n % 10) as char]
  }

  lemma {:induction false} NumberOfDecimal(n: nat)
    ensures Number(Decimal(n)) == n
  {
    var s := Decimal(n);
    var front := if n < 10 then "" else Decimal(n / 10);
    assert s[..|s| - 1] == front && s[|s| - 1] == ('0' as int + n % 10) as char;
    if n >= 10 {
      NumberOfDecimal(n / 10);
    }
  }

  lemma {:induction false} DigitsFromBase(base: string, digits: string, k: nat)
    requires forall i :: 0 <= i < |digits| ==> IsDigit(digits[i])
    requires base == "" || !IsDigit(base[|base| - 1])
    requires k <= |digits|
    ensures DigitsFrom(base + digits, |base| + k) == |base|
  {
    var name := base + digits;
    if k > 0 {
      assert name[|base| + k - 1] == digits[k - 1];
      DigitsFromBase(base, digits, k - 1);
    } else if base != "" {
      assert name[|base| - 1] == base[|base| - 1];
    }
  }

  function Zeros(z: nat): (s: string)
    ensures |s| == z && forall i :: 0 <= i < z ==> s[i] == '0'
  {
    seq(z, _ => '0')
  }

  lemma {:induction false} LeadingZeros(z: nat, digits: string)
    requires forall i :: 0 <= i < |digits| ==> IsDigit(digits[i])
    ensures forall i :: 0 <= i < |Zeros(z) + digits| ==> IsDigit((Zeros(z) + digits)[i])
    ensures Number(Zeros(z) + digits) == Number(digits)
    decreases z + |digits|
  {
    var s := Zeros(z) + digits;
    if digits != "" {
      var front := digits[..|digits| - 1];
      LeadingZeros(z, front);
      assert s[..|s| - 1] == Zeros(z) + front;
    } else if z > 0 {
      LeadingZeros(z - 1, "");
      assert s[..|s| - 1] == Zeros(z - 1) + "";
    }
  }

  // A name that ends in number n, with any zeros before it and whatever before those, has
  // suffix n; one that does not end in a digit has none.
  lemma SuffixOf(base: string, z: nat, n: nat)
    requires base == "" || !IsDigit(base[|base| - 1])
    ensures Suffix(base + (Zeros(z) + Decimal(n))) == n
    ensures Suffix(base) == -1
  {
    hide Zeros, Number, Decimal, IsDigit;
    LeadingZeros(z, Decimal(n));
    NumberOfDecimal(n);
    SuffixAfter(base, Zeros(z) + Decimal(n));
    NoSuffix(base);
  }

  lemma NoSuffix(base: string)
    requires base == "" || !IsDigit(base[|base| - 1])
    ensures Suffix(base) == -1
  {
  }

  lemma SuffixAfter(base: string, digits: string)
    requires base == "" || !IsDigit(base[|base| - 1])
    requires digits != "" && forall i :: 0 <= i < |digits| ==> IsDigit(digits[i])
    ensures Suffix(base + digits) == Number(digits)
  {
    hide Number, IsDigit;
    DigitsFromBase(base, digits, |digits|);
    assert (base + digits)[|base|..] == digits;
  }

  // Digits are some zeros and a number's decimal form.
  lemma {:induction false} DigitsAre(digits: string) returns (z: nat, n: nat)
    requires digits != "" && forall i :: 0 <= i < |digits| ==> IsDigit(digits[i])
    ensures digits == Zeros(z) + Decimal(n)
    decreases |digits|
  {
    var front, d := digits[..|digits| - 1], DigitValue(digits[|digits| - 1]);
    assert digits == front + [digits[|digits| - 1]] && digits[|digits| - 1] == ('0' as int + d) as char;
    if front == "" {
      return 0, d;
    }
    var y, m := DigitsAre(front);
    if m == 0 {
      assert Decimal(0) == "0";
      assert Zeros(y) + "0" == Zeros(y + 1);
      return y + 1, d;
    }
    assert (10 * m + d) / 10 == m && (10 * m + d) % 10 == d;
    return y, 10 * m + d;
  }

  // SuffixOf speaks of every name.
  lemma EveryName(name: string) returns (base: string, z: nat, n: nat)
    ensures base == "" || !IsDigit(base[|base| - 1])
    ensures name == base || name == base + (Zeros(z) + Decimal(n))
  {
    var start := DigitsFrom(name, |name|);
    base, z, n := name[..start], 0, 0;
    if start < |name| {
      z, n := DigitsAre(name[start..]);
      assert name == base + name[start..];
    } else {
      assert name == base;
    }
  }

  function CrossSuffix(s: int): int {
    if s >= 4 then s - 4 else s + 4
  }

  /* ---------- the active end ---------- */

  // The first NIC of a name list with suffix s; names without digits are not listed.
  function FirstWith(names: seq<string>, s: int, from: nat): (r: int)
    requires from <= |names|
    ensures -1 <= r < |names|
    ensures r >= 0 ==> from <= r && Suffix(names[r]) == s && s >= 0
    ensures r == -1 ==> s < 0 || forall i :: from <= i < |names| ==> Suffix(names[i]) != s
    decreases |names| - from
  {
    if from == |names| then -1
    else if s >= 0 && Suffix(names[from]) == s then from
    else FirstWith(names, s, from + 1)
  }

  function One(i: int): seq<nat> {
    if i < 0 then [] else [i]
  }

  // The remote NICs that a local NIC of this name connects to: the one with its suffix and
  // the one four away.
  function Targets(name: string, remote: seq<string>): seq<nat> {
    One(FirstWith(remote, Suffix(name), 0)) + One(FirstWith(remote, CrossSuffix(Suffix(name)), 0))
  }

  datatype Pair = Pair(local: nat, remote: nat)

  function PairsOf(l: nat, targets: seq<nat>): (r: seq<Pair>)
    ensures |r| == |targets|
    ensures forall i :: 0 <= i < |r| ==> r[i] == Pair(l, targets[i])
  {
    seq(|targets|, i requires 0 <= i < |targets| => Pair(l, targets[i]))
  }

  // The attempts of the first n local NICs, in the order the active end makes them.
  function Attempts(local: seq<string>, remote: seq<string>, n: nat): seq<Pair>
    requires n <= |local|
  {
    if n == 0 then [] else Attempts(local, remote, n - 1) + PairsOf(n - 1, Targets(local[n - 1], remote))
  }

  /* ---------- the passive end ---------- */

  // Is a suffix among the names' (those without digits are not listed)?
  predicate Listed(names: seq<string>, s: int) {
    s >= 0 && exists i :: 0 <= i < |names| && Suffix(names[i]) == s
  }

  // The loop of acceptLoop that counts what the active end will attempt.
  method ExpectedConnections(mine: seq<string>, theirs: seq<string>) returns (expected: nat)
    ensures expected == |Attempts(theirs, mine, |theirs|)|
  {
    hide Suffix, Listed, Targets, FirstWith;
    expected := 0;
    var suffixes: map<int, nat> := map[];
    NoneListed();
    assert mine[..0] == [];
    for i := 0 to |mine|
      invariant forall s :: s in suffixes <==> Listed(mine[..i], s)
    {
      var s := Suffix(mine[i]);
      ListedNext(mine, i);
      if s >= 0 {
        suffixes := suffixes[s := i];
      }
    }
    assert mine[..|mine|] == mine;
    for r := 0 to |theirs|
      invariant expected == |Attempts(theirs, mine, r)|
    {
      var s := Suffix(theirs[r]);
      TargetCount(theirs[r], mine);
      if s in suffixes {
        expected := expected + 1;
      }
      if CrossSuffix(s) in suffixes {
        expected := expected + 1;
      }
    }
  }

  lemma ListedNext(names: seq<string>, i: nat)
    requires i < |names|
    ensures forall s :: Listed(names[..i + 1], s) <==> Listed(names[..i], s) || (s >= 0 && s == Suffix(names[i]))
  {
    forall s
      ensures Listed(names[..i + 1], s) <==> Listed(names[..i], s) || (s >= 0 && s == Suffix(names[i]))
    {
      assert names[..i + 1][i] == names[i];
      if s >= 0 && Listed(names[..i], s) {
        var j :| 0 <= j < i && Suffix(names[..i][j]) == s;
        assert Suffix(names[..i + 1][j]) == s;
      }
      if Listed(names[..i + 1], s) && s != Suffix(names[i]) {
        var j :| 0 <= j < i + 1 && Suffix(names[..i + 1][j]) == s;
        assert Suffix(names[..i][j]) == s;
      }
    }
  }

  lemma NoneListed()
    ensures forall s :: !Listed([], s)
  {
  }

  lemma TargetCount(name: string, remote: seq<string>)
    ensures |Targets(name, remote)| == (if Listed(remote, Suffix(name)) then 1 else 0)
      + if Listed(remote, CrossSuffix(Suffix(name))) then 1 else 0
  {
    hide Suffix, Listed, FirstWith;
    FirstIffListed(remote, Suffix(name));
    FirstIffListed(remote, CrossSuffix(Suffix(name)));
  }

  // The active end finds a first NIC exactly when the passive end has the suffix listed.
  lemma FirstIffListed(names: seq<string>, s: int)
    ensures FirstWith(names, s, 0) >= 0 <==> Listed(names, s)
  {
  }

  /* ---------- which NICs are paired ---------- */

  // l is the first NIC of the list with suffix s, or empty if none has it.
  ghost predicate FirstOnly(names: seq<string>, s: int, l: seq<nat>) {
    if forall i :: 0 <= i < |names| ==> Suffix(names[i]) != s then l == []
    else |l| == 1 && IsFirst(names, s, l[0])
  }

  ghost predicate IsFirst(names: seq<string>, s: int, r: nat) {
    && r < |names| && Suffix(names[r]) == s
    && forall i :: 0 <= i < r ==> Suffix(names[i]) != s
  }

  lemma FoundFirst(names: seq<string>, s: int)
    requires s >= 0
    ensures FirstOnly(names, s, One(FirstWith(names, s, 0)))
  {
    hide Suffix;
    if FirstWith(names, s, 0) >= 0 {
      NoneBefore(names, s, 0);
    }
  }

  lemma {:induction false} NoneBefore(names: seq<string>, s: int, from: nat)
    requires from <= |names| && FirstWith(names, s, from) >= 0
    ensures forall i :: from <= i < FirstWith(names, s, from) ==> Suffix(names[i]) != s
    decreases |names| - from
  {
    hide Suffix;
    if from < |names| && !(s >= 0 && Suffix(names[from]) == s) {
      NoneBefore(names, s, from + 1);
    }
  }

  // A NIC with number n goes to the first remote NIC with number n, if any, and then to the
  // first with n - 4, for n below 4 with n + 4, if any; and to no other. A NIC without a
  // number goes to the first remote NIC with number 3, if any.
  lemma TargetsAre(name: string, remote: seq<string>) returns (same: seq<nat>, cross: seq<nat>)
    ensures Targets(name, remote) == same + cross
    ensures Suffix(name) == -1 ==> same == [] && FirstOnly(remote, 3, cross)
    ensures Suffix(name) >= 0 ==> FirstOnly(remote, Suffix(name), same)
    ensures 0 <= Suffix(name) < 4 ==> FirstOnly(remote, Suffix(name) + 4, cross)
    ensures Suffix(name) >= 4 ==> FirstOnly(remote, Suffix(name) - 4, cross)
  {
    hide Suffix, FirstOnly;
    same := One(FirstWith(remote, Suffix(name), 0));
    cross := One(FirstWith(remote, CrossSuffix(Suffix(name)), 0));
    if Suffix(name) >= 0 {
      FoundFirst(remote, Suffix(name));
    }
    FoundFirst(remote, CrossSuffix(Suffix(name)));
  }

  // The NICs at the two ends of an attempt have the same number or numbers four apart.
  ghost predicate Paired(local: string, remote: seq<string>, r: nat) {
    var n := Suffix(local);
    || (n >= 0 && IsFirst(remote, n, r))
    || (n >= 4 && IsFirst(remote, n - 4, r))
    || (-1 <= n < 4 && IsFirst(remote, n + 4, r))
  }

  // The active end attempts exactly these pairs; for one local NIC that with its own number
  // comes first.
  lemma AttemptsAre(local: seq<string>, remote: seq<string>)
    ensures forall p: Pair ::
      p in Attempts(local, remote, |local|) <==> p.local < |local| && Paired(local[p.local], remote, p.remote)
    ensures var a := Attempts(local, remote, |local|);
      forall i, j :: 0 <= i < j < |a| && a[i].local == a[j].local ==>
        a[i].local < |local| && a[i].remote < |remote| && Suffix(remote[a[i].remote]) == Suffix(local[a[i].local])
  {
    hide Suffix, Targets, Attempts, Paired;
    var a := Attempts(local, remote, |local|);
    forall p: Pair
      ensures p in a <==> p.local < |local| && Paired(local[p.local], remote, p.remote)
    {
      AttemptsOf(local, remote, |local|, p);
      if p.local < |local| {
        TargetsPaired(local[p.local], remote, p.remote);
      }
    }
    forall i, j | 0 <= i < j < |a| && a[i].local == a[j].local
      ensures a[i].local < |local| && a[i].remote < |remote|
      ensures Suffix(remote[a[i].remote]) == Suffix(local[a[i].local])
    {
      SameFirst(local, remote, |local|, i, j);
    }
  }

  lemma TargetsPaired(name: string, remote: seq<string>, r: nat)
    ensures r in Targets(name, remote) <==> Paired(name, remote, r)
  {
    hide Suffix, Targets;
    var same, cross := TargetsAre(name, remote);
  }

  lemma {:induction false} SameFirst(local: seq<string>, remote: seq<string>, n: nat, i: nat, j: nat)
    requires n <= |local|
    requires var a := Attempts(local, remote, n); i < j < |a| && a[i].local == a[j].local
    ensures var a := Attempts(local, remote, n);
      a[i].local < n && a[i].remote < |remote| && Suffix(remote[a[i].remote]) == Suffix(local[a[i].local])
  {
    hide Suffix, Targets, FirstOnly;
    AttemptsGrouped(local, remote, n);
    var before, targets := Attempts(local, remote, n - 1), Targets(local[n - 1], remote);
    AttemptsGrouped(local, remote, n - 1);
    if j < |before| {
      SameFirst(local, remote, n - 1, i, j);
    } else {
      var same, cross := TargetsAre(local[n - 1], remote);
      TwoTargets(local[n - 1], remote, same, cross);
    }
  }

  lemma TwoTargets(name: string, remote: seq<string>, same: seq<nat>, cross: seq<nat>)
    requires Targets(name, remote) == same + cross && |Targets(name, remote)| > 1
    requires Suffix(name) == -1 ==> same == [] && FirstOnly(remote, 3, cross)
    requires Suffix(name) >= 0 ==> FirstOnly(remote, Suffix(name), same)
    requires 0 <= Suffix(name) < 4 ==> FirstOnly(remote, Suffix(name) + 4, cross)
    requires Suffix(name) >= 4 ==> FirstOnly(remote, Suffix(name) - 4, cross)
    ensures |same| == |cross| == 1 && IsFirst(remote, Suffix(name), same[0])
  {
    hide Suffix, Targets;
  }

  /* ---------- attempts are distinct ---------- */

  lemma TargetsDistinct(name: string, remote: seq<string>)
    ensures forall i, j :: 0 <= i < j < |Targets(name, remote)| ==> Targets(name, remote)[i] != Targets(name, remote)[j]
    ensures forall i :: 0 <= i < |Targets(name, remote)| ==> Targets(name, remote)[i] < |remote|
  {
  }

  // Grouped by local NIC in order, each pair once, all indices in range.
  ghost predicate Grouped(attempts: seq<Pair>, n: nat, m: nat) {
    && (forall i :: 0 <= i < |attempts| ==> attempts[i].local < n && attempts[i].remote < m)
    && (forall i, j :: 0 <= i < j < |attempts| ==> attempts[i].local <= attempts[j].local && attempts[i] != attempts[j])
  }

  lemma {:induction false} AttemptsGrouped(local: seq<string>, remote: seq<string>, n: nat)
    requires n <= |local|
    ensures Grouped(Attempts(local, remote, n), n, |remote|)
  {
    hide Targets, Suffix, FirstWith;
    if n > 0 {
      AttemptsGrouped(local, remote, n - 1);
      TargetsDistinct(local[n - 1], remote);
      var before, last := Attempts(local, remote, n - 1), PairsOf(n - 1, Targets(local[n - 1], remote));
      GroupedAppend(before, last, n, |remote|);
    }
  }

  lemma GroupedAppend(before: seq<Pair>, last: seq<Pair>, n: nat, m: nat)
    requires n > 0 && Grouped(before, n - 1, m)
    requires forall i :: 0 <= i < |last| ==> last[i].local == n - 1 && last[i].remote < m
    requires forall i, j :: 0 <= i < j < |last| ==> last[i].remote != last[j].remote
    ensures Grouped(before + last, n, m)
  {
  }

  // The attempts of one local NIC are its targets, in order.
  lemma {:induction false} AttemptsOf(local: seq<string>, remote: seq<string>, n: nat, p: Pair)
    requires n <= |local|
    ensures p in Attempts(local, remote, n) <==> p.local < n && p.remote in Targets(local[p.local], remote)
  {
    hide Targets, Suffix, FirstWith;
    if n > 0 {
      AttemptsOf(local, remote, n - 1, p);
      var last := PairsOf(n - 1, Targets(local[n - 1], remote));
      if p.local == n - 1 && p.remote in Targets(local[n - 1], remote) {
        var i: nat :| 0 <= i < |last| && Targets(local[n - 1], remote)[i] == p.remote;
        assert last[i] == p;
      }
    }
  }
}

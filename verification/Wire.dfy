/** Fixed-width values and strings on the wire: integers least significant byte first, GIDs as
    text in 64-byte buffers. */
module Wire {
  import opened Rings
  import opened Layout
  import opened ProxyBuffer

  /* ---------- integers ---------- */

  function Pow256(w: nat): (r: nat)
    ensures r > 0
  {
    if w == 0 then 1 else 256 * Pow256(w - 1)
  }

  function Put(n: nat, w: nat): (r: seq<Byte>)
    ensures |r| == w
  {
    if w == 0 then [] else [n % 256] + Put(n / 256, w - 1)
  }

  function Get(b: seq<Byte>): nat {
    if b == [] then 0 else b[0] + 256 * Get(b[1..])
  }

  // Byte i of a number is its i-th digit to base 256: the least significant comes first.
  lemma {:induction false} PutAt(n: nat, w: nat, i: nat)
    requires i < w
    ensures Put(n, w)[i] == (n / Pow256(i)) % 256
  {
    if i > 0 {
      PutAt(n / 256, w - 1, i - 1);
      DivTwice(n, Pow256(i - 1));
    }
  }

  lemma DivTwice(n: nat, m: nat)
    requires m > 0
    ensures (n / 256) / m == n / (256 * m)
  {
    var q, r := (n / 256) / m, (n / 256) % m;
    assert n / 256 == q * m + r && n == 256 * (n / 256) + n % 256;
    assert q * (256 * m) == 256 * (q * m);
    DivUnique(n, q, 256 * r + n % 256, 256 * m);
  }

  // Reading what was written gives the value cut to the width.
  lemma {:induction false} GetPut(n: nat, w: nat)
    requires n < Pow256(w)
    ensures Get(Put(n, w)) == n
  {
    if w > 0 {
      GetPut(n / 256, w - 1);
      assert Put(n, w)[1..] == Put(n / 256, w - 1);
    }
  }

  // int32_t in two's complement.
  function PutSigned(n: int): seq<Byte>
    requires -0x8000_0000 <= n < 0x8000_0000
  {
    Put(if n < 0 then n + 0x1_0000_0000 else n, 4)
  }

  function GetSigned(b: seq<Byte>): int {
    if Get(b) >= 0x8000_0000 then Get(b) - 0x1_0000_0000 else Get(b)
  }

  lemma Widths()
    ensures Pow256(4) == 0x1_0000_0000 && Pow256(8) == 0x1_0000_0000_0000_0000
  {
    assert Pow256(1) == 256 && Pow256(2) == 0x1_0000 && Pow256(3) == 0x100_0000;
    assert Pow256(5) == 0x100_0000_0000 && Pow256(6) == 0x1_0000_0000_0000 && Pow256(7) == 0x100_0000_0000_0000;
  }

  lemma GetPutSigned(n: int)
    requires -0x8000_0000 <= n < 0x8000_0000
    ensures GetSigned(PutSigned(n)) == n
  {
    Widths();
    GetPut(if n < 0 then n + 0x1_0000_0000 else n, 4);
  }

  /* ---------- GIDs as text ---------- */

  function HexDigit(n: nat): (c: char)
    requires n < 16
    ensures c != 0 as char && (c as int) < 256
  {
    if n < 10 then ('0' as int + n) as char else ('a' as int + n - 10) as char
  }

  function HexValue(c: char): Option<nat> {
    if '0' <= c <= '9' then Some(c as nat - '0' as nat)
    else if 'a' <= c <= 'f' then Some(c as nat - 'a' as nat + 10)
    else if 'A' <= c <= 'F' then Some(c as nat - 'A' as nat + 10)
    else None
  }

  // Two digits a byte, colons between.
  function GidToString(raw: seq<Byte>): (s: string)
    ensures |s| == if |raw| == 0 then 0 else 3 * |raw| - 1
  {
    if raw == [] then ""
    else
      var two := [HexDigit(raw[0] / 16), HexDigit(raw[0] % 16)];
      if |raw| == 1 then two else two + ":" + GidToString(raw[1..])
  }

  // Reads n bytes in that form; None where the scan would stop early.
  function StringToGid(s: string, n: nat): Option<seq<Byte>> {
    if n == 0 then Some([])
    else if |s| < 2 || HexValue(s[0]).None? || HexValue(s[1]).None? then None
    else
      var b := 16 * HexValue(s[0]).value + HexValue(s[1]).value;
      if n == 1 then (if b < 256 then Some([b]) else None)
      else if |s| < 3 || s[2] != ':' then None
      else
        var rest := StringToGid(s[3..], n - 1);
        if rest.Some? && b < 256 then Some([b] + rest.value) else None
  }

  // Digits are written in lower case and read in either.
  lemma HexDigits(n: nat, c: char)
    requires n < 16
    ensures HexDigit(n) == "0123456789abcdef"[n]
    ensures HexValue(c) == Some(n) <==> c == "0123456789abcdef"[n] || c == "0123456789ABCDEF"[n]
  {
  }

  // The text of a GID: two hex digits for each byte, colons between.
  lemma {:induction false} GidTextAt(raw: seq<Byte>, i: nat)
    requires i < |raw|
    ensures |GidToString(raw)| == 3 * |raw| - 1
    ensures GidToString(raw)[3 * i] == "0123456789abcdef"[raw[i] / 16]
    ensures GidToString(raw)[3 * i + 1] == "0123456789abcdef"[raw[i] % 16]
    ensures i + 1 < |raw| ==> GidToString(raw)[3 * i + 2] == ':'
  {
    HexDigits(raw[i] / 16, '0');
    HexDigits(raw[i] % 16, '0');
    if i > 0 {
      GidTextAt(raw[1..], i - 1);
    }
  }

  lemma HexBack(n: nat)
    requires n < 16
    ensures HexValue(HexDigit(n)) == Some(n)
  {
  }

  // The two directions undo each other.
  lemma {:induction false} GidRoundTrip(raw: seq<Byte>)
    ensures StringToGid(GidToString(raw), |raw|) == Some(raw)
  {
    if raw != [] {
      var s := GidToString(raw);
      HexBack(raw[0] / 16);
      HexBack(raw[0] % 16);
      assert s[0] == HexDigit(raw[0] / 16) && s[1] == HexDigit(raw[0] % 16);
      assert 16 * (raw[0] / 16) + raw[0] % 16 == raw[0];
      assert raw == [raw[0]] + raw[1..];
      if |raw| > 1 {
        GidRoundTrip(raw[1..]);
        assert s[2] == ':' && s[3..] == GidToString(raw[1..]);
        assert StringToGid(s[3..], |raw| - 1) == Some(raw[1..]);
        assert StringToGid(s, |raw|) == Some([raw[0]] + raw[1..]);
      } else {
        assert raw == [raw[0]];
        assert StringToGid(s, 1) == Some([raw[0]]);
      }
    }
  }

  // So different GIDs have different texts.
  lemma GidTextInjective(a: seq<Byte>, b: seq<Byte>)
    requires |a| == |b| && GidToString(a) == GidToString(b)
    ensures a == b
  {
    GidRoundTrip(a);
    GidRoundTrip(b);
  }

  lemma {:induction false} GidTextPlain(raw: seq<Byte>)
    ensures forall i :: 0 <= i < |GidToString(raw)| ==> 0 < (GidToString(raw)[i] as int) < 256
  {
    if |raw| > 1 {
      GidTextPlain(raw[1..]);
    }
  }

  /* ---------- text in a zeroed buffer ---------- */

  function PutText(s: string, size: nat): (r: seq<Byte>)
    requires |s| < size && forall i :: 0 <= i < |s| ==> (s[i] as int) < 256
    ensures |r| == size
  {
    seq(size, i requires 0 <= i < size => if i < |s| then s[i] as nat else 0)
  }

  // Up to the first NUL.
  function GetText(b: seq<Byte>): string {
    if b == [] || b[0] == 0 then "" else [b[0] as char] + GetText(b[1..])
  }

  lemma {:induction false} GetPutText(s: string, size: nat)
    requires |s| < size && forall i :: 0 <= i < |s| ==> 0 < (s[i] as int) < 256
    ensures GetText(PutText(s, size)) == s
  {
    if s != "" {
      assert PutText(s, size)[1..] == PutText(s[1..], size - 1);
      GetPutText(s[1..], size - 1);
    }
  }
}

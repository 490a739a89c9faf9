/** The buffer query: the server writes its published buffers as a byte stream, the client
    reads them back and sorts each buffer's rkeys by the GIDs of its connected endpoints. */
module BufferQuery {
  import opened Layout
  import opened Wire

  const GID_BUFFER: nat := 64

  datatype Entry = Entry(addr: nat, length: nat, numa: int, rkeys: seq<nat>)

  // What a server publishes: its NICs' GIDs and its buffers.
  datatype Published = Published(gids: seq<seq<Byte>>, buffers: seq<Entry>)

  datatype QueryError = ConnectionError | InvalidArgument
  datatype Result = Ok(gids: seq<string>, buffers: seq<Entry>) | Err(error: QueryError)

  ghost predicate EntryOk(e: Entry, nics: nat) {
    && e.addr < Pow256(8) && e.length < Pow256(8)
    && -0x8000_0000 <= e.numa < 0x8000_0000
    && |e.rkeys| == nics
    && forall i :: 0 <= i < |e.rkeys| ==> e.rkeys[i] < Pow256(4)
  }

  // Values have their C++ types' widths, a GID 16 bytes, a buffer one rkey for each NIC.
  ghost predicate PublishedOk(p: Published) {
    && |p.gids| < Pow256(4) && |p.buffers| < Pow256(4)
    && (forall i :: 0 <= i < |p.gids| ==> |p.gids[i]| == 16)
    && forall i :: 0 <= i < |p.buffers| ==> EntryOk(p.buffers[i], |p.gids|)
  }

  /* ---------- the server's stream ---------- */

  ghost function RkeyBytes(rkeys: seq<nat>): seq<Byte> {
    if rkeys == [] then [] else Put(rkeys[0], 4) + RkeyBytes(rkeys[1..])
  }

  ghost function EntryBytes(e: Entry): seq<Byte>
    requires -0x8000_0000 <= e.numa < 0x8000_0000
  {
    Put(e.addr, 8) + Put(e.length, 8) + PutSigned(e.numa) + RkeyBytes(e.rkeys)
  }

  ghost function GidBytes(raw: seq<Byte>): seq<Byte>
    requires |raw| == 16
  {
    GidTextPlain(raw);
    PutText(GidToString(raw), GID_BUFFER)
  }

  ghost function AllGidBytes(gids: seq<seq<Byte>>): seq<Byte>
    requires forall i :: 0 <= i < |gids| ==> |gids[i]| == 16
  {
    if gids == [] then [] else GidBytes(gids[0]) + AllGidBytes(gids[1..])
  }

  ghost function AllEntryBytes(es: seq<Entry>): seq<Byte>
    requires forall i :: 0 <= i < |es| ==> -0x8000_0000 <= es[i].numa < 0x8000_0000
  {
    if es == [] then [] else EntryBytes(es[0]) + AllEntryBytes(es[1..])
  }

  ghost function Response(p: Published): seq<Byte>
    requires PublishedOk(p)
  {
    EntriesRanges(p);
    if p.buffers == [] then Put(0, 4)
    else Put(|p.buffers|, 4) + (Put(|p.gids|, 4) + (AllGidBytes(p.gids) + AllEntryBytes(p.buffers)))
  }

  lemma EntriesRanges(p: Published)
    requires PublishedOk(p)
    ensures forall i :: 0 <= i < |p.buffers| ==> -0x8000_0000 <= p.buffers[i].numa < 0x8000_0000
  {
    forall i | 0 <= i < |p.buffers|
      ensures -0x8000_0000 <= p.buffers[i].numa < 0x8000_0000
    {
      assert EntryOk(p.buffers[i], |p.gids|);
    }
  }

  /* ---------- the client's parse ---------- */

  // A value read off the front of the stream; None when the stream ends before it.
  datatype Parsed<T> = End | Got(value: T, rest: seq<Byte>)

  function Rkeys(b: seq<Byte>, n: nat): (r: Parsed<seq<nat>>)
    ensures r.Got? ==> |r.value| == n
  {
    if n == 0 then Got([], b)
    else if |b| < 4 then End
    else match Rkeys(b[4..], n - 1)
      case End => End
      case Got(ks, rest) => Got([Get(b[..4])] + ks, rest)
  }

  function OneEntry(b: seq<Byte>, nics: nat): Parsed<Entry> {
    if |b| < 20 then End
    else match Rkeys(b[20..], nics)
      case End => End
      case Got(ks, rest) => Got(Entry(Get(b[..8]), Get(b[8..16]), GetSigned(b[16..20]), ks), rest)
  }

  function Entries(b: seq<Byte>, n: nat, nics: nat): Parsed<seq<Entry>>
    decreases n
  {
    if n == 0 then Got([], b)
    else match OneEntry(b, nics)
      case End => End
      case Got(e, rest) =>
        match Entries(rest, n - 1, nics)
        case End => End
        case Got(es, rest') => Got([e] + es, rest')
  }

  function Gids(b: seq<Byte>, n: nat): Parsed<seq<string>> {
    if n == 0 then Got([], b)
    else if |b| < GID_BUFFER then End
    else match Gids(b[GID_BUFFER..], n - 1)
      case End => End
      case Got(gs, rest) => Got([GetText(b[..GID_BUFFER])] + gs, rest)
  }

  function Body(b: seq<Byte>, n: nat, nics: nat): Result {
    match Gids(b, nics)
    case End => Err(ConnectionError)
    case Got(gs, rest) =>
      match Entries(rest, n, nics)
      case End => Err(ConnectionError)
      case Got(es, _) => Ok(gs, es)
  }

  function Parse(b: seq<Byte>): Result {
    if |b| < 4 then Err(ConnectionError)
    else if Get(b[..4]) == 0 then Err(InvalidArgument)
    else if |b| < 8 then Err(ConnectionError)
    else Body(b[8..], Get(b[..4]), Get(b[4..8]))
  }

  /* ---------- round trip ---------- */

  lemma {:induction false} RkeysRoundTrip(rkeys: seq<nat>, rest: seq<Byte>)
    requires forall i :: 0 <= i < |rkeys| ==> rkeys[i] < Pow256(4)
    ensures Rkeys(RkeyBytes(rkeys) + rest, |rkeys|) == Got(rkeys, rest)
  {
    hide Put, Get, Pow256;
    if rkeys == [] {
      assert RkeyBytes(rkeys) + rest == rest;
    } else {
      RkeysRoundTrip(rkeys[1..], rest);
      GetPut(rkeys[0], 4);
      var b := RkeyBytes(rkeys) + rest;
      assert b[..4] == Put(rkeys[0], 4);
      assert b[4..] == RkeyBytes(rkeys[1..]) + rest;
      assert rkeys == [rkeys[0]] + rkeys[1..];
    }
  }

  lemma EntryRoundTrip(e: Entry, nics: nat, rest: seq<Byte>)
    requires EntryOk(e, nics)
    ensures OneEntry(EntryBytes(e) + rest, nics) == Got(e, rest)
  {
    hide Put, Get, Pow256, Rkeys, RkeyBytes, PutSigned, GetSigned;
    RkeysRoundTrip(e.rkeys, rest);
    GetPut(e.addr, 8);
    GetPut(e.length, 8);
    GetPutSigned(e.numa);
    SignedSize(e.numa);
    var b := EntryBytes(e) + rest;
    assert b[..8] == Put(e.addr, 8);
    assert b[8..16] == Put(e.length, 8);
    assert b[16..20] == PutSigned(e.numa);
    assert b[20..] == RkeyBytes(e.rkeys) + rest;
  }

  lemma SignedSize(n: int)
    requires -0x8000_0000 <= n < 0x8000_0000
    ensures |PutSigned(n)| == 4
  {
  }

  lemma {:induction false} EntriesRoundTrip(es: seq<Entry>, nics: nat, rest: seq<Byte>)
    requires forall i :: 0 <= i < |es| ==> EntryOk(es[i], nics)
    requires forall i :: 0 <= i < |es| ==> -0x8000_0000 <= es[i].numa < 0x8000_0000
    ensures Entries(AllEntryBytes(es) + rest, |es|, nics) == Got(es, rest)
  {
    hide OneEntry, EntryBytes, EntryOk;
    if es == [] {
      assert AllEntryBytes(es) + rest == rest;
    } else {
      EntriesRoundTrip(es[1..], nics, rest);
      EntryRoundTrip(es[0], nics, AllEntryBytes(es[1..]) + rest);
      assert AllEntryBytes(es) + rest == EntryBytes(es[0]) + (AllEntryBytes(es[1..]) + rest);
      assert es == [es[0]] + es[1..];
    }
  }

  ghost function Texts(gids: seq<seq<Byte>>): (r: seq<string>)
    ensures |r| == |gids|
  {
    seq(|gids|, i requires 0 <= i < |gids| => GidToString(gids[i]))
  }

  lemma {:induction false} GidsRoundTrip(gids: seq<seq<Byte>>, rest: seq<Byte>)
    requires forall i :: 0 <= i < |gids| ==> |gids[i]| == 16
    ensures Gids(AllGidBytes(gids) + rest, |gids|) == Got(Texts(gids), rest)
  {
    hide GidToString, PutText, GetText;
    if gids == [] {
      assert AllGidBytes(gids) + rest == rest;
      assert Texts(gids) == [];
    } else {
      GidsRoundTrip(gids[1..], rest);
      GidTextPlain(gids[0]);
      GetPutText(GidToString(gids[0]), GID_BUFFER);
      var b := AllGidBytes(gids) + rest;
      assert b[..GID_BUFFER] == GidBytes(gids[0]);
      assert b[GID_BUFFER..] == AllGidBytes(gids[1..]) + rest;
      assert Texts(gids) == [GidToString(gids[0])] + Texts(gids[1..]);
    }
  }

  // The client gets back exactly the published buffers and the NICs' GIDs, whatever their
  // number; with none published it reports an invalid argument.
  lemma QueryRoundTrip(p: Published)
    requires PublishedOk(p)
    ensures Parse(Response(p)) == if p.buffers == [] then Err(InvalidArgument) else Ok(Texts(p.gids), p.buffers)
  {
    hide Put, Get, Pow256, Gids, Entries, AllGidBytes, AllEntryBytes, EntryOk;
    EntriesRanges(p);
    GetPut(0, 4);
    if p.buffers != [] {
      GetPut(|p.buffers|, 4);
      GetPut(|p.gids|, 4);
      var body := AllGidBytes(p.gids) + AllEntryBytes(p.buffers);
      GidsRoundTrip(p.gids, AllEntryBytes(p.buffers));
      EntriesRoundTrip(p.buffers, |p.gids|, []);
      assert AllEntryBytes(p.buffers) + [] == AllEntryBytes(p.buffers);
      var b := Response(p);
      assert b[..4] == Put(|p.buffers|, 4);
      assert b[4..8] == Put(|p.gids|, 4);
      assert b[8..] == body;
    } else {
      assert Put(0, 4)[..4] == Put(0, 4);
    }
  }

  // A stream cut off anywhere is a connection error: the client never takes part of the
  // list for all of it.
  lemma {:induction false} RkeysNeed(b: seq<Byte>, n: nat)
    ensures Rkeys(b, n).Got? <==> |b| >= 4 * n
    ensures Rkeys(b, n).Got? ==> Rkeys(b, n).rest == b[4 * n..]
  {
    if n > 0 && |b| >= 4 {
      RkeysNeed(b[4..], n - 1);
    }
  }

  function EntrySize(nics: nat): nat {
    20 + 4 * nics
  }

  function Times(n: nat, size: nat): nat {
    if n == 0 then 0 else size + Times(n - 1, size)
  }

  lemma {:induction false} TimesIs(n: nat, size: nat)
    ensures Times(n, size) == n * size
  {
    if n > 0 {
      TimesIs(n - 1, size);
      assert n * size == size + (n - 1) * size;
    }
  }

  lemma OneEntryNeeds(b: seq<Byte>, nics: nat)
    ensures OneEntry(b, nics).Got? <==> |b| >= EntrySize(nics)
    ensures OneEntry(b, nics).Got? ==> OneEntry(b, nics).rest == b[EntrySize(nics)..]
  {
    hide Get, GetSigned, Rkeys;
    if |b| >= 20 {
      RkeysNeed(b[20..], nics);
    }
  }

  lemma {:induction false} EntriesNeed(b: seq<Byte>, n: nat, nics: nat)
    ensures Entries(b, n, nics).Got? <==> |b| >= Times(n, EntrySize(nics))
    decreases n
  {
    hide OneEntry, EntrySize;
    if n > 0 {
      OneEntryNeeds(b, nics);
      if |b| >= EntrySize(nics) {
        EntriesNeed(b[EntrySize(nics)..], n - 1, nics);
      }
    }
  }

  lemma {:induction false} GidsNeed(b: seq<Byte>, n: nat)
    ensures Gids(b, n).Got? <==> |b| >= GID_BUFFER * n
    ensures Gids(b, n).Got? ==> Gids(b, n).rest == b[GID_BUFFER * n..]
  {
    if n > 0 && |b| >= GID_BUFFER {
      GidsNeed(b[GID_BUFFER..], n - 1);
    }
  }

  lemma CutOffIsError(b: seq<Byte>)
    requires |b| >= 8 && Get(b[..4]) != 0
    ensures Parse(b).Ok? <==> |b| >= 8 + GID_BUFFER * Get(b[4..8]) + Get(b[..4]) * (20 + 4 * Get(b[4..8]))
  {
    hide Get, Gids, Entries;
    var n, nics := Get(b[..4]), Get(b[4..8]);
    GidsNeed(b[8..], nics);
    TimesIs(n, EntrySize(nics));
    if |b| >= 8 + GID_BUFFER * nics {
      EntriesNeed(b[8..][GID_BUFFER * nics..], n, nics);
    }
  }

  // What a stream announces in its first eight bytes: for each of the NICs a GID of 64 bytes,
  // for each of the buffers 20 bytes and an rkey of four bytes for each NIC.
  function Announced(b: seq<Byte>): nat
    requires |b| >= 8
  {
    8 + 64 * Get(b[4..8]) + Get(b[..4]) * (20 + 4 * Get(b[4..8]))
  }

  // Every stream has one of three outcomes: the peer has no buffers; the connection ended
  // before all that is needed was there, be it at once; or the list is read.
  lemma ParseOutcome(b: seq<Byte>)
    ensures Parse(b) == Err(InvalidArgument) <==> |b| >= 4 && Get(b[..4]) == 0
    ensures Parse(b) == Err(ConnectionError) <==>
      |b| < 4 || (Get(b[..4]) != 0 && (|b| < 8 || |b| < Announced(b)))
    ensures Parse(b).Ok? <==> |b| >= 8 && Get(b[..4]) != 0 && |b| >= Announced(b)
    ensures Parse(b).Ok? ==> |Parse(b).gids| == Get(b[4..8]) && |Parse(b).buffers| == Get(b[..4])
  {
    hide Get, Gids, Entries;
    if |b| >= 8 && Get(b[..4]) != 0 {
      CutOffIsError(b);
      var n, nics := Get(b[..4]), Get(b[4..8]);
      GidsNeed(b[8..], nics);
      if Parse(b).Ok? {
        GidsMany(b[8..], nics);
        EntriesMany(Gids(b[8..], nics).rest, n, nics);
      }
    }
  }

  lemma {:induction false} GidsMany(b: seq<Byte>, n: nat)
    requires Gids(b, n).Got?
    ensures |Gids(b, n).value| == n
  {
    hide GetText;
    if n > 0 {
      GidsMany(b[GID_BUFFER..], n - 1);
    }
  }

  lemma {:induction false} EntriesMany(b: seq<Byte>, n: nat, nics: nat)
    requires Entries(b, n, nics).Got?
    ensures |Entries(b, n, nics).value| == n
    decreases n
  {
    hide OneEntry;
    if n > 0 {
      EntriesMany(OneEntry(b, nics).rest, n - 1, nics);
    }
  }

  /* ---------- rkeys by endpoint ---------- */

  // The first remote NIC whose GID text is the endpoint's.
  function Match(gids: seq<string>, gid: string, from: nat): (r: nat)
    requires from <= |gids|
    ensures from <= r <= |gids|
    ensures r < |gids| ==> gids[r] == gid
    ensures forall i :: from <= i < r ==> gids[i] != gid
    decreases |gids| - from
  {
    if from == |gids| || gids[from] == gid then from else Match(gids, gid, from + 1)
  }

  // The rkeys in the order of the endpoints; 0 for one without a match.
  function Reorder(endpoints: seq<string>, gids: seq<string>, rkeys: seq<nat>): (r: seq<nat>)
    requires |rkeys| == |gids|
    ensures |r| == |endpoints|
  {
    seq(|endpoints|, e requires 0 <= e < |endpoints| =>
      var m := Match(gids, endpoints[e], 0);
      if m < |gids| then rkeys[m] else 0)
  }

  // The loops over endpoints and remote NICs.
  method ReorderRkeys(endpoints: seq<string>, gids: seq<string>, rkeys: seq<nat>) returns (r: seq<nat>)
    requires |rkeys| == |gids|
    ensures r == Reorder(endpoints, gids, rkeys)
  {
    r := seq(|endpoints|, _ => 0);
    for e := 0 to |endpoints|
      invariant |r| == |endpoints|
      invariant forall i :: 0 <= i < e ==> r[i] == Reorder(endpoints, gids, rkeys)[i]
      invariant forall i :: e <= i < |endpoints| ==> r[i] == 0
    {
      var m := 0;
      while m < |gids| && gids[m] != endpoints[e]
        invariant m <= |gids|
        invariant forall i :: 0 <= i < m ==> gids[i] != endpoints[e]
      {
        m := m + 1;
      }
      if m < |gids| {
        r := r[e := rkeys[m]];
      }
    }
  }

  // An endpoint connected to NIC k gets the rkey published for NIC k, for every list of
  // rkeys, exactly when no NIC before k has the same GID.
  lemma RkeyOfNicIff(gids: seq<seq<Byte>>, k: nat)
    requires k < |gids| && forall i :: 0 <= i < |gids| ==> |gids[i]| == 16
    ensures (forall i :: 0 <= i < k ==> gids[i] != gids[k]) <==>
      (forall rkeys: seq<nat> :: |rkeys| == |gids| ==>
         Reorder([GidToString(gids[k])], Texts(gids), rkeys) == [rkeys[k]])
  {
    hide GidToString;
    var text := GidToString(gids[k]);
    var m := Match(Texts(gids), text, 0);
    assert Texts(gids)[k] == text;
    assert Texts(gids)[m] == GidToString(gids[m]);
    GidTextInjective(gids[m], gids[k]);
    assert forall i :: 0 <= i < m ==> gids[i] != gids[k] by {
      forall i | 0 <= i < m
        ensures gids[i] != gids[k]
      {
        assert Texts(gids)[i] == GidToString(gids[i]);
      }
    }
    forall rkeys: seq<nat> | |rkeys| == |gids|
      ensures Reorder([text], Texts(gids), rkeys) == [rkeys[m]]
    {
    }
    var own: seq<nat> := seq(|gids|, i => i);
    assert Reorder([text], Texts(gids), own) == [own[m]];
  }

  // Two NICs with one GID: the endpoint of the second gets the first one's rkey.
  lemma SecondGetsFirstsRkey(gid: seq<Byte>)
    requires |gid| == 16
    ensures Reorder([GidToString(gid)], Texts([gid, gid]), [7, 8]) == [7]
  {
    hide GidToString;
    assert Texts([gid, gid])[0] == GidToString(gid);
  }

  // An endpoint connected to none of the peer's NICs gets rkey 0.
  lemma NoNicNoRkey(endpoints: seq<string>, gids: seq<string>, rkeys: seq<nat>, e: nat)
    requires |rkeys| == |gids| && e < |endpoints| && endpoints[e] !in gids
    ensures Reorder(endpoints, gids, rkeys)[e] == 0
  {
    assert Match(gids, endpoints[e], 0) == |gids|;
  }

  // From query to endpoint: with distinct GIDs, every endpoint connected to NIC k holds,
  // for every buffer, the rkey published for NIC k.
  lemma EndpointGetsItsRkey(p: Published, b: nat, endpoints: seq<string>, e: nat, k: nat)
    requires PublishedOk(p) && b < |p.buffers| && k < |p.gids|
    requires forall i, j :: 0 <= i < j < |p.gids| ==> p.gids[i] != p.gids[j]
    requires e < |endpoints| && endpoints[e] == GidToString(p.gids[k])
    ensures var r := Parse(Response(p));
      && r.Ok? && r.buffers == p.buffers && |r.gids| == |p.gids| == |p.buffers[b].rkeys|
      && Reorder(endpoints, r.gids, r.buffers[b].rkeys)[e] == p.buffers[b].rkeys[k]
  {
    hide Parse, Response, GidToString;
    QueryRoundTrip(p);
    assert EntryOk(p.buffers[b], |p.gids|);
    RkeyOfNicIff(p.gids, k);
    var rkeys := p.buffers[b].rkeys;
    assert Reorder([endpoints[e]], Texts(p.gids), rkeys) == [rkeys[k]];
    assert Reorder(endpoints, Texts(p.gids), rkeys)[e] == Reorder([endpoints[e]], Texts(p.gids), rkeys)[0];
  }

  /* ---------- the two ends as programs ---------- */

  // What has arrived and what was sent on one connection.
  class Socket {
    var incoming: seq<Byte>
    var outgoing: seq<Byte>

    constructor (incoming: seq<Byte>)
      ensures this.incoming == incoming && outgoing == []
    {
      this.incoming, outgoing := incoming, [];
    }

    // Waits for all n bytes; fails when the peer closes before.
    method Recv(n: nat) returns (ok: bool, b: seq<Byte>)
      modifies this`incoming
      ensures ok <==> |old(incoming)| >= n
      ensures ok ==> b == old(incoming)[..n] && incoming == old(incoming)[n..]
      ensures !ok ==> incoming == old(incoming)
    {
      if |incoming| < n {
        return false, [];
      }
      ok, b := true, incoming[..n];
      incoming := incoming[n..];
    }

    method Send(b: seq<Byte>)
      modifies this`outgoing
      ensures outgoing == old(outgoing) + b
    {
      outgoing := outgoing + b;
    }
  }

  lemma {:induction false} RkeyBytesNext(rkeys: seq<nat>, i: nat)
    requires i < |rkeys|
    ensures RkeyBytes(rkeys[..i + 1]) == RkeyBytes(rkeys[..i]) + Put(rkeys[i], 4)
  {
    hide Put;
    if i > 0 {
      RkeyBytesNext(rkeys[1..], i - 1);
      assert rkeys[1..][..i] == rkeys[..i + 1][1..] && rkeys[1..][..i - 1] == rkeys[..i][1..];
    } else {
      assert rkeys[..1][1..] == [] && rkeys[..0] == [];
    }
  }

  lemma {:induction false} GidBytesNext(gids: seq<seq<Byte>>, i: nat)
    requires i < |gids| && forall j :: 0 <= j < |gids| ==> |gids[j]| == 16
    ensures AllGidBytes(gids[..i + 1]) == AllGidBytes(gids[..i]) + GidBytes(gids[i])
  {
    hide GidBytes;
    if i > 0 {
      GidBytesNext(gids[1..], i - 1);
      assert gids[1..][..i] == gids[..i + 1][1..] && gids[1..][..i - 1] == gids[..i][1..];
    } else {
      assert gids[..1][1..] == [] && gids[..0] == [];
    }
  }

  lemma {:induction false} EntryBytesNext(es: seq<Entry>, i: nat)
    requires i < |es| && forall j :: 0 <= j < |es| ==> -0x8000_0000 <= es[j].numa < 0x8000_0000
    ensures AllEntryBytes(es[..i + 1]) == AllEntryBytes(es[..i]) + EntryBytes(es[i])
  {
    hide EntryBytes;
    if i > 0 {
      EntryBytesNext(es[1..], i - 1);
      assert es[1..][..i] == es[..i + 1][1..] && es[1..][..i - 1] == es[..i][1..];
    } else {
      assert es[..1][1..] == [] && es[..0] == [];
    }
  }

  method SendEntry(sock: Socket, e: Entry, nics: nat)
    requires EntryOk(e, nics)
    modifies sock`outgoing
    ensures sock.outgoing == old(sock.outgoing) + EntryBytes(e)
  {
    hide Put, PutSigned, Pow256;
    ghost var was := sock.outgoing;
    sock.Send(Put(e.addr, 8));
    sock.Send(Put(e.length, 8));
    sock.Send(PutSigned(e.numa));
    ghost var head := Put(e.addr, 8) + Put(e.length, 8) + PutSigned(e.numa);
    assert sock.outgoing == was + head;
    assert RkeyBytes(e.rkeys[..0]) == [];
    for i := 0 to nics
      invariant sock.outgoing == was + head + RkeyBytes(e.rkeys[..i])
    {
      RkeyBytesNext(e.rkeys, i);
      sock.Send(Put(e.rkeys[i], 4));
    }
    assert e.rkeys[..nics] == e.rkeys;
  }

  // handleBufferQuery.
  method HandleBufferQuery(sock: Socket, p: Published)
    requires PublishedOk(p)
    modifies sock`outgoing
    ensures sock.outgoing == old(sock.outgoing) + Response(p)
  {
    hide Put, Pow256, EntryBytes, GidBytes, EntryOk, PutText, GidToString;
    EntriesRanges(p);
    ghost var was := sock.outgoing;
    sock.Send(Put(|p.buffers|, 4));
    if |p.buffers| == 0 {
      return;
    }
    sock.Send(Put(|p.gids|, 4));
    ghost var head := Put(|p.buffers|, 4) + Put(|p.gids|, 4);
    assert sock.outgoing == was + head;
    assert AllGidBytes(p.gids[..0]) == [];
    for i := 0 to |p.gids|
      invariant sock.outgoing == was + head + AllGidBytes(p.gids[..i])
    {
      GidBytesNext(p.gids, i);
      GidTextPlain(p.gids[i]);
      GidBytesAre(p.gids[i]);
      sock.Send(PutText(GidToString(p.gids[i]), GID_BUFFER));
    }
    assert p.gids[..|p.gids|] == p.gids;
    ghost var mid := sock.outgoing;
    assert AllEntryBytes(p.buffers[..0]) == [];
    for i := 0 to |p.buffers|
      invariant sock.outgoing == mid + AllEntryBytes(p.buffers[..i])
    {
      EntryBytesNext(p.buffers, i);
      SendEntry(sock, p.buffers[i], |p.gids|);
    }
    assert p.buffers[..|p.buffers|] == p.buffers;
  }

  lemma GidBytesAre(raw: seq<Byte>)
    requires |raw| == 16
    ensures |GidToString(raw)| < GID_BUFFER
    ensures forall i :: 0 <= i < |GidToString(raw)| ==> (GidToString(raw)[i] as int) < 256
    ensures GidBytes(raw) == PutText(GidToString(raw), GID_BUFFER)
  {
    GidTextPlain(raw);
  }

  // A parse with the values read so far put in front.
  ghost function After<T>(got: seq<T>, p: Parsed<seq<T>>): Parsed<seq<T>> {
    if p.End? then End else Got(got + p.value, p.rest)
  }

  method RecvGids(sock: Socket, n: nat) returns (ok: bool, gids: seq<string>)
    modifies sock`incoming
    ensures var p := Gids(old(sock.incoming), n);
      (ok <==> p.Got?) && (ok ==> gids == p.value && sock.incoming == p.rest)
  {
    hide GetText;
    ghost var all := Gids(sock.incoming, n);
    gids := [];
    var i := 0;
    assert all.Got? ==> [] + all.value == all.value;
    while i < n
      invariant i <= n && After(gids, Gids(sock.incoming, n - i)) == all
    {
      ghost var before, was := gids, sock.incoming;
      var got, b := sock.Recv(GID_BUFFER);
      if !got {
        return false, [];
      }
      gids := gids + [GetText(b)];
      GidsStep(before, was, n - i);
      i := i + 1;
    }
    ok := true;
    assert gids + [] == gids;
  }

  lemma GidsStep(got: seq<string>, b: seq<Byte>, n: nat)
    requires n > 0 && |b| >= GID_BUFFER
    ensures After(got, Gids(b, n)) == After(got + [GetText(b[..GID_BUFFER])], Gids(b[GID_BUFFER..], n - 1))
  {
    hide GetText;
    var p := Gids(b[GID_BUFFER..], n - 1);
    var x := GetText(b[..GID_BUFFER]);
    assert p.Got? ==> got + ([x] + p.value) == (got + [x]) + p.value;
  }

  method RecvRkeys(sock: Socket, n: nat) returns (ok: bool, rkeys: seq<nat>)
    modifies sock`incoming
    ensures var p := Rkeys(old(sock.incoming), n);
      (ok <==> p.Got?) && (ok ==> rkeys == p.value && sock.incoming == p.rest)
  {
    hide Get;
    ghost var all := Rkeys(sock.incoming, n);
    rkeys := [];
    var i := 0;
    assert all.Got? ==> [] + all.value == all.value;
    while i < n
      invariant i <= n && After(rkeys, Rkeys(sock.incoming, n - i)) == all
    {
      ghost var before, was := rkeys, sock.incoming;
      var got, b := sock.Recv(4);
      if !got {
        return false, [];
      }
      rkeys := rkeys + [Get(b)];
      RkeysStep(before, was, n - i);
      i := i + 1;
    }
    ok := true;
    assert rkeys + [] == rkeys;
  }

  lemma RkeysStep(got: seq<nat>, b: seq<Byte>, n: nat)
    requires n > 0 && |b| >= 4
    ensures After(got, Rkeys(b, n)) == After(got + [Get(b[..4])], Rkeys(b[4..], n - 1))
  {
    hide Get;
    var p := Rkeys(b[4..], n - 1);
    var x := Get(b[..4]);
    assert p.Got? ==> got + ([x] + p.value) == (got + [x]) + p.value;
  }

  method RecvEntry(sock: Socket, nics: nat) returns (ok: bool, e: Entry)
    modifies sock`incoming
    ensures var p := OneEntry(old(sock.incoming), nics);
      (ok <==> p.Got?) && (ok ==> e == p.value && sock.incoming == p.rest)
  {
    hide Get, GetSigned, Rkeys;
    ghost var b := sock.incoming;
    e := Entry(0, 0, 0, []);
    var got, addr := sock.Recv(8);
    if !got { return false, e; }
    var length, numa;
    got, length := sock.Recv(8);
    if !got { return false, e; }
    assert length == b[8..16];
    got, numa := sock.Recv(4);
    if !got { return false, e; }
    assert numa == b[16..20] && sock.incoming == b[20..];
    var rkeys;
    got, rkeys := RecvRkeys(sock, nics);
    if !got { return false, e; }
    ok, e := true, Entry(Get(addr), Get(length), GetSigned(numa), rkeys);
  }

  // The part of queryRemoteBuffer that reads the server's answer.
  method QueryRemoteBuffer(sock: Socket) returns (r: Result)
    modifies sock`incoming
    ensures r == Parse(old(sock.incoming))
  {
    hide Get, Gids, OneEntry;
    ghost var b := sock.incoming;
    var got, count := sock.Recv(4);
    if !got { return Err(ConnectionError); }
    if Get(count) == 0 { return Err(InvalidArgument); }
    var nics, gids;
    got, nics := sock.Recv(4);
    if !got { return Err(ConnectionError); }
    assert nics == b[4..8] && sock.incoming == b[8..];
    got, gids := RecvGids(sock, Get(nics));
    if !got { return Err(ConnectionError); }
    var n := Get(count);
    ghost var all := Entries(sock.incoming, n, Get(nics));
    var entries: seq<Entry> := [];
    var i := 0;
    assert all.Got? ==> [] + all.value == all.value;
    while i < n
      invariant i <= n && After(entries, Entries(sock.incoming, n - i, Get(nics))) == all
    {
      ghost var before, was := entries, sock.incoming;
      var ok, e := RecvEntry(sock, Get(nics));
      if !ok { return Err(ConnectionError); }
      EntriesStep(before, was, n - i, Get(nics));
      entries := entries + [e];
      i := i + 1;
    }
    assert entries + [] == entries;
    r := Ok(gids, entries);
  }

  lemma EntriesStep(got: seq<Entry>, b: seq<Byte>, n: nat, nics: nat)
    requires n > 0 && OneEntry(b, nics).Got?
    ensures After(got, Entries(b, n, nics))
      == After(got + [OneEntry(b, nics).value], Entries(OneEntry(b, nics).rest, n - 1, nics))
  {
    hide OneEntry;
    var e := OneEntry(b, nics).value;
    var p := Entries(OneEntry(b, nics).rest, n - 1, nics);
    assert p.Got? ==> got + ([e] + p.value) == (got + [e]) + p.value;
  }
}

/** The work request ids of the data plane: what a completion carries is enough to credit it,
    because the fields that the worker decodes are those it encoded. */
module PxnRouting {
  import opened Chunks
  import opened Layout
  import opened ProxyBuffer
  import opened FlowControl
  import opened PxnModel
  import opened PxnInvariant
  import opened PxnBooks
  import opened PxnSafety
  import opened WrIds

  // Transfer x of the model has handle x + 1: handle 0 is the invalid one.
  function HandleOf(x: nat): nat {
    x + 1
  }

  function IdOf(w: Wr): nat {
    Encode(w.nic, w.qp, HandleOf(w.id.x), w.id.i)
  }

  // As many transfers as there are handles, as many NICs and queue pairs as the fields have
  // room for.
  ghost predicate IdsFit(c: Config) {
    |c.reqs| <= 65535 && c.nics <= 0x100 && c.qps <= 0x100
  }

  lemma WrInRange(c: Config, s: State, w: Wr)
    requires StagesOk(c, s.stage) && WrsOk(s.posted, Back(s), s.stage) && w in s.posted + s.executed
    ensures w.nic < c.nics && w.qp < c.qps && ValidCid(c, w.id) && w.id in s.stage && s.stage[w.id].Posted?
      && s.stage[w.id].wr == w
  {
    assert StageOk(c, w.id, s.stage[w.id]);
  }

  // Polling a work request, the worker decodes its own NIC, queue pair and transfer: the
  // step Poll reads nothing else of it.
  lemma PollDecodes(c: Config, m0: Memory, s: State, w: Wr)
    requires ConfigOk(c) && Reachable(c, m0, s) && IdsFit(c) && w in s.posted + s.executed
    ensures DecodeNic(IdOf(w)) == w.nic && DecodeQp(IdOf(w)) == w.qp
    ensures DecodeHandle(IdOf(w)) == HandleOf(w.id.x) && w.id.x < |c.reqs|
  {
    hide Inv, ConfigOk, Reachable, StagesOk, WrsOk, Encode, DecodeNic, DecodeQp, DecodeHandle, DecodeChunk;
    ReachableInv(c, m0, s);
    WrsOf(c, s);
    WrInRange(c, s, w);
    DecodeEncode(w.nic, w.qp, HandleOf(w.id.x), w.id.i);
  }

  lemma WrsOf(c: Config, s: State)
    requires Inv(c, s)
    ensures StagesOk(c, s.stage) && WrsOk(s.posted, Back(s), s.stage)
  {
    hide Core, Books, StagesOk, WrsOk;
    CoreParts(c, s);
  }

  // As long as no transfer has more chunks than the chunk field can number, outstanding
  // work requests have distinct ids.
  lemma IdsDistinct(c: Config, m0: Memory, s: State, v: Wr, w: Wr)
    requires ConfigOk(c) && Reachable(c, m0, s) && IdsFit(c)
    requires forall x :: 0 <= x < |c.reqs| ==> Total(c.reqs[x]) <= HANDLE_SHIFT
    requires v in s.posted + s.executed && w in s.posted + s.executed && IdOf(v) == IdOf(w)
    ensures v == w
  {
    hide Inv, ConfigOk, Reachable, StagesOk, WrsOk, Encode, DecodeNic, DecodeQp, DecodeHandle, DecodeChunk, Total;
    ReachableInv(c, m0, s);
    WrsOf(c, s);
    WrInRange(c, s, v);
    WrInRange(c, s, w);
    RoundTripIff(v.nic, v.qp, HandleOf(v.id.x), v.id.i);
    RoundTripIff(w.nic, w.qp, HandleOf(w.id.x), w.id.i);
  }
}

/** What the copies and the work requests do to memory. */
module PxnData {
  import opened Chunks
  import opened Layout
  import opened ProxyBuffer
  import opened PxnModel
  import opened PxnInvariant

  /* ---------- which bytes a copy leaves alone ---------- */

  lemma CopiedElsewhere(m: Memory, src: Loc, dst: Loc, len: nat, l: Loc, n: nat, o: nat)
    requires RangesApart(dst, len, l, n) && o < n
    ensures Copied(m, src, dst, len)(l.Plus(o)) == m(l.Plus(o))
  {
  }

  lemma OtherSpaceApart(a: Loc, n: nat, b: Loc, m: nat)
    requires !a.SameSpace(b)
    ensures RangesApart(a, n, b, m)
  {
  }

  lemma BlocksRangesApart(a: Blk, b: Blk)
    requires a.Apart(b)
    ensures RangesApart(Proxy(a.gpu, a.off), a.len, Proxy(b.gpu, b.off), b.len)
  {
  }

  lemma CarriesKept(c: Config, m0: Memory, m: Memory, id: Cid, l: Loc, src: Loc, dst: Loc, len: nat)
    requires ValidCid(c, id) && Carries(c, m0, m, id, l) && RangesApart(dst, len, l, Len(c, id))
    ensures Carries(c, m0, Copied(m, src, dst, len), id, l)
  {
    forall o: nat | o < Len(c, id)
      ensures Copied(m, src, dst, len)(l.Plus(o)) == m0(Src(c, id).Plus(o))
    {
      CopiedElsewhere(m, src, dst, len, l, Len(c, id), o);
    }
  }

  lemma CarriesMade(c: Config, m0: Memory, m: Memory, id: Cid, src: Loc, dst: Loc)
    requires ValidCid(c, id) && Carries(c, m0, m, id, src)
    ensures Carries(c, m0, Copied(m, src, dst, Len(c, id)), id, dst)
  {
    forall o: nat | o < Len(c, id)
      ensures Copied(m, src, dst, Len(c, id))(dst.Plus(o)) == m0(Src(c, id).Plus(o))
    {
      CopiedAt(m, src, dst, Len(c, id), o);
    }
  }

  // No source and no destination of a chunk lies in a proxy buffer.
  lemma EndsNotProxy(c: Config, id: Cid)
    requires ValidCid(c, id)
    ensures !Src(c, id).Proxy? && !Dst(c, id).Proxy?
  {
  }

  /* ---------- steps that move no data ---------- */

  lemma CopiesLoadedSame(c: Config, base: seq<Memory>, m: Memory,
                         stage: map<Cid, Stage>, copies: map<nat, Copy>, jobs: map<nat, Job>,
                         stage': map<Cid, Stage>, copies': map<nat, Copy>, jobs': map<nat, Job>)
    requires CopiesLoaded(c, base, m, stage, copies, jobs)
    requires forall id :: LoadedCopy(stage', copies', jobs', id) ==>
      LoadedCopy(stage, copies, jobs, id) && copies'[id].cid == copies[id].cid
    requires forall id :: LoadedCopy(stage', copies', jobs', id) && copies'[id].cid in stage ==>
      copies'[id].cid in stage' && stage'[copies'[id].cid] == stage[copies'[id].cid]
    ensures CopiesLoaded(c, base, m, stage', copies', jobs')
  {
  }

  lemma PostedLoadedSame(c: Config, base: seq<Memory>, m: Memory, stage: map<Cid, Stage>, id: Cid, st: Stage)
    requires PostedLoaded(c, base, m, stage)
    requires st.Posted? && st.held.Some? ==> ValidCid(c, id) && BlockLoaded(c, base, m, id, st.held.value)
    ensures PostedLoaded(c, base, m, stage[id := st])
  {
  }

  ghost predicate NoneStarts(xs: seq<Xfer>, xs': seq<Xfer>) {
    forall x: nat :: Live(xs', x) ==> Live(xs, x)
  }

  lemma DeliveredSame(c: Config, base: seq<Memory>, m: Memory, xs: seq<Xfer>, stage: map<Cid, Stage>, executed: set<Wr>,
                      xs': seq<Xfer>, stage': map<Cid, Stage>, executed': set<Wr>)
    requires DeliveredOk(c, base, m, xs, stage, executed) && NoneStarts(xs, xs')
    requires forall id :: Arrived(stage', executed', id) ==> Arrived(stage, executed, id)
    ensures DeliveredOk(c, base, m, xs', stage', executed')
  {
  }

  // Nobody writes who could not before.
  ghost predicate NoneBusier(xs: seq<Xfer>, posted: set<Wr>, xs': seq<Xfer>, posted': set<Wr>) {
    NoneStarts(xs, xs') && forall y: nat :: Busy(xs', posted', y) ==> Busy(xs, posted, y)
  }

  lemma SourcesSame(c: Config, base: seq<Memory>, m: Memory, xs: seq<Xfer>, posted: set<Wr>,
                    xs': seq<Xfer>, posted': set<Wr>)
    requires SourcesKept(c, base, m, xs) && LiveApart(c, xs, posted) && NoneBusier(xs, posted, xs', posted')
    ensures SourcesKept(c, base, m, xs') && LiveApart(c, xs', posted')
  {
    hide CidsApart, Busy;
  }

  /* ---------- a transfer is started ---------- */

  ghost predicate NoStage(stage: map<Cid, Stage>, x: nat) {
    forall id: Cid :: id in stage ==> id.x != x
  }

  // What memory holds now is what the new transfer's chunks will be compared with; no other
  // transfer's record changes.
  lemma StartSources(c: Config, base: seq<Memory>, m: Memory, xs: seq<Xfer>, xs': seq<Xfer>, x: nat)
    requires SourcesKept(c, base, m, xs) && x < |base|
    requires forall y: nat :: y != x && Live(xs', y) ==> Live(xs, y)
    ensures SourcesKept(c, base[x := m], m, xs')
  {
  }

  lemma StartCopies(c: Config, base: seq<Memory>, m: Memory, stage: map<Cid, Stage>, copies: map<nat, Copy>,
                    jobs: map<nat, Job>, x: nat)
    requires CopiesLoaded(c, base, m, stage, copies, jobs) && PostedLoaded(c, base, m, stage) && NoStage(stage, x)
    ensures x < |base| ==> CopiesLoaded(c, base[x := m], m, stage, copies, jobs)
    ensures x < |base| ==> PostedLoaded(c, base[x := m], m, stage)
  {
  }

  lemma StartDelivered(c: Config, base: seq<Memory>, m: Memory, xs: seq<Xfer>, xs': seq<Xfer>,
                       stage: map<Cid, Stage>, executed: set<Wr>, x: nat)
    requires DeliveredOk(c, base, m, xs, stage, executed) && NoStage(stage, x) && x < |base|
    requires forall y: nat :: y != x && Live(xs', y) ==> Live(xs, y)
    ensures DeliveredOk(c, base[x := m], m, xs', stage, executed)
  {
  }

  /* ---------- somebody writes a byte ---------- */

  lemma CarriesWritten(c: Config, m0: Memory, m: Memory, id: Cid, l: Loc, at: Loc, value: Byte)
    requires ValidCid(c, id) && Carries(c, m0, m, id, l) && !l.Range(Len(c, id), at)
    ensures Carries(c, m0, Written(m, at, value), id, l)
  {
    forall o: nat | o < Len(c, id)
      ensures Written(m, at, value)(l.Plus(o)) == m0(Src(c, id).Plus(o))
    {
      assert l.Range(Len(c, id), l.Plus(o));
    }
  }

  // The byte is in no chunk of a running transfer, on neither side.
  ghost predicate Outside(c: Config, xs: seq<Xfer>, at: Loc) {
    forall id: Cid :: ValidCid(c, id) && Live(xs, id.x) ==>
      !Src(c, id).Range(Len(c, id), at) && !Dst(c, id).Range(Len(c, id), at)
  }

  lemma WriteData(c: Config, s: State, at: Loc, value: Byte)
    requires DataInv(c, s) && !at.Proxy? && Outside(c, s.xs, at)
    ensures DataInv(c, s.(mem := Written(s.mem, at, value)))
  {
    hide Carries, Written;
    var m' := Written(s.mem, at, value);
    forall id: Cid | ValidCid(c, id) && Live(s.xs, id.x)
      ensures Carries(c, BaseOf(s.base, id.x), m', id, Src(c, id))
    {
      CarriesWritten(c, BaseOf(s.base, id.x), s.mem, id, Src(c, id), at, value);
    }
    forall id | Arrived(s.stage, s.executed, id) && Live(s.xs, id.x)
      ensures ValidCid(c, id) && Carries(c, BaseOf(s.base, id.x), m', id, Dst(c, id))
    {
      CarriesWritten(c, BaseOf(s.base, id.x), s.mem, id, Dst(c, id), at, value);
    }
    WriteBlocks(c, s, at, value);
  }

  lemma WriteBlocks(c: Config, s: State, at: Loc, value: Byte)
    requires CopiesLoaded(c, s.base, s.mem, s.stage, s.copies, s.jobs) && PostedLoaded(c, s.base, s.mem, s.stage)
      && !at.Proxy?
    ensures CopiesLoaded(c, s.base, Written(s.mem, at, value), s.stage, s.copies, s.jobs)
    ensures PostedLoaded(c, s.base, Written(s.mem, at, value), s.stage)
  {
    hide Carries, Written;
    forall id | LoadedCopy(s.stage, s.copies, s.jobs, id)
      ensures BlockLoaded(c, s.base, Written(s.mem, at, value), s.copies[id].cid, s.stage[s.copies[id].cid].blk)
    {
      var cid := s.copies[id].cid;
      var b := s.stage[cid].blk;
      CarriesWritten(c, BaseOf(s.base, cid.x), s.mem, cid, Proxy(b.gpu, b.off), at, value);
    }
    forall id | id in s.stage && s.stage[id].Posted? && s.stage[id].held.Some?
      ensures BlockLoaded(c, s.base, Written(s.mem, at, value), id, s.stage[id].held.value)
    {
      var b := s.stage[id].held.value;
      CarriesWritten(c, BaseOf(s.base, id.x), s.mem, id, Proxy(b.gpu, b.off), at, value);
    }
  }

  /* ---------- the copy of a request lands ---------- */

  lemma LandSources(c: Config, base: seq<Memory>, m: Memory, xs: seq<Xfer>, src: Loc, dst: Loc, len: nat)
    requires SourcesKept(c, base, m, xs) && dst.Proxy?
    ensures SourcesKept(c, base, Copied(m, src, dst, len), xs)
  {
    forall id: Cid | ValidCid(c, id) && Live(xs, id.x)
      ensures Carries(c, BaseOf(base, id.x), Copied(m, src, dst, len), id, Src(c, id))
    {
      EndsNotProxy(c, id);
      OtherSpaceApart(dst, len, Src(c, id), Len(c, id));
      CarriesKept(c, BaseOf(base, id.x), m, id, Src(c, id), src, dst, len);
    }
  }

  lemma LandDelivered(c: Config, base: seq<Memory>, m: Memory, xs: seq<Xfer>, stage: map<Cid, Stage>, executed: set<Wr>,
                      src: Loc, dst: Loc, len: nat)
    requires DeliveredOk(c, base, m, xs, stage, executed) && dst.Proxy?
    ensures DeliveredOk(c, base, Copied(m, src, dst, len), xs, stage, executed)
  {
    forall id | Arrived(stage, executed, id) && Live(xs, id.x)
      ensures Carries(c, BaseOf(base, id.x), Copied(m, src, dst, len), id, Dst(c, id))
    {
      EndsNotProxy(c, id);
      OtherSpaceApart(dst, len, Dst(c, id), Len(c, id));
      CarriesKept(c, BaseOf(base, id.x), m, id, Dst(c, id), src, dst, len);
    }
  }

  // What the landing copy writes is the block of its own chunk and of no other.
  lemma LandApart(c: Config, bufs: seq<Offsets>, stage: map<Cid, Stage>, cid: Cid, other: Cid)
    requires BlocksOk(c, bufs, stage) && Holds(stage, cid) && Holds(stage, other) && cid != other
    ensures var a, b := Held(stage[cid]).value, Held(stage[other]).value;
      RangesApart(Proxy(a.gpu, a.off), a.len, Proxy(b.gpu, b.off), b.len)
  {
    BlocksRangesApart(Held(stage[cid]).value, Held(stage[other]).value);
  }

  lemma LandOther(c: Config, base: seq<Memory>, m: Memory, bufs: seq<Offsets>, stage: map<Cid, Stage>,
                  req: CopyRequest, cid: Cid, other: Cid)
    requires BlocksOk(c, bufs, stage) && RequestFields(c, req, cid, stage) && StageOk(c, cid, stage[cid])
    requires other != cid && other in stage && stage[other].Copying? && StageOk(c, other, stage[other])
    requires BlockLoaded(c, base, m, other, stage[other].blk)
    ensures BlockLoaded(c, base, Copied(m, req.src, req.dst, req.len), other, stage[other].blk)
  {
    var b := stage[other].blk;
    assert Holds(stage, cid) && Holds(stage, other);
    LandApart(c, bufs, stage, cid, other);
    CarriesKept(c, BaseOf(base, other.x), m, other, Proxy(b.gpu, b.off), req.src, req.dst, req.len);
  }

  lemma LandSelf(c: Config, base: seq<Memory>, m: Memory, xs: seq<Xfer>, stage: map<Cid, Stage>, req: CopyRequest,
                 cid: Cid)
    requires SourcesKept(c, base, m, xs) && RequestFields(c, req, cid, stage) && Live(xs, cid.x)
    ensures BlockLoaded(c, base, Copied(m, req.src, req.dst, req.len), cid, stage[cid].blk)
  {
    CarriesMade(c, BaseOf(base, cid.x), m, cid, req.src, req.dst);
  }

  ghost predicate CopyStages(stage: map<Cid, Stage>, copies: map<nat, Copy>) {
    forall i :: i in copies && !Orphan(stage, copies, i) ==>
      copies[i].cid in stage && stage[copies[i].cid].Copying? && stage[copies[i].cid].id == i
  }

  lemma LandCopies(c: Config, base: seq<Memory>, m: Memory, xs: seq<Xfer>, bufs: seq<Offsets>,
                   stage: map<Cid, Stage>, copies: map<nat, Copy>, jobs: map<nat, Job>, id: nat, req: CopyRequest,
                   jobs': map<nat, Job>)
    requires SourcesKept(c, base, m, xs) && CopiesLoaded(c, base, m, stage, copies, jobs)
    requires BlocksOk(c, bufs, stage) && StagesOk(c, stage) && CopyStages(stage, copies)
    requires id in copies && RequestFields(c, req, copies[id].cid, stage) && Live(xs, copies[id].cid.x)
    requires forall i :: LandedCopy(copies, jobs', i) ==> i == id || LandedCopy(copies, jobs, i)
    ensures CopiesLoaded(c, base, Copied(m, req.src, req.dst, req.len), stage, copies, jobs')
  {
    hide BlocksOk, BlockLoaded, SourcesKept, Copied;
    var m' := Copied(m, req.src, req.dst, req.len);
    LandSelf(c, base, m, xs, stage, req, copies[id].cid);
    forall i | LoadedCopy(stage, copies, jobs', i)
      ensures i in copies && ValidCid(c, copies[i].cid)
        && BlockLoaded(c, base, m', copies[i].cid, stage[copies[i].cid].blk)
    {
      if i != id {
        assert LoadedCopy(stage, copies, jobs, i);
        LandOther(c, base, m, bufs, stage, req, copies[id].cid, copies[i].cid);
      }
    }
  }

  lemma LandPosted(c: Config, base: seq<Memory>, m: Memory, bufs: seq<Offsets>, stage: map<Cid, Stage>,
                   req: CopyRequest, cid: Cid)
    requires PostedLoaded(c, base, m, stage) && BlocksOk(c, bufs, stage) && StagesOk(c, stage)
    requires RequestFields(c, req, cid, stage)
    ensures PostedLoaded(c, base, Copied(m, req.src, req.dst, req.len), stage)
  {
    forall id | id in stage && stage[id].Posted? && stage[id].held.Some?
      ensures ValidCid(c, id) && BlockLoaded(c, base, Copied(m, req.src, req.dst, req.len), id, stage[id].held.value)
    {
      var b := stage[id].held.value;
      assert StageOk(c, id, stage[id]) && StageOk(c, cid, stage[cid]);
      assert Holds(stage, cid) && Holds(stage, id);
      LandApart(c, bufs, stage, cid, id);
      CarriesKept(c, BaseOf(base, id.x), m, id, Proxy(b.gpu, b.off), req.src, req.dst, req.len);
    }
  }

  /* ---------- a NIC executes a work request ---------- */

  lemma ExecuteSources(c: Config, base: seq<Memory>, m: Memory, xs: seq<Xfer>, posted: set<Wr>, w: Wr)
    requires LiveApart(c, xs, posted) && SourcesKept(c, base, m, xs) && Busy(xs, posted, w.id.x)
    requires ValidCid(c, w.id) && w.dst == Dst(c, w.id) && w.len == Len(c, w.id)
    ensures SourcesKept(c, base, Copied(m, w.src, w.dst, w.len), xs)
  {
    forall id: Cid | ValidCid(c, id) && Live(xs, id.x)
      ensures Carries(c, BaseOf(base, id.x), Copied(m, w.src, w.dst, w.len), id, Src(c, id))
    {
      assert CidsApart(c, w.id, id);
      CarriesKept(c, BaseOf(base, id.x), m, id, Src(c, id), w.src, w.dst, w.len);
    }
  }

  lemma ExecuteCopies(c: Config, base: seq<Memory>, m: Memory, stage: map<Cid, Stage>, copies: map<nat, Copy>,
                      jobs: map<nat, Job>, w: Wr)
    requires CopiesLoaded(c, base, m, stage, copies, jobs) && !w.dst.Proxy?
    ensures CopiesLoaded(c, base, Copied(m, w.src, w.dst, w.len), stage, copies, jobs)
  {
    forall id | LoadedCopy(stage, copies, jobs, id)
      ensures BlockLoaded(c, base, Copied(m, w.src, w.dst, w.len), copies[id].cid, stage[copies[id].cid].blk)
    {
      var cid := copies[id].cid;
      var b := stage[cid].blk;
      OtherSpaceApart(w.dst, w.len, Proxy(b.gpu, b.off), Len(c, cid));
      CarriesKept(c, BaseOf(base, cid.x), m, cid, Proxy(b.gpu, b.off), w.src, w.dst, w.len);
    }
  }

  lemma ExecutePosted(c: Config, base: seq<Memory>, m: Memory, stage: map<Cid, Stage>, w: Wr)
    requires PostedLoaded(c, base, m, stage) && !w.dst.Proxy?
    ensures PostedLoaded(c, base, Copied(m, w.src, w.dst, w.len), stage)
  {
    forall id | id in stage && stage[id].Posted? && stage[id].held.Some?
      ensures ValidCid(c, id) && BlockLoaded(c, base, Copied(m, w.src, w.dst, w.len), id, stage[id].held.value)
    {
      var b := stage[id].held.value;
      OtherSpaceApart(w.dst, w.len, Proxy(b.gpu, b.off), Len(c, id));
      CarriesKept(c, BaseOf(base, id.x), m, id, Proxy(b.gpu, b.off), w.src, w.dst, w.len);
    }
  }

  lemma ExecuteDelivered(c: Config, base: seq<Memory>, m: Memory, xs: seq<Xfer>, posted: set<Wr>,
                         stage: map<Cid, Stage>, executed: set<Wr>, w: Wr)
    requires LiveApart(c, xs, posted) && SourcesKept(c, base, m, xs) && Busy(xs, posted, w.id.x)
    requires PostedLoaded(c, base, m, stage)
    requires DeliveredOk(c, base, m, xs, stage, executed)
    requires w.id in stage && stage[w.id].Posted? && stage[w.id].wr == w && StageOk(c, w.id, stage[w.id])
    requires forall id :: id in stage && stage[id].Posted? ==> stage[id].wr.id == id
    ensures DeliveredOk(c, base, Copied(m, w.src, w.dst, w.len), xs, stage, executed + {w})
  {
    forall id | Arrived(stage, executed + {w}, id) && Live(xs, id.x)
      ensures ValidCid(c, id) && Carries(c, BaseOf(base, id.x), Copied(m, w.src, w.dst, w.len), id, Dst(c, id))
    {
      if id == w.id {
        CarriesMade(c, BaseOf(base, w.id.x), m, w.id, w.src, w.dst);
      } else {
        assert Arrived(stage, executed, id);
        assert CidsApart(c, w.id, id);
        CarriesKept(c, BaseOf(base, id.x), m, id, Dst(c, id), w.src, w.dst, w.len);
      }
    }
  }
}

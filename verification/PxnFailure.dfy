/** The worker lets go of a failed transfer: what its cleanup does to the lists, the flags and
    the proxy buffers, and when it keeps the invariant. */
module PxnFailure {
  import opened Chunks
  import opened Layout
  import opened ProxyBuffer
  import opened FlowControl
  import opened PxnModel
  import opened PxnInvariant
  import opened PxnQueues
  import opened PxnFlags
  import opened PxnCounts
  import opened PxnSteps

  /* ---------- the pipelines ---------- */

  lemma {:induction false} AbandonPipes(c: Config, s: State, x: nat, n: nat)
    requires ConfigOk(c) && Sized(c, s) && n <= |c.pipes|
    ensures var r := Abandon(c, s, x, n);
      forall k :: 0 <= k < |s.pipes| ==> r.pipes[k] == if k < n && c.pipes[k].xfer == x then NO_CHUNKS else s.pipes[k]
  {
    hide ConfigOk, GiveAll, FreeAll;
    if n > 0 {
      AbandonPipes(c, s, x, n - 1);
    }
  }

  /* ---------- the flags ---------- */

  // The chunks of cs whose result has come.
  ghost predicate Given(cs: seq<CopyingChunk>, id: nat) {
    exists j :: 0 <= j < |cs| && cs[j].received && cs[j].id == id
  }

  lemma GivenAt(cs: seq<CopyingChunk>, j: nat)
    requires j < |cs|
    ensures cs[j].received ==> Given(cs, cs[j].id)
  {
  }

  lemma GivenNext(cs: seq<CopyingChunk>, id: nat)
    requires cs != []
    ensures Given(cs, id) <==> (cs[0].received && cs[0].id == id) || Given(cs[1..], id)
  {
    if j :| 0 <= j < |cs| && cs[j].received && cs[j].id == id {
      assert j > 0 ==> cs[1..][j - 1].id == id && cs[1..][j - 1].received;
    }
    if j :| 0 <= j < |cs[1..]| && cs[1..][j].received && cs[1..][j].id == id {
      assert cs[j + 1].id == id && cs[j + 1].received;
    }
  }

  // The given copies leave, the others stay.
  ghost predicate Left(copies: map<nat, Copy>, cs: seq<CopyingChunk>, copies': map<nat, Copy>) {
    forall id :: (id in copies' <==> id in copies && !Given(cs, id)) && (id in copies' ==> copies'[id] == copies[id])
  }

  lemma {:induction false} GiveAllCopies(s: State, cs: seq<CopyingChunk>)
    ensures Left(s.copies, cs, GiveAll(s, cs).copies)
    decreases |cs|
  {
    if cs != [] {
      var s1 := if cs[0].received then GiveIf(s.(copies := s.copies - {cs[0].id}), cs[0].flag) else s;
      GiveAllCopies(s1, cs[1..]);
      forall id
        ensures Given(cs, id) <==> (cs[0].received && cs[0].id == id) || Given(cs[1..], id)
      {
        GivenNext(cs, id);
      }
    }
  }

  // What is known of a chunk whose copy's callback has run.
  ghost predicate Settled(copies: map<nat, Copy>, jobs: map<nat, Job>, cc: CopyingChunk) {
    && cc.id in copies && LaunchedAt(copies[cc.id].at) && cc.id !in jobs
    && (cc.received ==> copies[cc.id].flag == cc.flag)
  }

  lemma GiveOneFlag(s: State, cc: CopyingChunk)
    requires FlagsOk(s.copies, s.jobs, s.flags, s.pool, s.recycleQ) && Settled(s.copies, s.jobs, cc) && cc.received
    ensures var s' := GiveIf(s.(copies := s.copies - {cc.id}), cc.flag);
      FlagsOk(s'.copies, s'.jobs, s'.flags, s'.pool, s'.recycleQ)
  {
    hide FlagsOk;
    if cc.flag.Some? {
      FlagsPost(s.copies, s.jobs, s.flags, s.pool, s.recycleQ, cc.id);
    } else {
      FlagsSame(s.copies, s.jobs, s.flags, s.pool, s.recycleQ, s.copies - {cc.id});
    }
  }

  lemma {:induction false} GiveAllFlags(s: State, cs: seq<CopyingChunk>)
    requires FlagsOk(s.copies, s.jobs, s.flags, s.pool, s.recycleQ)
    requires forall j :: 0 <= j < |cs| ==> Settled(s.copies, s.jobs, cs[j])
    requires forall i, j :: 0 <= i < j < |cs| ==> cs[i].id < cs[j].id
    ensures var s' := GiveAll(s, cs); FlagsOk(s'.copies, s'.jobs, s'.flags, s'.pool, s'.recycleQ)
    decreases |cs|
  {
    hide FlagsOk;
    if cs != [] {
      if cs[0].received {
        GiveOneFlag(s, cs[0]);
      }
      var s1 := if cs[0].received then GiveIf(s.(copies := s.copies - {cs[0].id}), cs[0].flag) else s;
      forall j | 0 <= j < |cs[1..]|
        ensures Settled(s1.copies, s1.jobs, cs[1..][j])
      {
        assert Settled(s.copies, s.jobs, cs[j + 1]);
      }
      GiveAllFlags(s1, cs[1..]);
    }
  }

  // A chunk of the first n pipelines, those of transfer x, whose result has come.
  ghost predicate GivenUpTo(c: Config, s: State, x: nat, n: nat, id: nat) {
    exists k :: 0 <= k < n && k < |s.pipes| && k < |c.pipes| && c.pipes[k].xfer == x && Given(s.pipes[k].copying, id)
  }

  lemma GivenUpToNext(c: Config, s: State, x: nat, n: nat, id: nat)
    requires 0 < n <= |s.pipes| == |c.pipes|
    ensures GivenUpTo(c, s, x, n, id)
      <==> GivenUpTo(c, s, x, n - 1, id) || (c.pipes[n - 1].xfer == x && Given(s.pipes[n - 1].copying, id))
  {
  }

  lemma {:induction false} AbandonCopies(c: Config, s: State, x: nat, n: nat)
    requires ConfigOk(c) && Sized(c, s) && n <= |c.pipes|
    ensures var r := Abandon(c, s, x, n);
      forall id :: (id in r.copies <==> id in s.copies && !GivenUpTo(c, s, x, n, id))
        && (id in r.copies ==> r.copies[id] == s.copies[id])
  {
    hide ConfigOk, FreeAll, Given, GivenUpTo, GiveAll;
    if n == 0 {
      NoneBelow(c, s, x);
    } else {
      AbandonCopies(c, s, x, n - 1);
      AbandonPipes(c, s, x, n - 1);
      AbandonNext(c, s, x, n);
      forall id
        ensures GivenUpTo(c, s, x, n, id)
          <==> GivenUpTo(c, s, x, n - 1, id) || (c.pipes[n - 1].xfer == x && Given(s.pipes[n - 1].copying, id))
      {
        GivenUpToNext(c, s, x, n, id);
      }
    }
  }

  lemma NoneBelow(c: Config, s: State, x: nat)
    ensures forall id :: !GivenUpTo(c, s, x, 0, id)
  {
  }

  // One more pipeline.
  lemma AbandonNext(c: Config, s: State, x: nat, n: nat)
    requires ConfigOk(c) && Sized(c, s) && 0 < n <= |c.pipes|
    ensures var r, r' := Abandon(c, s, x, n - 1), Abandon(c, s, x, n);
      if c.pipes[n - 1].xfer != x then r' == r
      else
        && Left(r.copies, r.pipes[n - 1].copying, r'.copies)
        && exists bufs, pipes :: r' == GiveAll(r.(bufs := bufs, pipes := pipes), r.pipes[n - 1].copying)
  {
    hide GiveAll, FreeAll, Left;
    if c.pipes[n - 1].xfer == x {
      var r := Abandon(c, s, x, n - 1);
      assert PipeOk(c, c.pipes[n - 1]);
      var p, g := r.pipes[n - 1], c.pipes[n - 1].gpu;
      GiveAllCopies(r.(bufs := r.bufs[g := FreeAll(FreeAll(r.bufs[g], CopyingLens(p.copying)), p.inflight)],
                       pipes := r.pipes[n - 1 := NO_CHUNKS]),
                    p.copying);
    }
  }

  // Every copy listed for transfer x has had its callback.
  ghost predicate AllSettled(c: Config, s: State, x: nat) {
    forall k, j :: 0 <= k < |s.pipes| && k < |c.pipes| && c.pipes[k].xfer == x && 0 <= j < |s.pipes[k].copying| ==>
      Settled(s.copies, s.jobs, s.pipes[k].copying[j])
  }

  lemma SettledAll(c: Config, s: State, x: nat)
    requires CopyingOk(c, s.pipes, s.stage, s.copies, s.nextId) && CalledBack(c, s, x)
    ensures AllSettled(c, s, x)
  {
    forall k, j | 0 <= k < |s.pipes| && k < |c.pipes| && c.pipes[k].xfer == x && 0 <= j < |s.pipes[k].copying|
      ensures Settled(s.copies, s.jobs, s.pipes[k].copying[j])
    {
      assert EntryOk(c, k, s.pipes[k].copying[j], s.stage, s.copies);
      assert Launched(s, s.pipes[k].copying[j].id);
    }
  }

  // Chunks of different pipelines have different copies.
  lemma ApartIds(c: Config, s: State, k: nat, l: nat, id: nat)
    requires CopyingOk(c, s.pipes, s.stage, s.copies, s.nextId) && k < |s.pipes| && l < |s.pipes| && k != l
    requires Given(s.pipes[l].copying, id)
    ensures forall j :: 0 <= j < |s.pipes[k].copying| ==> s.pipes[k].copying[j].id != id
  {
    var i :| 0 <= i < |s.pipes[l].copying| && s.pipes[l].copying[i].id == id;
    assert EntryOk(c, l, s.pipes[l].copying[i], s.stage, s.copies);
    forall j | 0 <= j < |s.pipes[k].copying|
      ensures s.pipes[k].copying[j].id != id
    {
      assert EntryOk(c, k, s.pipes[k].copying[j], s.stage, s.copies);
    }
  }

  lemma NotGivenUpTo(c: Config, s: State, x: nat, n: nat, k: nat, j: nat)
    requires CopyingOk(c, s.pipes, s.stage, s.copies, s.nextId)
    requires n <= k < |s.pipes| && j < |s.pipes[k].copying|
    ensures !GivenUpTo(c, s, x, n, s.pipes[k].copying[j].id)
  {
    hide CopyingOk, Given;
    var id := s.pipes[k].copying[j].id;
    if l :| 0 <= l < n && l < |s.pipes| && l < |c.pipes| && c.pipes[l].xfer == x && Given(s.pipes[l].copying, id) {
      ApartIds(c, s, k, l, id);
    }
  }

  lemma CopyingSorted(c: Config, s: State, k: nat)
    requires CopyingOk(c, s.pipes, s.stage, s.copies, s.nextId) && k < |s.pipes|
    ensures forall i, j :: 0 <= i < j < |s.pipes[k].copying| ==> s.pipes[k].copying[i].id < s.pipes[k].copying[j].id
  {
  }

  lemma {:induction false} AbandonFlags(c: Config, s: State, x: nat, n: nat)
    requires ConfigOk(c) && Sized(c, s) && n <= |c.pipes|
    requires CopyingOk(c, s.pipes, s.stage, s.copies, s.nextId) && AllSettled(c, s, x)
    requires FlagsOk(s.copies, s.jobs, s.flags, s.pool, s.recycleQ)
    ensures var r := Abandon(c, s, x, n); FlagsOk(r.copies, r.jobs, r.flags, r.pool, r.recycleQ)
  {
    hide ConfigOk, FreeAll, Given, GivenUpTo, GiveAll, FlagsOk, CopyingOk, Left;
    if n > 0 {
      AbandonFlags(c, s, x, n - 1);
      AbandonNext(c, s, x, n);
      if c.pipes[n - 1].xfer == x {
        var r := Abandon(c, s, x, n - 1);
        AbandonPipes(c, s, x, n - 1);
        AbandonCopies(c, s, x, n - 1);
        CopyingSorted(c, s, n - 1);
        var cs := s.pipes[n - 1].copying;
        forall j | 0 <= j < |cs|
          ensures Settled(r.copies, r.jobs, cs[j])
        {
          NotGivenUpTo(c, s, x, n - 1, n - 1, j);
          assert Settled(s.copies, s.jobs, s.pipes[n - 1].copying[j]);
        }
        var bufs, pipes :| Abandon(c, s, x, n) == GiveAll(r.(bufs := bufs, pipes := pipes), cs);
        GiveAllFlags(r.(bufs := bufs, pipes := pipes), cs);
      }
    }
  }

  /* ---------- what is left ---------- */

  // A copy of transfer x that is left: its result is on its way.
  lemma LeftCopies(c: Config, s: State, x: nat)
    requires ConfigOk(c) && Sized(c, s) && StagesOk(c, s.stage)
    requires CopyingOk(c, s.pipes, s.stage, s.copies, s.nextId) && CalledBack(c, s, x)
    ensures forall id :: id in s.copies && s.copies[id].cid.x == x && !GivenUpTo(c, s, x, |c.pipes|, id) ==>
      Orphan(s.stage, s.copies, id) || (Returning(s.copies[id].at) && id !in s.jobs)
    ensures forall id :: GivenUpTo(c, s, x, |c.pipes|, id) ==>
      id in s.copies && s.copies[id].cid.x == x && s.copies[id].at == Received && id !in s.jobs
  {
    forall id | id in s.copies && s.copies[id].cid.x == x && !GivenUpTo(c, s, x, |c.pipes|, id)
      && !Orphan(s.stage, s.copies, id)
      ensures Returning(s.copies[id].at) && id !in s.jobs
    {
      LeftCopy(c, s, x, id);
    }
    forall id | GivenUpTo(c, s, x, |c.pipes|, id)
      ensures id in s.copies && s.copies[id].cid.x == x && s.copies[id].at == Received && id !in s.jobs
    {
      var k :| 0 <= k < |c.pipes| && c.pipes[k].xfer == x && Given(s.pipes[k].copying, id);
      var j :| 0 <= j < |s.pipes[k].copying| && s.pipes[k].copying[j].received && s.pipes[k].copying[j].id == id;
      assert EntryOk(c, k, s.pipes[k].copying[j], s.stage, s.copies);
    }
  }

  lemma LeftCopy(c: Config, s: State, x: nat, id: nat)
    requires ConfigOk(c) && Sized(c, s) && StagesOk(c, s.stage)
    requires CopyingOk(c, s.pipes, s.stage, s.copies, s.nextId) && CalledBack(c, s, x)
    requires id in s.copies && s.copies[id].cid.x == x && !GivenUpTo(c, s, x, |c.pipes|, id)
    requires !Orphan(s.stage, s.copies, id)
    ensures Returning(s.copies[id].at) && id !in s.jobs
  {
    assert CopyOk(s.pipes, s.stage, s.copies, id);
    var cid := s.copies[id].cid;
    assert StageOk(c, cid, s.stage[cid]);
    var k := s.stage[cid].k;
    var j :| 0 <= j < |s.pipes[k].copying| && s.pipes[k].copying[j].id == id;
    assert EntryOk(c, k, s.pipes[k].copying[j], s.stage, s.copies);
    assert Launched(s, s.pipes[k].copying[j].id);
    GivenAt(s.pipes[k].copying, j);
  }

  lemma FailCopying(c: Config, s: State, x: nat, s': State)
    requires ConfigOk(c) && Sized(c, s) && Running(s, x) && s' == NextFail(c, s, x) && StagesOk(c, s.stage)
    requires CopyingOk(c, s.pipes, s.stage, s.copies, s.nextId) && CalledBack(c, s, x)
    ensures CopyingOk(c, s'.pipes, s'.stage, s'.copies, s'.nextId)
  {
    hide ConfigOk, Abandon, GivenUpTo, EntryOk, CopyOk, StagesOk, CalledBack;
    AbandonPipes(c, s, x, |c.pipes|);
    AbandonCopies(c, s, x, |c.pipes|);
    forall k, j | 0 <= k < |s'.pipes| && 0 <= j < |s'.pipes[k].copying|
      ensures EntryOk(c, k, s'.pipes[k].copying[j], s'.stage, s'.copies)
    {
      EntryLeft(c, s, x, s', k, j);
    }
    forall id | id in s'.copies
      ensures id < s'.nextId && CopyOk(s'.pipes, s'.stage, s'.copies, id)
    {
      CopyLeft(c, s, x, s', id);
    }
    forall cid | cid in s'.stage && s'.stage[cid].Copying?
      ensures s'.stage[cid].id in s'.copies && s'.copies[s'.stage[cid].id].cid == cid
    {
      StageLeft(c, s, x, s', cid);
    }
  }

  lemma EntryLeft(c: Config, s: State, x: nat, s': State, k: nat, j: nat)
    requires CopyingOk(c, s.pipes, s.stage, s.copies, s.nextId) && |s.pipes| == |c.pipes| == |s'.pipes|
    requires s'.stage == DropStages(s.stage, s.lost, x)
    requires forall id ::
      (id in s'.copies <==> id in s.copies && !GivenUpTo(c, s, x, |c.pipes|, id))
      && (id in s'.copies ==> s'.copies[id] == s.copies[id])
    requires k < |s'.pipes| && s'.pipes[k] == (if c.pipes[k].xfer == x then NO_CHUNKS else s.pipes[k])
    requires j < |s'.pipes[k].copying|
    ensures EntryOk(c, k, s'.pipes[k].copying[j], s'.stage, s'.copies)
  {
    var cc := s.pipes[k].copying[j];
    assert EntryOk(c, k, cc, s.stage, s.copies);
    if l :| 0 <= l < |c.pipes| && c.pipes[l].xfer == x && Given(s.pipes[l].copying, cc.id) {
      ApartIds(c, s, k, l, cc.id);
    }
  }

  lemma CopyLeft(c: Config, s: State, x: nat, s': State, id: nat)
    requires ConfigOk(c) && Sized(c, s) && StagesOk(c, s.stage)
    requires CopyingOk(c, s.pipes, s.stage, s.copies, s.nextId) && CalledBack(c, s, x)
    requires |s'.pipes| == |s.pipes| && s'.stage == DropStages(s.stage, s.lost, x)
    requires forall k :: 0 <= k < |s.pipes| ==>
      s'.pipes[k] == if c.pipes[k].xfer == x then NO_CHUNKS else s.pipes[k]
    requires id in s'.copies && id in s.copies && s'.copies[id] == s.copies[id] && !GivenUpTo(c, s, x, |c.pipes|, id)
    ensures id < s.nextId && CopyOk(s'.pipes, s'.stage, s'.copies, id)
  {
    hide GivenUpTo, CalledBack, ConfigOk, WrOk;
    assert CopyOk(s.pipes, s.stage, s.copies, id);
    if !Orphan(s.stage, s.copies, id) {
      var cid := s.copies[id].cid;
      assert StageOk(c, cid, s.stage[cid]);
      if cid.x == x {
        LeftCopy(c, s, x, id);
      }
    }
  }

  lemma StageLeft(c: Config, s: State, x: nat, s': State, cid: Cid)
    requires |s.pipes| == |c.pipes| && CopyingOk(c, s.pipes, s.stage, s.copies, s.nextId)
    requires s'.stage == DropStages(s.stage, s.lost, x) && cid in s'.stage && s'.stage[cid].Copying?
    requires forall id ::
      (id in s'.copies <==> id in s.copies && !GivenUpTo(c, s, x, |c.pipes|, id))
      && (id in s'.copies ==> s'.copies[id] == s.copies[id])
    ensures s'.stage[cid].id in s'.copies && s'.copies[s'.stage[cid].id].cid == cid
  {
    hide GivenUpTo;
    var id := s.stage[cid].id;
    if GivenUpTo(c, s, x, |c.pipes|, id) {
      OfTransfer(c, s, x, id);
    }
  }

  lemma OfTransfer(c: Config, s: State, x: nat, id: nat)
    requires |s.pipes| == |c.pipes| && CopyingOk(c, s.pipes, s.stage, s.copies, s.nextId)
    requires GivenUpTo(c, s, x, |c.pipes|, id)
    ensures id in s.copies && s.copies[id].cid.x == x
  {
    var k :| 0 <= k < |c.pipes| && c.pipes[k].xfer == x && Given(s.pipes[k].copying, id);
    var j :| 0 <= j < |s.pipes[k].copying| && s.pipes[k].copying[j].received && s.pipes[k].copying[j].id == id;
    assert EntryOk(c, k, s.pipes[k].copying[j], s.stage, s.copies);
  }

  // The copies between worker and copy thread are those of other transfers, but for results
  // on their way.
  lemma FailSame(c: Config, s: State, x: nat, s': State)
    requires ConfigOk(c) && Sized(c, s) && Running(s, x) && s' == NextFail(c, s, x) && StagesOk(c, s.stage)
    requires CopyingOk(c, s.pipes, s.stage, s.copies, s.nextId) && CalledBack(c, s, x)
    ensures forall at :: at != Received ==> SameAt(s.copies, s'.copies, at)
    ensures StagesKept(s.copies, InRequests, s.stage, s'.stage) && StagesKept(s.copies, WithThread, s.stage, s'.stage)
  {
    hide ConfigOk, Abandon, GivenUpTo, CopyingOk, StagesOk, CalledBack, Sized, SameAt;
    AbandonCopies(c, s, x, |c.pipes|);
    LeftCopies(c, s, x);
    forall at | at != Received
      ensures SameAt(s.copies, s'.copies, at)
    {
      FewerAt(s.copies, s'.copies, at);
    }
  }

  lemma FewerAt(copies: map<nat, Copy>, copies': map<nat, Copy>, at: Where)
    requires forall id :: id in copies' ==> id in copies && copies'[id] == copies[id]
    requires forall id :: id in copies && id !in copies' ==> copies[id].at == Received
    requires at != Received
    ensures SameAt(copies, copies', at)
  {
  }

  // Jobs are those of other transfers.
  lemma FailJobs(c: Config, s: State, x: nat, s': State)
    requires ConfigOk(c) && Sized(c, s) && Running(s, x) && s' == NextFail(c, s, x) && StagesOk(c, s.stage)
    requires CopyingOk(c, s.pipes, s.stage, s.copies, s.nextId) && CalledBack(c, s, x)
    requires JobsOk(c, s.jobs, s.stage, s.copies)
    ensures forall id :: id in s.jobs ==> id in s'.copies && s'.copies[id] == s.copies[id]
    ensures forall id :: id in s.jobs && id in s.copies && s.copies[id].cid in s.stage ==>
      s.copies[id].cid in s'.stage && s'.stage[s.copies[id].cid] == s.stage[s.copies[id].cid]
  {
    hide ConfigOk, Abandon, GivenUpTo, CopyingOk, StagesOk, CalledBack, Sized, RequestFields;
    AbandonCopies(c, s, x, |c.pipes|);
    LeftCopies(c, s, x);
    forall id | id in s.jobs
      ensures id in s.copies && !Orphan(s.stage, s.copies, id)
    {
      JobListed(c, s, id);
    }
  }

  lemma JobListed(c: Config, s: State, id: nat)
    requires JobsOk(c, s.jobs, s.stage, s.copies) && id in s.jobs
    ensures id in s.copies && !Orphan(s.stage, s.copies, id)
    ensures s.jobs[id].req.id == id && RequestFields(c, s.jobs[id].req, s.copies[id].cid, s.stage)
  {
    assert RequestFields(c, s.jobs[id].req, s.copies[id].cid, s.stage);
  }

  lemma FailQueues(c: Config, s: State, x: nat, s': State)
    requires ConfigOk(c) && Sized(c, s) && Running(s, x) && s' == NextFail(c, s, x) && StagesOk(c, s.stage)
    requires CopyingOk(c, s.pipes, s.stage, s.copies, s.nextId) && CalledBack(c, s, x)
    requires JobsOk(c, s.jobs, s.stage, s.copies)
    requires RequestsOk(c, s.reqQ, s.stage, s.copies) && ThreadOk(c, s.ct, s.stage, s.copies)
      && ResultsOk(s.resQ, s.copies)
    ensures RequestsOk(c, s'.reqQ, s'.stage, s'.copies) && ThreadOk(c, s'.ct, s'.stage, s'.copies)
      && ResultsOk(s'.resQ, s'.copies)
    ensures JobsOk(c, s'.jobs, s'.stage, s'.copies)
  {
    hide ConfigOk, Abandon, CopyingOk, StagesOk, CalledBack, Sized, RequestsOk, ThreadOk, ResultsOk, JobsOk, SameAt,
         StagesKept, DropStages;
    FailSame(c, s, x, s');
    FailJobs(c, s, x, s');
    RequestsSame(c, s.reqQ, s.stage, s.copies, s'.stage, s'.copies);
    ThreadSame(c, s.ct, s.stage, s.copies, s'.stage, s'.copies);
    ResultsSame(s.resQ, s.copies, s'.copies);
    JobsSame(c, s.jobs, s.stage, s.copies, s.jobs, s'.stage, s'.copies);
  }

  lemma FailFlags(c: Config, s: State, x: nat, s': State)
    requires ConfigOk(c) && Sized(c, s) && Running(s, x) && s' == NextFail(c, s, x)
    requires CopyingOk(c, s.pipes, s.stage, s.copies, s.nextId) && CalledBack(c, s, x)
    requires FlagsOk(s.copies, s.jobs, s.flags, s.pool, s.recycleQ)
    ensures FlagsOk(s'.copies, s'.jobs, s'.flags, s'.pool, s'.recycleQ)
  {
    hide ConfigOk, Abandon, CopyingOk, FlagsOk, CalledBack, Sized, DropStages;
    SettledAll(c, s, x);
    AbandonFlags(c, s, x, |c.pipes|);
  }

  lemma FailLists(c: Config, s: State, x: nat, s': State)
    requires ConfigOk(c) && Sized(c, s) && Running(s, x) && s.xs[x].failed && s' == NextFail(c, s, x)
    requires XfersOk(c, s.xs, s.stage) && StagesOk(c, s.stage) && PendingOk(c, s.pipes, s.stage)
    ensures XfersOk(c, s'.xs, s'.stage) && StagesOk(c, s'.stage) && PendingOk(c, s'.pipes, s'.stage)
  {
    hide ConfigOk, Abandon, XferOk, StagesOk, PendingOk;
    XfersSame(c, s.xs, s.stage, s'.xs, s'.stage);
    StagesDropped(c, s.stage, s.lost, x);
    AbandonPipes(c, s, x, |c.pipes|);
    PendingDropped(c, s, x, s');
  }

  lemma PendingDropped(c: Config, s: State, x: nat, s': State)
    requires PendingOk(c, s.pipes, s.stage) && |s'.pipes| == |s.pipes| && s'.stage == DropStages(s.stage, s.lost, x)
    requires forall k :: 0 <= k < |s.pipes| ==>
      s'.pipes[k] == if c.pipes[k].xfer == x then NO_CHUNKS else s.pipes[k]
    ensures PendingOk(c, s'.pipes, s'.stage)
  {
    forall k, j | 0 <= k < |s'.pipes| && 0 <= j < |s'.pipes[k].pending|
      ensures IsPending(s'.stage, Cid(c.pipes[k].xfer, s'.pipes[k].pending[j]), k)
    {
      assert IsPending(s.stage, Cid(c.pipes[k].xfer, s.pipes[k].pending[j]), k);
    }
  }

  lemma StagesDropped(c: Config, stage: map<Cid, Stage>, lost: set<Wr>, x: nat)
    requires StagesOk(c, stage)
    ensures StagesOk(c, DropStages(stage, lost, x))
  {
    forall id | id in DropStages(stage, lost, x)
      ensures StageOk(c, id, DropStages(stage, lost, x)[id])
    {
      assert StageOk(c, id, stage[id]);
    }
  }

  lemma FailWrs(c: Config, s: State, x: nat, s': State)
    requires ConfigOk(c) && Sized(c, s) && Running(s, x) && s.xs[x].failed && s' == NextFail(c, s, x)
    requires WrsOk(s.posted, Back(s), s.stage) && LostOk(s.xs, s.executed, s.lost)
    ensures WrsOk(s'.posted, Back(s'), s'.stage) && LostOk(s'.xs, s'.executed, s'.lost)
  {
    hide ConfigOk, Abandon;
    forall w | w in s'.posted + Back(s')
      ensures w.id in s'.stage && s'.stage[w.id].Posted? && s'.stage[w.id].wr == w
    {
      assert w in s.posted + Back(s);
    }
    forall id | id in s'.stage && s'.stage[id].Posted?
      ensures s'.stage[id].wr in s'.posted + Back(s') && s'.stage[id].wr.id == id
    {
      assert s.stage[id].wr in s.posted + Back(s);
    }
  }

  lemma FailRefused(c: Config, s: State, x: nat, s': State)
    requires ConfigOk(c) && Sized(c, s) && Running(s, x) && s' == NextFail(c, s, x) && RefusedOk(c, s.pipes, s.xs)
    ensures RefusedOk(c, s'.pipes, s'.xs)
  {
    hide ConfigOk, Abandon, DropStages, RefusedOk;
    AbandonPipes(c, s, x, |c.pipes|);
    RefusedSame(c, s.pipes, s.xs, s'.pipes, s'.xs);
  }

  // The cleanup keeps lists, queues and flags in order, if the callbacks have run.
  lemma FailCore(c: Config, s: State, x: nat)
    requires Core(c, s) && Enabled(c, s, Fail(x)) && CalledBack(c, s, x)
    ensures Core(c, Next(c, s, Fail(x)))
  {
    hide FlowOk, WrsOk, LostOk, RefusedOk, JobsOk, FlagsOk, ResultsOk, ThreadOk, RequestsOk, CopyingOk, PendingOk,
         StagesOk, XfersOk, CalledBack, DropStages, Abandon, NextPostDirect, NextAssignProxy, NextSubmit,
         NextSubmitFull, NextLaunch, NextDispatch, NextDrain, NextPostProxy, NextPoll;
    var s' := NextFail(c, s, x);
    FailLists(c, s, x, s');
    FailCopying(c, s, x, s');
    FailQueues(c, s, x, s');
    FailFlags(c, s, x, s');
    FailWrs(c, s, x, s');
    FailRefused(c, s, x, s');
  }

  /* ---------- the books ---------- */

  lemma OwesNothing()
    ensures Owed(NO_CHUNKS) == 0
  {
    assert CopyingLens([]) == [];
  }

  lemma {:induction false} AbandonBufs(c: Config, s: State, x: nat, n: nat)
    requires ConfigOk(c) && Sized(c, s) && n <= |c.pipes| && BufsOk(c, s.pipes, s.bufs)
    ensures var r := Abandon(c, s, x, n); BufsOk(c, r.pipes, r.bufs)
    ensures forall g :: 0 <= g < |s.bufs| ==> Abandon(c, s, x, n).bufs[g].alloc == s.bufs[g].alloc
  {
    hide ConfigOk, GiveAll, BufsOk, AlignUp, Owed;
    if n > 0 {
      AbandonBufs(c, s, x, n - 1);
      if c.pipes[n - 1].xfer == x {
        BufsFree(c, Abandon(c, s, x, n - 1), n - 1);
      }
    }
  }

  // Pipeline k gives back all that it owes.
  lemma BufsFree(c: Config, s: State, k: nat)
    requires ConfigOk(c) && Sized(c, s) && k < |c.pipes| && BufsOk(c, s.pipes, s.bufs)
    ensures c.pipes[k].gpu < |s.bufs|
    ensures var g, p := c.pipes[k].gpu, s.pipes[k];
      var o := FreeAll(FreeAll(s.bufs[g], CopyingLens(p.copying)), p.inflight);
      BufsOk(c, s.pipes[k := NO_CHUNKS], s.bufs[g := o])
  {
    hide AlignUp, BufsOk, Owed, CopyingLens;
    GpuIn(c, k);
    var g, p := c.pipes[k].gpu, s.pipes[k];
    OwesNothing();
    BufAt(c, s.pipes, s.bufs, g);
    OwedOnAtLeast(c, s.pipes, g, k, |s.pipes|);
    OwedIs(p);
    OffsetsFree(s.bufs[g], c.bufSize[g], OwedOn(c, s.pipes, g, |s.pipes|), Owed(p));
    BufsAt(c, s.pipes, s.bufs, k, NO_CHUNKS, FreeAll(FreeAll(s.bufs[g], CopyingLens(p.copying)), p.inflight));
  }

  lemma GpuIn(c: Config, k: nat)
    requires ConfigOk(c) && k < |c.pipes|
    ensures c.pipes[k].gpu < |c.bufSize|
  {
    assert PipeOk(c, c.pipes[k]);
  }

  lemma BufAt(c: Config, pipes: seq<Pipe>, bufs: seq<Offsets>, g: nat)
    requires BufsOk(c, pipes, bufs) && g < |bufs|
    ensures BufOk(bufs[g], c.bufSize[g], OwedOn(c, pipes, g, |pipes|))
  {
  }

  lemma OwedIs(p: Pipe)
    ensures Owed(p) == SumUp(CopyingLens(p.copying)) + SumUp(p.inflight)
  {
  }

  lemma OffsetsFree(o: Offsets, size: nat, owed: nat, d: nat)
    requires BufOk(o, size, owed) && d <= owed
    ensures OffsetsOk(o.(free := o.free + d), size)
  {
  }

  // A work request through a pipeline belongs to the pipeline's transfer.
  lemma ViaTransfer(c: Config, s: State, w: Wr)
    requires StagesOk(c, s.stage) && WrsOk(s.posted, Back(s), s.stage) && w in Wrs(s) && w.via.Some?
    ensures w.via.value < |c.pipes| && c.pipes[w.via.value].xfer == w.id.x
  {
    assert StageOk(c, w.id, s.stage[w.id]);
  }

  lemma FailVia(c: Config, s: State, x: nat, s': State, l: nat)
    requires ConfigOk(c) && Sized(c, s) && Running(s, x) && s' == NextFail(c, s, x) && l < |c.pipes|
    requires StagesOk(c, s.stage) && WrsOk(s.posted, Back(s), s.stage) && Quiet(c, s, x)
    ensures Via(Wrs(s'), l) == if c.pipes[l].xfer == x then {} else Via(Wrs(s), l)
  {
    hide ConfigOk, Abandon, StagesOk, WrsOk, CalledBack, DropStages;
    forall w | w in Via(Wrs(s), l)
      ensures c.pipes[l].xfer == w.id.x
    {
      ViaTransfer(c, s, w);
    }
    assert forall w :: w in Wrs(s') ==> w in Wrs(s);
  }

  lemma FailCounts(c: Config, s: State, x: nat, s': State)
    requires ConfigOk(c) && Sized(c, s) && Running(s, x) && s' == NextFail(c, s, x)
    requires StagesOk(c, s.stage) && WrsOk(s.posted, Back(s), s.stage) && Quiet(c, s, x)
    requires CountsOk(c, s.pipes, s.xs, Wrs(s)) && RecordsOk(c, s.pipes)
    ensures CountsOk(c, s'.pipes, s'.xs, Wrs(s')) && RecordsOk(c, s'.pipes)
  {
    hide ConfigOk, Abandon, StagesOk, WrsOk, Quiet, DropStages;
    AbandonPipes(c, s, x, |c.pipes|);
    forall l | 0 <= l < |s'.pipes|
      ensures CountOk(c, s'.pipes[l], l, s'.xs, Wrs(s'))
    {
      FailVia(c, s, x, s', l);
      assert CountOk(c, s.pipes[l], l, s.xs, Wrs(s));
    }
  }

  lemma FailBlocks(c: Config, s: State, x: nat, s': State)
    requires ConfigOk(c) && Sized(c, s) && Running(s, x) && s' == NextFail(c, s, x)
    requires BufsOk(c, s.pipes, s.bufs) && BlocksOk(c, s.bufs, s.stage)
    ensures BufsOk(c, s'.pipes, s'.bufs) && BlocksOk(c, s'.bufs, s'.stage)
  {
    hide ConfigOk, Abandon, BufsOk, BlocksOk;
    AbandonBufs(c, s, x, |c.pipes|);
    BlocksSame(c, s.bufs, s.stage, s'.bufs, s'.stage);
  }

  // And it keeps the books, if nothing of the transfer's pipelines is under way.
  lemma FailBooks(c: Config, s: State, x: nat)
    requires Inv(c, s) && Enabled(c, s, Fail(x)) && Quiet(c, s, x)
    ensures Books(c, Next(c, s, Fail(x)))
  {
    hide FlowOk, WrsOk, LostOk, RefusedOk, JobsOk, FlagsOk, ResultsOk, ThreadOk, RequestsOk, CopyingOk, PendingOk,
         StagesOk, XfersOk, CountsOk, RecordsOk, BufsOk, BlocksOk, Quiet, DropStages, Abandon, NextPostDirect,
         NextAssignProxy, NextSubmit, NextSubmitFull, NextLaunch, NextDispatch, NextDrain, NextPostProxy, NextPoll;
    var s' := NextFail(c, s, x);
    FailCounts(c, s, x, s');
    FailBlocks(c, s, x, s');
  }
}

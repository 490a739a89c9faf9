/** How the steps of the data plane hand the copy-done flags around. */
module PxnFlags {
  import opened Layout
  import opened ProxyBuffer
  import opened PxnModel
  import opened PxnInvariant

  ghost predicate SameInUse(copies: map<nat, Copy>, copies': map<nat, Copy>) {
    forall id :: (InUse(copies, id) <==> InUse(copies', id)) &&
                 (InUse(copies, id) ==> copies'[id].flag.value == copies[id].flag.value)
  }

  lemma FlagsSame(copies: map<nat, Copy>, jobs: map<nat, Job>, flags: map<nat, bool>, pool: seq<nat>,
                  recycleQ: seq<nat>, copies': map<nat, Copy>)
    requires FlagsOk(copies, jobs, flags, pool, recycleQ) && SameInUse(copies, copies')
    ensures FlagsOk(copies', jobs, flags, pool, recycleQ)
  {
    forall f | WithCopy(copies, f)
      ensures WithCopy(copies', f)
    {
      var id: nat :| InUse(copies, id) && copies[id].flag.value == f;
      assert InUse(copies', id) && copies'[id].flag.value == f;
    }
  }

  lemma FlagsRecycle(copies: map<nat, Copy>, jobs: map<nat, Job>, flags: map<nat, bool>, pool: seq<nat>,
                     recycleQ: seq<nat>)
    requires FlagsOk(copies, jobs, flags, pool, recycleQ) && recycleQ != []
    ensures FlagsOk(copies, jobs, flags, pool + [recycleQ[0]], recycleQ[1..])
  {
    var pool' := pool + [recycleQ[0]];
    var rest := recycleQ[1..];
    assert forall i :: 0 <= i < |rest| ==> rest[i] == recycleQ[i + 1];
    forall i | 0 <= i < |pool'|
      ensures pool'[i] in flags && pool'[i] !in rest
      ensures i < |pool| ==> pool[i] != recycleQ[0]
    {
    }
    assert FreeFlagsOk(flags, pool', rest);
    RecycledKept(pool, recycleQ);
  }

  // A flag that moves from the queue to the pool is in neither twice, and not lost.
  lemma RecycledKept(pool: seq<nat>, recycleQ: seq<nat>)
    requires recycleQ != []
    ensures forall f :: f in pool || f in recycleQ ==> f in pool + [recycleQ[0]] || f in recycleQ[1..]
  {
    assert recycleQ == [recycleQ[0]] + recycleQ[1..];
  }

  // The flag that the copy thread takes for a launch was in the pool or is new: no other
  // copy has it, and no queue.
  lemma TakenFlagFree(copies: map<nat, Copy>, jobs: map<nat, Job>, flags: map<nat, bool>, pool: seq<nat>,
                      recycleQ: seq<nat>, f: nat)
    requires FlagsOk(copies, jobs, flags, pool, recycleQ)
    requires if pool != [] then f == pool[|pool| - 1] else f !in flags
    ensures forall id :: InUse(copies, id) ==> copies[id].flag.value != f
    ensures f !in recycleQ && (pool != [] ==> f !in pool[..|pool| - 1])
  {
    forall id | InUse(copies, id)
      ensures copies[id].flag.value != f
    {
      if pool != [] {
        assert pool[|pool| - 1] in pool;
      }
    }
  }

  lemma FlagsLaunch(copies: map<nat, Copy>, jobs: map<nat, Job>, flags: map<nat, bool>, pool: seq<nat>,
                    recycleQ: seq<nat>, f: nat, req: CopyRequest, cid: Cid)
    requires FlagsOk(copies, jobs, flags, pool, recycleQ)
    requires if pool != [] then f == pool[|pool| - 1] else f !in flags
    requires req.id in copies && !InUse(copies, req.id)
    ensures FlagsOk(copies[req.id := Copy(cid, WithResult, Some(f))], jobs[req.id := Job(req, f, false)],
                    flags[f := false], if pool != [] then pool[..|pool| - 1] else [], recycleQ)
  {
    hide NoneLost, FreeFlagsOk, UsedFlagsOk;
    UsedLaunch(copies, jobs, flags, pool, recycleQ, f, req, cid);
    FreeLaunch(flags, pool, recycleQ, f);
    LaunchKeeps(copies, flags, pool, recycleQ, req.id, Copy(cid, WithResult, Some(f)));
  }

  lemma UsedLaunch(copies: map<nat, Copy>, jobs: map<nat, Job>, flags: map<nat, bool>, pool: seq<nat>,
                   recycleQ: seq<nat>, f: nat, req: CopyRequest, cid: Cid)
    requires FlagsOk(copies, jobs, flags, pool, recycleQ)
    requires if pool != [] then f == pool[|pool| - 1] else f !in flags
    requires req.id in copies && !InUse(copies, req.id)
    ensures UsedFlagsOk(copies[req.id := Copy(cid, WithResult, Some(f))], jobs[req.id := Job(req, f, false)],
                        flags[f := false], if pool != [] then pool[..|pool| - 1] else [], recycleQ)
  {
    hide NoneLost, FreeFlagsOk;
    TakenFlagFree(copies, jobs, flags, pool, recycleQ, f);
    var copies' := copies[req.id := Copy(cid, WithResult, Some(f))];
    forall id | InUse(copies', id) && id != req.id
      ensures InUse(copies, id)
    {
    }
  }

  lemma FreeLaunch(flags: map<nat, bool>, pool: seq<nat>, recycleQ: seq<nat>, f: nat)
    requires FreeFlagsOk(flags, pool, recycleQ)
    ensures FreeFlagsOk(flags[f := false], if pool != [] then pool[..|pool| - 1] else [], recycleQ)
  {
    var pool' := if pool != [] then pool[..|pool| - 1] else [];
    forall i | 0 <= i < |pool'|
      ensures pool'[i] == pool[i]
    {
    }
  }

  lemma LaunchKeeps(copies: map<nat, Copy>, flags: map<nat, bool>, pool: seq<nat>, recycleQ: seq<nat>, r: nat,
                    made: Copy)
    requires NoneLost(copies, flags, pool, recycleQ) && !InUse(copies, r) && LaunchedAt(made.at) && made.flag.Some?
    requires pool != [] ==> made.flag.value == pool[|pool| - 1]
    ensures NoneLost(copies[r := made], flags[made.flag.value := false], if pool != [] then pool[..|pool| - 1] else [],
                     recycleQ)
  {
    var copies' := copies[r := made];
    assert InUse(copies', r) && copies'[r].flag == made.flag;
    forall f | f in flags && f != made.flag.value
      ensures (pool != [] && f in pool[..|pool| - 1]) || f in recycleQ || WithCopy(copies', f)
    {
      if f in pool {
        assert pool == pool[..|pool| - 1] + [made.flag.value];
      } else if f !in recycleQ {
        var id: nat :| InUse(copies, id) && copies[id].flag.value == f;
        assert InUse(copies', id) && copies'[id].flag.value == f;
      }
    }
  }

  lemma FlagsLand(copies: map<nat, Copy>, jobs: map<nat, Job>, flags: map<nat, bool>, pool: seq<nat>,
                  recycleQ: seq<nat>, id: nat)
    requires FlagsOk(copies, jobs, flags, pool, recycleQ) && id in jobs
    ensures FlagsOk(copies, jobs[id := jobs[id].(landed := true)], flags, pool, recycleQ)
  {
  }

  lemma FlagsCallback(copies: map<nat, Copy>, jobs: map<nat, Job>, flags: map<nat, bool>, pool: seq<nat>,
                      recycleQ: seq<nat>, id: nat)
    requires FlagsOk(copies, jobs, flags, pool, recycleQ) && id in jobs
    ensures FlagsOk(copies, jobs - {id}, flags[jobs[id].flag := true], pool, recycleQ)
  {
    assert InUse(copies, id);
  }

  // The worker posts the chunk and gives its flag back, or deletes it.
  lemma FlagsPost(copies: map<nat, Copy>, jobs: map<nat, Job>, flags: map<nat, bool>, pool: seq<nat>,
                  recycleQ: seq<nat>, id: nat)
    requires FlagsOk(copies, jobs, flags, pool, recycleQ) && InUse(copies, id) && id !in jobs
    ensures FlagsOk(copies - {id}, jobs, flags, pool, recycleQ + [copies[id].flag.value])
    ensures FlagsOk(copies - {id}, jobs, flags - {copies[id].flag.value}, pool, recycleQ)
  {
    var f := copies[id].flag.value;
    var copies' := copies - {id};
    forall other: nat | InUse(copies', other)
      ensures InUse(copies, other) && copies'[other].flag.value != f
    {
    }
    var q := recycleQ + [f];
    forall i | 0 <= i < |q|
      ensures q[i] in flags
      ensures i < |recycleQ| ==> q[i] != f
    {
      if i < |recycleQ| {
        assert q[i] in recycleQ;
      }
    }
    forall i | 0 <= i < |pool|
      ensures pool[i] != f
    {
      assert pool[i] in pool;
    }
    assert FreeFlagsOk(flags, pool, q);
    assert FreeFlagsOk(flags - {f}, pool, recycleQ);
    forall g | WithCopy(copies, g) && g != f
      ensures WithCopy(copies', g)
    {
      var i: nat :| InUse(copies, i) && copies[i].flag.value == g;
      assert InUse(copies', i) && copies'[i].flag.value == g;
    }
  }

  /* ---------- jobs ---------- */

  lemma JobsSame(c: Config, jobs: map<nat, Job>, stage: map<Cid, Stage>, copies: map<nat, Copy>,
                 jobs': map<nat, Job>, stage': map<Cid, Stage>, copies': map<nat, Copy>)
    requires JobsOk(c, jobs, stage, copies)
    requires forall id :: id in jobs' ==> id in jobs && jobs'[id].req == jobs[id].req
    requires forall id :: id in jobs' && id in copies ==> id in copies' && copies'[id].cid == copies[id].cid
    requires forall id :: id in jobs' && id in copies && copies[id].cid in stage ==>
      copies[id].cid in stage' && stage'[copies[id].cid] == stage[copies[id].cid]
    ensures JobsOk(c, jobs', stage', copies')
  {
    forall id | id in jobs'
      ensures id in copies' && jobs'[id].req.id == id && RequestFields(c, jobs'[id].req, copies'[id].cid, stage')
    {
      assert id in jobs && RequestFields(c, jobs[id].req, copies[id].cid, stage);
    }
  }

  lemma JobsLaunch(c: Config, jobs: map<nat, Job>, stage: map<Cid, Stage>, copies: map<nat, Copy>, req: CopyRequest,
                   f: nat)
    requires JobsOk(c, jobs, stage, copies) && req.id in copies
    requires RequestFields(c, req, copies[req.id].cid, stage)
    ensures JobsOk(c, jobs[req.id := Job(req, f, false)], stage,
                   copies[req.id := Copy(copies[req.id].cid, WithResult, Some(f))])
  {
    var jobs' := jobs[req.id := Job(req, f, false)];
    var copies' := copies[req.id := Copy(copies[req.id].cid, WithResult, Some(f))];
    forall id | id in jobs'
      ensures id in copies' && jobs'[id].req.id == id && RequestFields(c, jobs'[id].req, copies'[id].cid, stage)
    {
      if id != req.id {
        assert RequestFields(c, jobs[id].req, copies[id].cid, stage);
      }
    }
  }
}

/** The copy thread and the worker's side of its queues, as an object: three rings, a pool of
    copy-done flags, and the loop of copyThreadLoop. One pass of the loop is shown to be a run
    of the transition system. */
module CopyThread {
  import opened Layout
  import opened ProxyBuffer
  import opened FlowControl
  import opened PxnModel
  import opened PxnRuns
  import opened SpscQueue

  class CopyThreadState {
    const requests: SpscQueue<CopyRequest>
    const results: SpscQueue<CopyResult>
    const recycled: SpscQueue<nat>
    var pool: seq<nat>
    var flags: map<nat, bool>      // the allocated flags and their values
    var made: nat                  // every flag's number is below
    var jobs: map<nat, Job>        // copies in a GPU stream whose callback has not run
    var held: PxnModel.CopyThread  // what the loop has in its hands between two queue accesses

    ghost predicate Valid()
      reads this, requests, results, recycled, requests.buffer, results.buffer, recycled.buffer
    {
      && requests.Valid() && results.Valid() && recycled.Valid()
      && requests.capacity == results.capacity == recycled.capacity == COPY_QUEUE_CAPACITY
      && (requests as object) != results && (requests as object) != recycled && (results as object) != recycled
      && (requests.buffer as object) != results.buffer && (requests.buffer as object) != recycled.buffer
      && (results.buffer as object) != recycled.buffer
      && (forall f :: f in flags ==> f < made)
      && (forall i :: 0 <= i < |pool| ==> pool[i] < made)
      && forall i :: 0 <= i < |recycled.contents| ==> recycled.contents[i] < made
    }

    // The object's fields are what the model's state says.
    ghost predicate Shows(s: State)
      reads this, requests, results, recycled
    {
      && requests.contents == s.reqQ && results.contents == s.resQ && recycled.contents == s.recycleQ
      && pool == s.pool && flags == s.flags && jobs == s.jobs && held == s.ct
    }

    ghost predicate At(c: Config, s: State)
      reads this, requests, results, recycled, requests.buffer, results.buffer, recycled.buffer
    {
      ConfigOk(c) && Sized(c, s) && Valid() && Shows(s)
    }

    constructor (noRequest: CopyRequest)
      ensures Valid() && fresh(requests) && fresh(results) && fresh(recycled)
      ensures fresh(requests.buffer) && fresh(results.buffer) && fresh(recycled.buffer)
      ensures forall c: Config, mem: Memory :: Shows(Init(c, mem))
    {
      requests := new SpscQueue(COPY_QUEUE_CAPACITY, noRequest);
      results := new SpscQueue(COPY_QUEUE_CAPACITY, CopyResult(0, None));
      recycled := new SpscQueue(COPY_QUEUE_CAPACITY, 0);
      pool, flags, made, jobs, held := [], map[], 0, map[], Looking;
    }

    /* ---------- called by the worker ---------- */

    // submitCopyRequest: the request is queued, or the caller is told that it is not.
    method Submit(req: CopyRequest) returns (ok: bool)
      requires Valid()
      modifies requests, requests.buffer
      ensures Valid()
      ensures ok <==> |old(requests.contents)| < 4096
      ensures requests.contents == if ok then old(requests.contents) + [req] else old(requests.contents)
      ensures |requests.contents| <= 4096
    {
      hide Ring;
      ok := requests.TryPush(req);
    }

    // recycleFlagToThread: the flag is queued, or deleted when the queue is full.
    method GiveBack(flag: nat)
      requires Valid() && flag in flags
      modifies this`flags, recycled, recycled.buffer
      ensures Valid()
      ensures if |old(recycled.contents)| < 4096
        then recycled.contents == old(recycled.contents) + [flag] && flags == old(flags)
        else recycled.contents == old(recycled.contents) && flags == old(flags) - {flag}
    {
      hide Ring;
      var kept := recycled.TryPush(flag);
      if !kept {
        flags := flags - {flag};
      }
    }

    // pollAllCopyResults: every queued result, in order.
    method PollAllResults() returns (all: seq<CopyResult>)
      requires Valid()
      modifies results
      ensures Valid() && all == old(results.contents) && results.contents == []
    {
      hide Ring, SpscQueue.Valid;
      ghost var queued := results.contents;
      all := [];
      var more := true;
      while more
        invariant Valid() && queued == all + results.contents
        invariant !more ==> results.contents == []
        decreases |results.contents|, more
      {
        ghost var was := results.contents;
        var res;
        more, res := results.TryPop();
        if more {
          assert all + was == (all + [res]) + was[1..];
          all := all + [res];
        }
      }
    }

    /* ---------- the loop ---------- */

    // One returned flag goes back to the pool.
    method RecycleOne(c: Config, ghost s: State) returns (more: bool)
      requires At(c, s) && held.Looking?
      modifies this`pool, recycled
      ensures held.Looking? && (more <==> old(recycled.contents) != [])
      ensures more ==> Enabled(c, s, Recycle) && At(c, Next(c, s, Recycle))
      ensures more ==>
        pool == old(pool) + [old(recycled.contents)[0]] && recycled.contents == old(recycled.contents)[1..]
      ensures !more ==> At(c, s) && pool == old(pool) && recycled.contents == []
    {
      hide ConfigOk, Sized, Ring, SpscQueue.Valid, Init;
      var flag;
      more, flag := recycled.TryPop();
      if more {
        StepSized(c, s, Recycle);
        pool := pool + [flag];
      }
    }

    // Every returned flag goes back to the pool, in order.
    method RecycleAll(c: Config, ghost s: State) returns (ghost steps: seq<Step>)
      requires At(c, s) && held.Looking?
      modifies this`pool, recycled
      ensures ConfigOk(c) && IsRun(c, s, steps) && At(c, After(c, s, steps)) && held.Looking? && recycled.contents == []
      ensures forall j :: 0 <= j < |steps| ==> steps[j] == Recycle
      ensures pool == old(pool) + old(recycled.contents)
    {
      hide ConfigOk, Sized, Valid, Shows, Enabled, Next, Init;
      steps := [];
      ghost var cur, all, pool0 := s, recycled.contents, pool;
      ghost var taken: seq<nat> := [];
      var more := true;
      while more
        invariant ConfigOk(c) && IsRun(c, s, steps) && cur == After(c, s, steps) && At(c, cur) && held.Looking?
        invariant forall j :: 0 <= j < |steps| ==> steps[j] == Recycle
        invariant all == taken + recycled.contents && pool == pool0 + taken
        invariant !more ==> recycled.contents == []
        decreases |recycled.contents|, more
      {
        ghost var was := recycled.contents;
        more := RecycleOne(c, cur);
        if more {
          RunNext(c, s, steps, Recycle);
          steps := steps + [Recycle];
          cur := Next(c, cur, Recycle);
          assert taken + was == (taken + [was[0]]) + was[1..];
          taken := taken + [was[0]];
        }
      }
    }

    // The oldest request, if any.
    method Pop(c: Config, ghost s: State) returns (some: bool)
      requires At(c, s) && held.Looking?
      modifies this`held, requests
      ensures some ==> Enabled(c, s, PopRequest) && At(c, Next(c, s, PopRequest))
      ensures some ==>
        held == Popped(old(requests.contents)[0]) && requests.contents == old(requests.contents)[1..]
      ensures !some ==> !Enabled(c, s, PopRequest) && At(c, s) && held.Looking? && requests.contents == []
      ensures some <==> old(requests.contents) != []
    {
      hide ConfigOk, Sized, Ring, SpscQueue.Valid, Init;
      var req;
      some, req := requests.TryPop();
      if some {
        StepSized(c, s, PopRequest);
        held := Popped(req);
      }
    }

    // A flag for the copy, the pool's last or a new one, set to false before its callback is queued;
    // the copy goes to a stream with the flag for its callback to set.
    method LaunchCopy(c: Config, ghost s: State) returns (flag: nat)
      requires At(c, s) && held.Popped?
      modifies this`pool, this`flags, this`made, this`jobs, this`held
      ensures Enabled(c, s, Launch(flag)) && At(c, Next(c, s, Launch(flag)))
      ensures flag in flags && !flags[flag]
      ensures held == Pushing(CopyResult(old(held).req.id, Some(flag)))
    {
      hide ConfigOk, Sized, Ring, SpscQueue.Valid, Init;
      if pool != [] {
        flag := pool[|pool| - 1];
        pool := pool[..|pool| - 1];
      } else {
        flag := made;
        made := made + 1;
      }
      StepSized(c, s, Launch(flag));
      flags := flags[flag := false];
      jobs := jobs[held.req.id := Job(held.req, flag, false)];
      held := Pushing(CopyResult(held.req.id, Some(flag)));
    }

    // The GPU refuses the copy: the result has no flag.
    method Refuse(c: Config, ghost s: State)
      requires At(c, s) && held.Popped?
      modifies this`held
      ensures Enabled(c, s, CopyFails) && At(c, Next(c, s, CopyFails))
      ensures held == Pushing(CopyResult(old(held).req.id, None))
    {
      hide ConfigOk, Sized, Ring, SpscQueue.Valid, Init;
      StepSized(c, s, CopyFails);
      held := Pushing(CopyResult(held.req.id, None));
    }

    // The result of a request: it has a flag if the GPU took the copy.
    predicate IsResult(res: CopyResult, req: CopyRequest, accepted: bool) {
      res.id == req.id && (res.flag.Some? <==> accepted)
    }

    // The request in hand: its copy is launched, or the GPU refuses it.
    method Start(c: Config, accepted: bool, ghost s: State) returns (ghost step: Step)
      requires At(c, s) && held.Popped?
      modifies this`held, this`flags, this`jobs, this`pool, this`made
      ensures Enabled(c, s, step) && At(c, Next(c, s, step))
      ensures held.Pushing? && IsResult(held.res, old(held).req, accepted)
      ensures if accepted then step.Launch? else step.CopyFails?
    {
      hide ConfigOk, Sized, Valid, Shows, Enabled, Next, Init;
      if accepted {
        var flag := LaunchCopy(c, s);
        step := Launch(flag);
      } else {
        Refuse(c, s);
        step := CopyFails;
      }
    }

    // The result is queued; with the queue full the thread keeps it and tries again.
    method PushHeld(c: Config, ghost s: State) returns (ok: bool)
      requires At(c, s) && held.Pushing?
      modifies this`held, results, results.buffer
      ensures ok ==> Enabled(c, s, PushResult) && At(c, Next(c, s, PushResult)) && held.Looking?
      ensures !ok ==> !Enabled(c, s, PushResult) && At(c, s) && held == old(held)
      ensures ok <==> |old(results.contents)| < 4096
      ensures results.contents == if ok then old(results.contents) + [old(held).res] else old(results.contents)
    {
      hide ConfigOk, Sized, Ring, SpscQueue.Valid, Init;
      ok := results.TryPush(held.res);
      if ok {
        StepSized(c, s, PushResult);
        held := Looking;
      }
    }

    // The steps of one pass: recycling, and then a request popped, launched or refused, and its
    // result queued, as far as the queues let it.
    ghost predicate IsPass(steps: seq<Step>) {
      exists n: nat :: n <= |steps| && PassFrom(steps, n)
    }

    ghost predicate PassFrom(steps: seq<Step>, n: nat)
      requires n <= |steps|
    {
      && (forall j :: 0 <= j < n ==> steps[j] == Recycle)
      && (|steps| > n ==>
            steps[n] == PopRequest && |steps| > n + 1 && (steps[n + 1].Launch? || steps[n + 1].CopyFails?))
      && (|steps| > n + 2 ==> steps[n + 2] == PushResult && |steps| == n + 3)
    }

    lemma PassMade(r: seq<Step>, step: Step)
      requires (forall j :: 0 <= j < |r| ==> r[j] == Recycle) && (step.Launch? || step.CopyFails?)
      ensures IsPass(r) && IsPass(r + [PopRequest] + [step]) && IsPass(r + [PopRequest] + [step] + [PushResult])
    {
      assert PassFrom(r, |r|);
      assert PassFrom(r + [PopRequest] + [step], |r|);
      assert PassFrom(r + [PopRequest] + [step] + [PushResult], |r|);
    }

    // One pass of copyThreadLoop; accepted says whether the GPU takes the copy, if there is one.
    // Every returned flag is back in the pool; the oldest request is taken, and its result is
    // queued. With the result queue full the thread has it in hand, and nothing else.
    method Pass(c: Config, accepted: bool, ghost s: State) returns (ghost steps: seq<Step>)
      requires At(c, s) && held.Looking?
      modifies this, recycled, requests, results, results.buffer
      ensures ConfigOk(c) && IsRun(c, s, steps) && At(c, After(c, s, steps)) && IsPass(steps)
      ensures recycled.contents == []
      ensures old(requests.contents) == [] ==>
        held.Looking? && requests.contents == [] && results.contents == old(results.contents)
        && pool == old(pool) + old(recycled.contents)
      ensures old(requests.contents) != [] ==> requests.contents == old(requests.contents)[1..]
      ensures old(requests.contents) != [] && |old(results.contents)| < 4096 ==>
        && held.Looking? && |results.contents| == |old(results.contents)| + 1
        && results.contents[..|old(results.contents)|] == old(results.contents)
        && IsResult(results.contents[|old(results.contents)|], old(requests.contents)[0], accepted)
      ensures old(requests.contents) != [] && |old(results.contents)| >= 4096 ==>
        && held.Pushing? && IsResult(held.res, old(requests.contents)[0], accepted)
        && results.contents == old(results.contents)
    {
      hide ConfigOk, Sized, Valid, Shows, Enabled, Next, Init, IsPass;
      steps := RecycleAll(c, s);
      ghost var r := steps;
      PassMade(r, CopyFails);
      ghost var cur := After(c, s, steps);
      var some := Pop(c, cur);
      if !some {
        return;
      }
      RunNext(c, s, steps, PopRequest);
      steps := steps + [PopRequest];
      cur := Next(c, cur, PopRequest);
      ghost var step := Start(c, accepted, cur);
      RunNext(c, s, steps, step);
      steps := steps + [step];
      cur := Next(c, cur, step);
      PassMade(r, step);
      var ok := PushHeld(c, cur);
      if ok {
        RunNext(c, s, steps, PushResult);
        steps := steps + [PushResult];
      }
    }
  }
}

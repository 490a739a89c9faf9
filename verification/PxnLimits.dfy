/** How much may be under way at once: PXN transfers, and chunks staged for one NIC. */
module PxnLimits {
  import opened Rings
  import opened Chunks
  import opened Layout
  import opened ProxyBuffer
  import opened FlowControl
  import opened PxnModel
  import opened PxnRuns
  import opened PxnInvariant
  import opened PxnSteps
  import opened PxnAccounting
  import PxnFailure
  import PxnProgress

  // A queued PXN transfer can be activated iff fewer than five are active; any other always.
  lemma RoomForFive(c: Config, s: State, x: nat)
    requires ConfigOk(c) && Sized(c, s) && x < |c.reqs| && s.xs[x].status == Queued
    ensures Enabled(c, s, Activate(x)) <==> (c.pxn[x] ==> |ActivePxn(c, s.xs)| < 5)
  {
  }

  // How many chunks the limit of a proxy NIC stands for: one NIC's worth of work requests and
  // two for each active PXN transfer.
  ghost function ProxyLimit(c: Config, actives: nat): nat {
    c.MaxPerNic() * (1 + 2 * actives)
  }

  // The load check on plain numbers.
  predicate Below(total: nat, rdma: int, alpha: real, limit: int) {
    var nvlink := if total > rdma then total - rdma else 0;
    (nvlink as real * alpha + rdma as real).Floor < limit
  }

  // The weighted load is at least, at weight one exactly, the larger of the two counts.
  lemma BelowMeans(total: nat, rdma: int, alpha: real, limit: int)
    ensures alpha >= 1.0 && Below(total, rdma, alpha, limit) ==> total < limit
    ensures alpha == 1.0 ==> (Below(total, rdma, alpha, limit) <==> total < limit && rdma < limit)
  {
    var nvlink := if total > rdma then total - rdma else 0;
    assert alpha >= 1.0 ==> nvlink as real * alpha >= nvlink as real;
    assert (nvlink + rdma) as real == nvlink as real + rdma as real;
  }

  lemma RoomIs(c: Config, s: State, x: nat, n: nat)
    requires ConfigOk(c) && Sized(c, s) && x < |c.reqs| && n < c.nics
    ensures ProxyRoom(c, s, x, n) <==>
      Below(AssignedOn(c, s.pipes, n, |s.pipes|), NicOut(s.flow, n), c.alpha[x],
            ProxyLimit(c, if |ActivePxn(c, s.xs)| == 0 then 1 else |ActivePxn(c, s.xs)|))
  {
    hide AssignedOn, NicOut, ActivePxn;
    LimitIs(c.MaxPerNic(), if |ActivePxn(c, s.xs)| == 0 then 1 else |ActivePxn(c, s.xs)|);
  }

  lemma LimitIs(m: nat, actives: nat)
    ensures m + 2 * m * actives == m * (1 + 2 * actives)
  {
    assert 2 * m * actives == m * (2 * actives);
  }

  lemma LimitAtMost(m: nat, actives: nat)
    requires actives <= 5
    ensures m * (1 + 2 * actives) <= 11 * m
  {
    MulLe(1 + 2 * actives, 11, m);
  }

  // At the default weight of staged chunks there is room on a proxy NIC iff both the chunks
  // assigned to it and its outstanding work requests are fewer than one NIC's worth and two
  // for each active PXN transfer, of which one is counted at least.
  lemma RoomAtOne(c: Config, s: State, x: nat, n: nat)
    requires ConfigOk(c) && Sized(c, s) && x < |c.reqs| && n < c.nics && c.alpha[x] == 1.0
    ensures var limit := ProxyLimit(c, if |ActivePxn(c, s.xs)| == 0 then 1 else |ActivePxn(c, s.xs)|);
      ProxyRoom(c, s, x, n) <==> AssignedOn(c, s.pipes, n, |s.pipes|) < limit && NicOut(s.flow, n) < limit
  {
    hide AssignedOn, NicOut, ActivePxn, Below, ProxyRoom, ProxyLimit;
    var actives := if |ActivePxn(c, s.xs)| == 0 then 1 else |ActivePxn(c, s.xs)|;
    RoomIs(c, s, x, n);
    BelowMeans(AssignedOn(c, s.pipes, n, |s.pipes|), NicOut(s.flow, n), c.alpha[x], ProxyLimit(c, actives));
  }

  lemma RoomBelow(c: Config, s: State, x: nat, n: nat)
    requires ConfigOk(c) && Sized(c, s) && x < |c.reqs| && n < c.nics && c.alpha[x] >= 1.0
    requires ProxyRoom(c, s, x, n) && |ActivePxn(c, s.xs)| <= 5
    ensures AssignedOn(c, s.pipes, n, |s.pipes|) < 11 * c.MaxPerNic()
  {
    hide AssignedOn, NicOut, ActivePxn, Below, ProxyRoom;
    var actives := if |ActivePxn(c, s.xs)| == 0 then 1 else |ActivePxn(c, s.xs)|;
    RoomIs(c, s, x, n);
    BelowMeans(AssignedOn(c, s.pipes, n, |s.pipes|), NicOut(s.flow, n), c.alpha[x], ProxyLimit(c, actives));
    LimitAtMost(c.MaxPerNic(), actives);
  }

  lemma {:induction false} AssignedLe(c: Config, pipes: seq<Pipe>, pipes': seq<Pipe>, n: nat, upTo: nat)
    requires upTo <= |pipes| == |pipes'| == |c.pipes|
    requires forall k :: 0 <= k < |pipes| ==> pipes'[k].assignedOut <= pipes[k].assignedOut
    ensures AssignedOn(c, pipes', n, upTo) <= AssignedOn(c, pipes, n, upTo)
  {
    if upTo > 0 {
      AssignedLe(c, pipes, pipes', n, upTo - 1);
    }
  }

  lemma PollAssigned(c: Config, s: State, w: Wr, n: nat)
    requires ConfigOk(c) && Sized(c, s) && Enabled(c, s, Poll(w))
    ensures |Next(c, s, Poll(w)).pipes| == |s.pipes|
    ensures AssignedOn(c, Next(c, s, Poll(w)).pipes, n, |s.pipes|) <= AssignedOn(c, s.pipes, n, |s.pipes|)
  {
    hide ConfigOk, AssignedOn, Complete, CountDone, Shape;
    AssignedLe(c, s.pipes, Next(c, s, Poll(w)).pipes, n, |s.pipes|);
  }

  lemma FailAssigned(c: Config, s: State, x: nat, n: nat)
    requires ConfigOk(c) && Sized(c, s) && Enabled(c, s, Fail(x))
    ensures |Next(c, s, Fail(x)).pipes| == |s.pipes|
    ensures AssignedOn(c, Next(c, s, Fail(x)).pipes, n, |s.pipes|) <= AssignedOn(c, s.pipes, n, |s.pipes|)
  {
    hide ConfigOk, AssignedOn, Abandon, DropStages, NextPostDirect, NextAssignProxy, NextSubmit, NextSubmitFull,
         NextLaunch, NextDispatch, NextDrain, NextPostProxy, NextPoll;
    PxnFailure.AbandonPipes(c, s, x, |c.pipes|);
    AssignedLe(c, s.pipes, Next(c, s, Fail(x)).pipes, n, |s.pipes|);
  }

  lemma StepLoad(c: Config, s: State, step: Step, n: nat)
    requires ConfigOk(c) && Sized(c, s) && Enabled(c, s, step) && Sized(c, Next(c, s, step)) && n < c.nics
    requires forall x :: 0 <= x < |c.alpha| ==> c.alpha[x] >= 1.0
    requires |ActivePxn(c, s.xs)| <= 5 && AssignedOn(c, s.pipes, n, |s.pipes|) <= 11 * c.MaxPerNic()
    ensures AssignedOn(c, Next(c, s, step).pipes, n, |s.pipes|) <= 11 * c.MaxPerNic()
  {
    hide Next, AssignedOn, ActivePxn, ProxyRoom, NicRoom, TryAlloc, ChunkAt, Awaits, Shape;
    if step.Poll? {
      PollAssigned(c, s, step.wr, n);
    } else if step.Fail? {
      FailAssigned(c, s, step.x, n);
    } else {
      StepAssigned(c, s, step, n);
      AssignsOne(c, step, n);
      if step.AssignProxy? && c.pipes[step.k].nic == n {
        RoomBelow(c, s, c.pipes[step.k].xfer, n);
      }
    }
  }

  lemma AssignsOne(c: Config, step: Step, n: nat)
    ensures AssignsTo(c, [step], n)
      == if step.AssignProxy? && step.k < |c.pipes| && c.pipes[step.k].nic == n then 1 else 0
  {
    assert [step][1..] == [];
  }

  lemma {:induction false} RunLoad(c: Config, s: State, steps: seq<Step>, n: nat)
    requires ConfigOk(c) && Sized(c, s) && IsRun(c, s, steps) && n < c.nics
    requires forall x :: 0 <= x < |c.alpha| ==> c.alpha[x] >= 1.0
    requires |ActivePxn(c, s.xs)| <= 5 && AssignedOn(c, s.pipes, n, |s.pipes|) <= 11 * c.MaxPerNic()
    ensures Sized(c, After(c, s, steps))
    ensures AssignedOn(c, After(c, s, steps).pipes, n, |c.pipes|) <= 11 * c.MaxPerNic()
    decreases |steps|
  {
    hide ConfigOk, Next, Enabled, AssignedOn, ActivePxn;
    if steps != [] {
      StepSized(c, s, steps[0]);
      StepActive(c, s, steps[0]);
      StepLoad(c, s, steps[0], n);
      RunLoad(c, Next(c, s, steps[0]), steps[1..], n);
    }
  }

  // With staged chunks at their default weight or above, no NIC ever has more chunks assigned
  // than eleven times its work requests: its own worth, and two for each of five transfers.
  lemma ProxyLoadBounded(c: Config, m0: Memory, steps: seq<Step>, n: nat)
    requires ConfigOk(c) && IsRun(c, Init(c, m0), steps) && n < c.nics
    requires forall x :: 0 <= x < |c.alpha| ==> c.alpha[x] >= 1.0
    ensures Sized(c, After(c, Init(c, m0), steps))
    ensures AssignedOn(c, After(c, Init(c, m0), steps).pipes, n, |c.pipes|) <= 11 * c.MaxPerNic()
  {
    hide Next, Enabled;
    var s := Init(c, m0);
    assert ActivePxn(c, s.xs) == {};
    PxnProgress.NoneAssigned(c, s.pipes, n, |s.pipes|);
    RunLoad(c, s, steps, n);
  }
}

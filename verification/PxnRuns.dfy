/** Runs of the data plane: joined, cut in two, and never out of shape. */
module PxnRuns {
  import opened Chunks
  import opened Layout
  import opened ProxyBuffer
  import opened FlowControl
  import opened PxnModel

  // One more step.
  lemma {:induction false} RunNext(c: Config, s: State, steps: seq<Step>, step: Step)
    requires ConfigOk(c) && IsRun(c, s, steps) && Sized(c, After(c, s, steps)) && Enabled(c, After(c, s, steps), step)
    ensures IsRun(c, s, steps + [step]) && After(c, s, steps + [step]) == Next(c, After(c, s, steps), step)
    decreases |steps|
  {
    hide ConfigOk, Sized, Enabled, Next;
    if steps == [] {
      assert steps + [step] == [step];
      assert [step][1..] == [];
    } else {
      RunNext(c, Next(c, s, steps[0]), steps[1..], step);
      assert (steps + [step])[1..] == steps[1..] + [step];
    }
  }

  // A run and what is left of it after its first part.
  lemma {:induction false} RunSplit(c: Config, s: State, a: seq<Step>, b: seq<Step>)
    requires ConfigOk(c) && IsRun(c, s, a + b)
    ensures IsRun(c, s, a) && IsRun(c, After(c, s, a), b) && After(c, s, a + b) == After(c, After(c, s, a), b)
    decreases |a|
  {
    hide ConfigOk, Enabled, Next, Sized;
    if a == [] {
      assert a + b == b;
    } else {
      assert (a + b)[0] == a[0] && (a + b)[1..] == a[1..] + b;
      RunSplit(c, Next(c, s, a[0]), a[1..], b);
    }
  }

  /* ---------- every step keeps the sizes ---------- */

  lemma CountersSized(f: Counters, nics: nat, qps: nat, n: nat, q: nat)
    requires Shape(f, nics, qps) && n < nics && q < qps
    ensures Shape(Post(f, n, q), nics, qps) && Shape(Complete(f, n, q), nics, qps)
  {
  }

  lemma PostDirectSized(c: Config, s: State, x: nat, n: nat, q: nat)
    requires ConfigOk(c) && Sized(c, s) && Enabled(c, s, PostDirect(x, n, q)) && n < c.nics
    ensures Sized(c, NextPostDirect(c, s, x, n, q))
  {
    hide Post, Shape, ChunkAt, ConfigOk;
    CountersSized(s.flow, c.nics, c.qps, n, q);
  }

  lemma PostProxySized(c: Config, s: State, k: nat, q: nat)
    requires ConfigOk(c) && Sized(c, s) && Enabled(c, s, PostProxy(k, q)) && c.pipes[k].nic < c.nics
    ensures Sized(c, NextPostProxy(c, s, k, q))
  {
    hide Post, Shape, ChunkAt, ConfigOk;
    CountersSized(s.flow, c.nics, c.qps, c.pipes[k].nic, q);
  }

  lemma PollSized(c: Config, s: State, w: Wr)
    requires ConfigOk(c) && Sized(c, s) && Enabled(c, s, Poll(w))
    ensures Sized(c, NextPoll(c, s, w))
  {
    hide Complete, Shape, PipeOn, ConfigOk;
    CountersSized(s.flow, c.nics, c.qps, w.nic, w.qp);
  }

  lemma FailSized(c: Config, s: State, x: nat)
    requires ConfigOk(c) && Sized(c, s) && Running(s, x)
    ensures Sized(c, NextFail(c, s, x))
  {
    hide ConfigOk, Abandon, DropStages;
  }

  lemma NicsInRange(c: Config, s: State, step: Step)
    requires ConfigOk(c) && Sized(c, s) && Enabled(c, s, step)
    ensures step.PostDirect? ==> step.n < c.nics
    ensures step.PostProxy? ==> c.pipes[step.k].nic < c.nics
    ensures step.Submit? || step.SubmitFull? || step.Drain? || step.Cleanup? ==> c.pipes[step.k].gpu < |s.bufs|
  {
    hide ProxyRoom, NicRoom, TryAlloc, ChunkAt, Awaits;
    if step.PostProxy? || step.Submit? || step.SubmitFull? || step.Drain? || step.Cleanup? {
      assert PipeOk(c, c.pipes[step.k]);
    }
  }

  lemma StepSized(c: Config, s: State, step: Step)
    requires ConfigOk(c) && Sized(c, s) && Enabled(c, s, step)
    ensures Sized(c, Next(c, s, step))
  {
    hide ConfigOk, ProxyRoom, NicRoom, TryAlloc, ChunkAt, NextPoll, NextPostDirect, NextPostProxy, Shape, Awaits,
         Complete, NextFail;
    NicsInRange(c, s, step);
    match step
    case PostDirect(x, n, q) => PostDirectSized(c, s, x, n, q);
    case PostProxy(k, q) => PostProxySized(c, s, k, q);
    case Poll(w) => PollSized(c, s, w);
    case PollFails(w) => CountersSized(s.flow, c.nics, c.qps, w.nic, w.qp);
    case Fail(x) => FailSized(c, s, x);
    case _ => OtherSized(c, s, step);
  }

  lemma OtherSized(c: Config, s: State, step: Step)
    requires ConfigOk(c) && Sized(c, s) && Enabled(c, s, step)
    requires !step.PostDirect? && !step.PostProxy? && !step.Poll? && !step.PollFails? && !step.Fail?
    requires step.Submit? || step.SubmitFull? || step.Drain? || step.Cleanup? ==> c.pipes[step.k].gpu < |s.bufs|
    ensures Sized(c, Next(c, s, step))
  {
    hide ConfigOk, ProxyRoom, NicRoom, TryAlloc, ChunkAt, NextPoll, NextPostDirect, NextPostProxy, Shape, Awaits,
         NextFail;
    assert Next(c, s, step).flow == s.flow;
  }
}

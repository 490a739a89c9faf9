/** What the data plane leaves alone: it writes only destinations of running transfers and
    the proxy buffers, and those only inside their bounds. */
module PxnFrame {
  import opened Chunks
  import opened Layout
  import opened ProxyBuffer
  import opened FlowControl
  import opened PxnModel
  import opened PxnInvariant
  import opened PxnSteps
  import opened PxnFailure
  import opened PxnBooks
  import opened PxnDelivery

  ghost predicate InBuffer(c: Config, l: Loc) {
    l.Proxy? && l.gpu < |c.bufSize| && l.addr < c.bufSize[l.gpu]
  }

  // l belongs to the destination of a transfer that may still write.
  ghost predicate InBusyDst(c: Config, xs: seq<Xfer>, posted: set<Wr>, l: Loc)
    requires ConfigOk(c)
  {
    exists x: nat :: x < |c.reqs| && Busy(xs, posted, x) && InDst(c.reqs[x], l)
  }

  // The worker's side may write l in this state.
  ghost predicate MayWrite(c: Config, s: State, l: Loc)
    requires ConfigOk(c)
  {
    InBuffer(c, l) || InBusyDst(c, s.xs, s.posted, l)
  }

  // The copy of a job goes to a block that lies in its buffer.
  lemma LandInside(c: Config, s: State, id: nat)
    requires JobsOk(c, s.jobs, s.stage, s.copies) && StagesOk(c, s.stage) && BlocksOk(c, s.bufs, s.stage)
    requires id in s.jobs
    ensures var req := s.jobs[id].req;
      req.dst.Proxy? && req.dst.gpu < |c.bufSize| && req.dst.addr + req.len <= c.bufSize[req.dst.gpu]
  {
    hide ChunkAt;
    var cid := s.copies[id].cid;
    assert StageOk(c, cid, s.stage[cid]);
    assert Holds(s.stage, cid);
    assert BlkOk(c, s.stage[cid].blk, s.bufs);
  }

  lemma LandFrame(c: Config, s: State, id: nat, l: Loc)
    requires Inv(c, s) && ConfigOk(c) && Sized(c, s) && Enabled(c, s, Land(id))
    ensures Next(c, s, Land(id)).mem(l) != s.mem(l) ==> InBuffer(c, l)
  {
    hide Inv, ConfigOk, Sized, BlocksOk, JobsOk, StagesOk, NextPostDirect, NextAssignProxy, NextSubmit,
         NextSubmitFull, NextLaunch, NextDispatch, NextDrain, NextPostProxy, NextPoll;
    JobParts(c, s);
    LandInside(c, s, id);
  }

  lemma JobParts(c: Config, s: State)
    requires Inv(c, s)
    ensures JobsOk(c, s.jobs, s.stage, s.copies) && StagesOk(c, s.stage) && BlocksOk(c, s.bufs, s.stage)
  {
    hide Core, Books, JobsOk, StagesOk, BlocksOk;
    CoreParts(c, s);
    BooksParts(c, s);
  }

  lemma RequestsWell(c: Config, x: nat)
    requires ConfigOk(c) && x < |c.reqs|
    ensures WellFormed(c.reqs[x]) && NoWrap(c.reqs[x])
  {
  }

  lemma ExecuteFrame(c: Config, s: State, w: Wr, l: Loc)
    requires Inv(c, s) && ConfigOk(c) && Sized(c, s) && Enabled(c, s, Execute(w))
    ensures Next(c, s, Execute(w)).mem(l) != s.mem(l) ==> InBusyDst(c, s.xs, s.posted, l)
  {
    hide Core, Books, ConfigOk, XfersOk, StagesOk, PendingOk, CopyingOk, WrsOk, FlagsOk, JobsOk, LostOk, RefusedOk,
         FlowOk, ChunkAt, NextPostDirect, NextAssignProxy, NextSubmit, NextSubmitFull, NextLaunch, NextDispatch,
         NextDrain, NextPostProxy, NextPoll, NextFail;
    CoreParts(c, s);
    OutstandingWr(c, s, w);
    PostedNotEarly(c, s, w.id);
    RequestsWell(c, w.id.x);
    if w.dst.Range(w.len, l) {
      ChunkRangeInDst(c.reqs[w.id.x], w.id.i, l);
    }
  }

  // Users may write any byte outside the proxy buffers, any value, at any time; it is there
  // afterwards, and nothing else has changed.
  lemma UserWrites(c: Config, s: State, at: Loc, value: Byte, l: Loc)
    requires ConfigOk(c) && Sized(c, s)
    ensures Enabled(c, s, UserWrite(at, value)) <==> !at.Proxy?
    ensures !at.Proxy? ==> var s' := Next(c, s, UserWrite(at, value));
      s'.mem(l) == (if l == at then value else s.mem(l)) && s' == s.(mem := s'.mem)
  {
  }

  // A byte that a step changes is the one a user wrote, a byte of the destination of a
  // transfer that may still write, or a byte inside a proxy buffer: no copy and no RDMA goes
  // past either.
  lemma StepFrame(c: Config, s: State, step: Step, l: Loc)
    requires Inv(c, s) && ConfigOk(c) && Sized(c, s) && Enabled(c, s, step)
    ensures Next(c, s, step).mem(l) != s.mem(l) ==> (step.UserWrite? && step.at == l) || MayWrite(c, s, l)
  {
    hide Inv, ConfigOk, Sized, InBuffer, InBusyDst;
    match step
    case Land(id) => LandFrame(c, s, id, l);
    case Execute(w) => ExecuteFrame(c, s, w, l);
    case _ => QuietStep(c, s, step, l);
  }

  lemma QuietStep(c: Config, s: State, step: Step, l: Loc)
    requires ConfigOk(c) && Sized(c, s) && Enabled(c, s, step) && !step.Land? && !step.Execute?
    ensures Next(c, s, step).mem(l) != s.mem(l) ==> step.UserWrite? && step.at == l
  {
    hide ConfigOk, Sized, Next, Enabled;
    if step.Poll? {
      PollMemory(c, s, step.wr);
    } else if step.Fail? {
      FailMemory(c, s, step);
    } else if step.PostDirect? || step.AssignProxy? || step.Submit? || step.SubmitFull? || step.PostProxy? {
      WorkerMemory(c, s, step);
    } else {
      OtherMemory(c, s, step, l);
    }
  }

  lemma WorkerMemory(c: Config, s: State, step: Step)
    requires ConfigOk(c) && Sized(c, s) && Enabled(c, s, step)
    requires step.PostDirect? || step.AssignProxy? || step.Submit? || step.SubmitFull? || step.PostProxy?
    ensures Next(c, s, step).mem == s.mem
  {
    hide ConfigOk, ProxyRoom, NicRoom, TryAlloc, ChunkAt, Awaits, Post, Shape, NextPoll, NextFail, Complete, NextLaunch,
         NextDispatch, NextDrain;
  }

  lemma OtherMemory(c: Config, s: State, step: Step, l: Loc)
    requires ConfigOk(c) && Sized(c, s) && Enabled(c, s, step) && !step.Land? && !step.Execute?
    requires !step.PostDirect? && !step.AssignProxy? && !step.Submit? && !step.SubmitFull? && !step.PostProxy?
    requires !step.Poll? && !step.Fail?
    ensures Next(c, s, step).mem(l) != s.mem(l) ==> step.UserWrite? && step.at == l
  {
    hide ConfigOk, ProxyRoom, NicRoom, TryAlloc, ChunkAt, Awaits, Post, Shape, NextPoll, NextFail, Complete,
         NextPostDirect, NextAssignProxy, NextSubmit, NextSubmitFull, NextPostProxy;
  }

  lemma FailMemory(c: Config, s: State, step: Step)
    requires ConfigOk(c) && Sized(c, s) && Enabled(c, s, step) && step.Fail?
    ensures Next(c, s, step).mem == s.mem
  {
    hide ConfigOk, Abandon, DropStages, NextPostDirect, NextAssignProxy, NextSubmit, NextSubmitFull, NextLaunch,
         NextDispatch, NextDrain, NextPostProxy, NextPoll;
  }

  lemma PollMemory(c: Config, s: State, w: Wr)
    requires ConfigOk(c) && Sized(c, s) && Enabled(c, s, Poll(w))
    ensures Next(c, s, Poll(w)).mem == s.mem
  {
    hide ConfigOk, Sized, CreditPipe, CountDone, Complete, NextPostDirect, NextAssignProxy, NextSubmit,
         NextSubmitFull, NextLaunch, NextDispatch, NextDrain, NextPostProxy;
  }

  // Throughout the run nobody writes l and no transfer that may still write has it in its
  // destination.
  ghost predicate Untouched(c: Config, s: State, steps: seq<Step>, l: Loc)
    requires ConfigOk(c) && IsRun(c, s, steps)
    decreases |steps|
  {
    steps == [] ||
    (!(steps[0].UserWrite? && steps[0].at == l) && !MayWrite(c, s, l)
     && Untouched(c, Next(c, s, steps[0]), steps[1..], l))
  }

  // Such a byte keeps its value: in particular what a finished transfer has delivered
  // stays, until someone writes it or a new transfer that covers it is started.
  lemma {:induction false} UntouchedKept(c: Config, s: State, steps: seq<Step>, l: Loc)
    requires Inv(c, s) && ConfigOk(c) && IsRun(c, s, steps) && AllInOrder(c, s, steps) && Untouched(c, s, steps, l)
    ensures After(c, s, steps).mem(l) == s.mem(l)
    decreases |steps|
  {
    hide Inv, Enabled, Next, ConfigOk, InOrder, MayWrite, Sized;
    if steps != [] {
      StepFrame(c, s, steps[0], l);
      StepInv(c, s, steps[0]);
      UntouchedKept(c, Next(c, s, steps[0]), steps[1..], l);
    }
  }
}

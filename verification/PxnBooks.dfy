/** Every step of the data plane keeps the counters of the pipelines and the accounts of the
    proxy buffers, if allocators are reset when idle and failed transfers are let go when
    nothing of their pipelines is under way. */
module PxnBooks {
  import opened Chunks
  import opened Layout
  import opened ProxyBuffer
  import opened FlowControl
  import opened PxnModel
  import opened PxnInvariant
  import opened PxnQueues
  import opened PxnFlags
  import opened PxnCounts
  import opened PxnSteps
  import opened PxnFailure

  /* ---------- the first state ---------- */

  lemma InitCounts(c: Config, mem: Memory)
    requires ConfigOk(c)
    ensures var s := Init(c, mem); CountsOk(c, s.pipes, s.xs, Wrs(s))
  {
    var s := Init(c, mem);
    assert Wrs(s) == {};
    forall k | 0 <= k < |s.pipes|
      ensures CountOk(c, s.pipes[k], k, s.xs, {})
    {
      assert Via({}, k) == {};
    }
  }

  lemma {:induction false} OwedNothing(c: Config, pipes: seq<Pipe>, g: nat, upTo: nat)
    requires upTo <= |pipes| == |c.pipes|
    requires forall k :: 0 <= k < |pipes| ==> pipes[k].copying == [] && pipes[k].inflight == []
    ensures OwedOn(c, pipes, g, upTo) == 0
  {
    if upTo > 0 {
      OwedNothing(c, pipes, g, upTo - 1);
      assert CopyingLens(pipes[upTo - 1].copying) == [];
    }
  }

  lemma InitBufs(c: Config, mem: Memory)
    requires ConfigOk(c)
    ensures var s := Init(c, mem); BufsOk(c, s.pipes, s.bufs) && RecordsOk(c, s.pipes)
  {
    var s := Init(c, mem);
    forall g | 0 <= g < |s.bufs|
      ensures BufOk(s.bufs[g], c.bufSize[g], OwedOn(c, s.pipes, g, |s.pipes|))
    {
      OwedNothing(c, s.pipes, g, |s.pipes|);
    }
  }

  lemma InitInv(c: Config, mem: Memory)
    requires ConfigOk(c)
    ensures Inv(c, Init(c, mem))
  {
    hide Core, BufsOk, RecordsOk, CountsOk;
    InitCore(c, mem);
    InitCounts(c, mem);
    InitBufs(c, mem);
  }

  /* ---------- steps that leave the books alone ---------- */

  ghost predicate SameBooks(c: Config, s: State, s': State) {
    && s'.pipes == s.pipes && s'.bufs == s.bufs && s'.stage == s.stage && Wrs(s') == Wrs(s)
    && KeepsDone(c, s.xs, s'.xs)
  }

  lemma BooksSame(c: Config, s: State, s': State)
    requires Books(c, s) && SameBooks(c, s, s')
    ensures Books(c, s')
  {
    hide CountsOk, BufsOk, BlocksOk, RecordsOk;
    CountsSame(c, s.pipes, s.xs, Wrs(s), s'.xs, Wrs(s));
  }

  lemma StatusBooks(c: Config, s: State, step: Step)
    requires ConfigOk(c) && Sized(c, s) && Enabled(c, s, step)
    requires step.Begin? || step.Activate? || step.Finish? || step.PostFails? || step.PostProxyFails? || step.UserWrite?
    ensures SameBooks(c, s, Next(c, s, step))
  {
    hide ConfigOk, NextPostDirect, NextAssignProxy, NextSubmit, NextSubmitFull, NextLaunch, NextDispatch, NextDrain,
         NextPostProxy, NextPoll, NextFail;
  }

  lemma QueueBooks(c: Config, s: State, step: Step)
    requires ConfigOk(c) && Sized(c, s) && Enabled(c, s, step)
    requires step.Recycle? || step.PopRequest? || step.Launch? || step.CopyFails? || step.Land? || step.Callback?
      || step.PushResult? || step.DropResult?
    ensures SameBooks(c, s, Next(c, s, step))
  {
    hide ConfigOk, NextPostDirect, NextAssignProxy, NextSubmit, NextSubmitFull, NextDispatch, NextDrain,
         NextPostProxy, NextPoll, NextFail;
  }

  lemma ExecuteBooks(c: Config, s: State, w: Wr)
    requires ConfigOk(c) && Sized(c, s) && Enabled(c, s, Execute(w))
    ensures SameBooks(c, s, Next(c, s, Execute(w)))
  {
    hide ConfigOk, NextPostDirect, NextAssignProxy, NextSubmit, NextSubmitFull, NextLaunch, NextDispatch, NextDrain,
         NextPostProxy, NextPoll, NextFail;
    assert Wrs(Next(c, s, Execute(w))) == Wrs(s);
  }

  lemma PollFailsBooks(c: Config, s: State, w: Wr)
    requires Core(c, s) && Enabled(c, s, PollFails(w))
    ensures SameBooks(c, s, Next(c, s, PollFails(w)))
  {
    hide Core, NextPostDirect, NextAssignProxy, NextSubmit, NextSubmitFull, NextLaunch, NextDispatch, NextDrain,
         NextPostProxy, NextPoll, NextFail;
    PollFailsWrs(c, s, w);
  }

  /* ---------- a chunk is handed out ---------- */

  lemma PostDirectBooks(c: Config, s: State, x: nat, n: nat, q: nat)
    requires Inv(c, s) && Enabled(c, s, PostDirect(x, n, q))
    ensures Books(c, Next(c, s, PostDirect(x, n, q)))
  {
    hide Core, CountsOk, RecordsOk, BufsOk, BlocksOk, NextAssignProxy, NextSubmit, NextSubmitFull, NextLaunch,
         NextDispatch, NextDrain, NextPostProxy, NextPoll, NextFail, Post, Sge, ChunkAt;
    CoreSized(c, s);
    PostDirectWrs(c, s, x, n, q);
    var s' := Next(c, s, PostDirect(x, n, q));
    var id := Cid(x, s.xs[x].next);
    var w := Wr(n, q, id, None, Src(c, id), Dst(c, id), Sge(Len(c, id)));
    assert Wrs(s') == Wrs(s) + {w};
    forall l: nat
      ensures |Via(Wrs(s) + {w}, l)| == |Via(Wrs(s), l)|
    {
      ViaPost(Wrs(s), w, l);
    }
    CountsSame(c, s.pipes, s.xs, Wrs(s), s'.xs, Wrs(s) + {w});
    BlocksSame(c, s.bufs, s.stage, s'.bufs, s'.stage);
  }

  lemma CoreSized(c: Config, s: State)
    requires Core(c, s)
    ensures ConfigOk(c) && Sized(c, s)
  {
    hide FlowOk, WrsOk, LostOk, RefusedOk, JobsOk, FlagsOk, ResultsOk, ThreadOk, RequestsOk, CopyingOk, PendingOk,
         StagesOk, XfersOk;
  }

  lemma BooksParts(c: Config, s: State)
    requires Books(c, s)
    ensures CountsOk(c, s.pipes, s.xs, Wrs(s)) && RecordsOk(c, s.pipes)
    ensures BufsOk(c, s.pipes, s.bufs) && BlocksOk(c, s.bufs, s.stage)
  {
    hide CountsOk, RecordsOk, BufsOk, BlocksOk;
  }

  lemma CoreParts(c: Config, s: State)
    requires Core(c, s)
    ensures XfersOk(c, s.xs, s.stage) && StagesOk(c, s.stage) && PendingOk(c, s.pipes, s.stage)
    ensures CopyingOk(c, s.pipes, s.stage, s.copies, s.nextId) && WrsOk(s.posted, Back(s), s.stage)
    ensures FlagsOk(s.copies, s.jobs, s.flags, s.pool, s.recycleQ) && JobsOk(c, s.jobs, s.stage, s.copies)
    ensures LostOk(s.xs, s.executed, s.lost) && FlowOk(c, s.flow, s.posted + s.executed)
    ensures RequestsOk(c, s.reqQ, s.stage, s.copies) && RefusedOk(c, s.pipes, s.xs)
    ensures ThreadOk(c, s.ct, s.stage, s.copies) && ResultsOk(s.resQ, s.copies)
  {
    hide FlowOk, WrsOk, LostOk, RefusedOk, JobsOk, FlagsOk, ResultsOk, ThreadOk, RequestsOk, CopyingOk, PendingOk,
         StagesOk, XfersOk;
  }

  lemma AssignProxyCounts(c: Config, s: State, k: nat, s': State)
    requires ConfigOk(c) && Sized(c, s) && Enabled(c, s, AssignProxy(k)) && s' == NextAssignProxy(c, s, k)
    requires CountsOk(c, s.pipes, s.xs, Wrs(s)) && BufsOk(c, s.pipes, s.bufs) && RecordsOk(c, s.pipes)
    ensures CountsOk(c, s'.pipes, s'.xs, Wrs(s')) && BufsOk(c, s'.pipes, s'.bufs)
      && RecordsOk(c, s'.pipes)
  {
    hide ProxyRoom, BufOk;
    var wrs := Wrs(s);
    assert CountOk(c, s.pipes[k], k, s.xs, wrs);
    CountsAt(c, s.pipes, s.xs, wrs, k, s'.pipes[k], s'.xs, wrs);
    OwedSame(s.pipes[k], s'.pipes[k]);
    BufsOwedSame(c, s.pipes, s.bufs, k, s'.pipes[k]);
  }

  lemma AssignProxyBooks(c: Config, s: State, k: nat)
    requires Inv(c, s) && Enabled(c, s, AssignProxy(k))
    ensures Books(c, Next(c, s, AssignProxy(k)))
  {
    hide Core, CountsOk, RecordsOk, BufsOk, BlocksOk, ProxyRoom, NextPostDirect, NextSubmit, NextSubmitFull,
         NextLaunch, NextDispatch, NextDrain, NextPostProxy, NextPoll, NextFail;
    CoreSized(c, s);
    var s' := Next(c, s, AssignProxy(k));
    AssignProxyCounts(c, s, k, s');
    BlocksSame(c, s.bufs, s.stage, s'.bufs, s'.stage);
  }

  /* ---------- a copy is submitted ---------- */

  lemma SubmitCounts(c: Config, s: State, k: nat, s': State)
    requires ConfigOk(c) && Sized(c, s) && CanSubmit(c, s, k) && s' == NextSubmit(c, s, k)
    requires PendingOk(c, s.pipes, s.stage) && StagesOk(c, s.stage)
    requires CopyingOk(c, s.pipes, s.stage, s.copies, s.nextId)
    requires CountsOk(c, s.pipes, s.xs, Wrs(s)) && BufsOk(c, s.pipes, s.bufs) && RecordsOk(c, s.pipes)
    ensures CountsOk(c, s'.pipes, s'.xs, Wrs(s')) && BufsOk(c, s'.pipes, s'.bufs)
      && RecordsOk(c, s'.pipes)
  {
    hide StagesOk, PendingOk, CopyingOk, ChunkAt, TryAlloc, AlignUp;
    HeadFacts(c, s, k);
    var g := c.pipes[k].gpu;
    var wrs := Wrs(s);
    assert CountOk(c, s.pipes[k], k, s.xs, wrs);
    CountsAt(c, s.pipes, s.xs, wrs, k, s'.pipes[k], s'.xs, wrs);
    assert BufOk(s.bufs[g], c.bufSize[g], OwedOn(c, s.pipes, g, |s.pipes|));
    AllocOffsets(s.bufs[g], c.bufSize[g], Len(c, Head(c, s, k)));
    OwedSubmit(s.pipes[k], s'.pipes[k].copying[|s.pipes[k].copying|]);
    OwedSame(s.pipes[k].(copying := s'.pipes[k].copying), s'.pipes[k]);
    BufsAt(c, s.pipes, s.bufs, k, s'.pipes[k], s'.bufs[g]);
  }

  // While the totals of a buffer have met, no chunk occupies it.
  lemma MetNothingHeld(c: Config, s: State, g: nat)
    requires ConfigOk(c) && Sized(c, s) && g < |s.bufs|
    requires XfersOk(c, s.xs, s.stage) && StagesOk(c, s.stage)
    requires CopyingOk(c, s.pipes, s.stage, s.copies, s.nextId) && WrsOk(s.posted, Back(s), s.stage)
    requires CountsOk(c, s.pipes, s.xs, Wrs(s)) && RecordsOk(c, s.pipes)
    requires BufsOk(c, s.pipes, s.bufs) && s.bufs[g].free >= s.bufs[g].alloc
    ensures forall id :: Holds(s.stage, id) ==> Held(s.stage[id]).value.gpu != g
  {
    hide XfersOk, StagesOk, CopyingOk, WrsOk, CountsOk, RecordsOk;
    assert BufOk(s.bufs[g], c.bufSize[g], OwedOn(c, s.pipes, g, |s.pipes|));
    forall id | Holds(s.stage, id)
      ensures Held(s.stage[id]).value.gpu != g
    {
      NothingOwedNothingHeld(c, s, g, id);
    }
  }

  lemma SubmitBlocks(c: Config, s: State, k: nat, s': State)
    requires Inv(c, s) && CanSubmit(c, s, k) && s' == NextSubmit(c, s, k)
    ensures BlocksOk(c, s'.bufs, s'.stage)
  {
    hide Core, XfersOk, StagesOk, PendingOk, CopyingOk, WrsOk, CountsOk, RecordsOk, ChunkAt, TryAlloc, BlocksOk;
    CoreSized(c, s);
    CoreParts(c, s);
    HeadFacts(c, s, k);
    SubmitStage(c, s, k);
    var g := c.pipes[k].gpu;
    var cid := Head(c, s, k);
    assert BufOk(s.bufs[g], c.bufSize[g], OwedOn(c, s.pipes, g, |s.pipes|));
    if s.bufs[g].free >= s.bufs[g].alloc {
      MetNothingHeld(c, s, g);
    }
    BlocksSubmit(c, s.bufs, s.stage, cid, g, Len(c, cid), k, s.nextId);
  }

  lemma SubmitBooks(c: Config, s: State, k: nat)
    requires Inv(c, s) && Enabled(c, s, Submit(k))
    ensures Books(c, Next(c, s, Submit(k)))
  {
    hide Core, CountsOk, RecordsOk, BufsOk, BlocksOk, XfersOk, StagesOk, PendingOk, CopyingOk, WrsOk, TryAlloc,
         ChunkAt, NextPostDirect, NextAssignProxy, NextSubmitFull, NextLaunch, NextDispatch, NextDrain, NextPostProxy,
         NextPoll, NextFail;
    CoreSized(c, s);
    CoreParts(c, s);
    var s' := NextSubmit(c, s, k);
    SubmitCounts(c, s, k, s');
    SubmitBlocks(c, s, k, s');
  }

  lemma SubmitFullBufs(c: Config, s: State, k: nat)
    requires Inv(c, s) && CanSubmit(c, s, k)
    ensures var s' := NextSubmitFull(c, s, k); BufsOk(c, s'.pipes, s'.bufs) && BlocksOk(c, s'.bufs, s'.stage)
  {
    hide Core, XfersOk, StagesOk, PendingOk, CopyingOk, WrsOk, CountsOk, RecordsOk, ChunkAt, TryAlloc, BlocksOk;
    CoreSized(c, s);
    CoreParts(c, s);
    HeadFacts(c, s, k);
    var s' := NextSubmitFull(c, s, k);
    var g := c.pipes[k].gpu;
    var len := Len(c, Head(c, s, k));
    assert BufOk(s.bufs[g], c.bufSize[g], OwedOn(c, s.pipes, g, |s.pipes|));
    AllocOffsets(s.bufs[g], c.bufSize[g], len);
    if s.bufs[g].free >= s.bufs[g].alloc {
      MetNothingHeld(c, s, g);
    }
    assert s.pipes[k := s.pipes[k]] == s.pipes;
    BufsAt(c, s.pipes, s.bufs, k, s.pipes[k], s'.bufs[g]);
    BlocksSame(c, s.bufs, s.stage, s'.bufs, s.stage);
  }

  lemma SubmitFullBooks(c: Config, s: State, k: nat)
    requires Inv(c, s) && Enabled(c, s, SubmitFull(k))
    ensures Books(c, Next(c, s, SubmitFull(k)))
  {
    hide Core, CountsOk, RecordsOk, BufsOk, BlocksOk, TryAlloc, ChunkAt, NextPostDirect, NextAssignProxy, NextSubmit,
         NextLaunch, NextDispatch, NextDrain, NextPostProxy, NextPoll, NextFail;
    CoreSized(c, s);
    SubmitFullBufs(c, s, k);
  }

  /* ---------- a result reaches its chunk ---------- */

  lemma DispatchCounts(c: Config, s: State, k: nat, j: nat, s': State)
    requires ConfigOk(c) && Sized(c, s) && Enabled(c, s, Dispatch(k, j)) && s' == NextDispatch(c, s, k, j)
    requires CountsOk(c, s.pipes, s.xs, Wrs(s)) && BufsOk(c, s.pipes, s.bufs) && RecordsOk(c, s.pipes)
    ensures CountsOk(c, s'.pipes, s'.xs, Wrs(s')) && BufsOk(c, s'.pipes, s'.bufs)
      && RecordsOk(c, s'.pipes)
  {
    hide BufOk, BufsOk;
    var wrs := Wrs(s);
    assert CountOk(c, s.pipes[k], k, s.xs, wrs);
    CountsAt(c, s.pipes, s.xs, wrs, k, s'.pipes[k], s'.xs, wrs);
    OwedSame(s.pipes[k], s'.pipes[k]);
    BufsOwedSame(c, s.pipes, s.bufs, k, s'.pipes[k]);
  }

  lemma DispatchBooks(c: Config, s: State, k: nat, j: nat)
    requires Inv(c, s) && Enabled(c, s, Dispatch(k, j))
    ensures Books(c, Next(c, s, Dispatch(k, j)))
  {
    hide Core, CountsOk, RecordsOk, BufsOk, BlocksOk, NextPostDirect, NextAssignProxy, NextSubmit, NextSubmitFull,
         NextLaunch, NextDrain, NextPostProxy, NextPoll, NextFail;
    CoreSized(c, s);
    DispatchCounts(c, s, k, j, NextDispatch(c, s, k, j));
  }

  /* ---------- records are given back ---------- */

  // Pipeline k gives back its first n records and changes nothing but its snapshot.
  lemma GiveBack(c: Config, s: State, k: nat, n: nat, p': Pipe, s': State)
    requires ConfigOk(c) && Sized(c, s) && k < |c.pipes| && n <= |s.pipes[k].inflight|
    requires p' == s.pipes[k].(inflight := s.pipes[k].inflight[n..], snapshot := p'.snapshot)
    requires CountOk(c, p', k, s.xs, Wrs(s))
    requires s' == s.(pipes := s.pipes[k := p'],
                      bufs := s.bufs[c.pipes[k].gpu := FreeAll(s.bufs[c.pipes[k].gpu], s.pipes[k].inflight[..n])])
    requires CountsOk(c, s.pipes, s.xs, Wrs(s)) && BufsOk(c, s.pipes, s.bufs) && RecordsOk(c, s.pipes)
    requires BlocksOk(c, s.bufs, s.stage)
    ensures CountsOk(c, s'.pipes, s'.xs, Wrs(s')) && BufsOk(c, s'.pipes, s'.bufs)
      && RecordsOk(c, s'.pipes)
    ensures BlocksOk(c, s'.bufs, s'.stage)
  {
    hide CountOk, BlocksOk;
    var g := c.pipes[k].gpu;
    assert PipeOk(c, c.pipes[k]);
    CountsAt(c, s.pipes, s.xs, Wrs(s), k, p', s.xs, Wrs(s));
    assert BufOk(s.bufs[g], c.bufSize[g], OwedOn(c, s.pipes, g, |s.pipes|));
    OwedOnAtLeast(c, s.pipes, g, k, |s.pipes|);
    OwedFree(s.pipes[k], n);
    OwedSame(s.pipes[k].(inflight := p'.inflight), p');
    BufsAt(c, s.pipes, s.bufs, k, p', s'.bufs[g]);
    BlocksSame(c, s.bufs, s.stage, s'.bufs, s.stage);
  }

  lemma DrainBooks(c: Config, s: State, k: nat)
    requires Inv(c, s) && Enabled(c, s, Drain(k))
    ensures Books(c, Next(c, s, Drain(k)))
  {
    hide Core, BlocksOk, BufsOk, RecordsOk, NextPostDirect, NextAssignProxy, NextSubmit, NextSubmitFull, NextLaunch,
         NextDispatch, NextPostProxy, NextPoll, NextFail;
    CoreSized(c, s);
    assert PipeOk(c, c.pipes[k]);
    CountDrain(c, s.pipes[k], k, s.xs, Wrs(s));
    GiveBack(c, s, k, DrainCount(s.pipes[k]), NextDrain(c, s, k).pipes[k], NextDrain(c, s, k));
  }

  lemma CleanupBooks(c: Config, s: State, k: nat)
    requires Inv(c, s) && Enabled(c, s, Cleanup(k))
    ensures Books(c, Next(c, s, Cleanup(k)))
  {
    hide Core, BlocksOk, BufsOk, RecordsOk, NextPostDirect, NextAssignProxy, NextSubmit, NextSubmitFull, NextLaunch,
         NextDispatch, NextDrain, NextPostProxy, NextPoll, NextFail;
    CoreSized(c, s);
    var p := s.pipes[k];
    assert p.inflight[|p.inflight|..] == [] && p.inflight[..|p.inflight|] == p.inflight;
    assert PipeOk(c, c.pipes[k]);
    assert CountOk(c, p, k, s.xs, Wrs(s));
    GiveBack(c, s, k, |p.inflight|, p.(inflight := []), Next(c, s, Cleanup(k)));
  }

  lemma ResetBooks(c: Config, s: State, g: nat)
    requires Inv(c, s) && Enabled(c, s, Reset(g)) && InOrder(c, s, Reset(g))
    ensures Books(c, Next(c, s, Reset(g)))
  {
    hide Core, BlocksOk, RecordsOk, CountsOk, XfersOk, StagesOk, PendingOk, CopyingOk, WrsOk, NextPostDirect,
         NextAssignProxy, NextSubmit, NextSubmitFull, NextLaunch, NextDispatch, NextDrain, NextPostProxy, NextPoll,
         NextFail;
    CoreSized(c, s);
    CoreParts(c, s);
    var s' := Next(c, s, Reset(g));
    MetNothingHeld(c, s, g);
    assert BufOk(s.bufs[g], c.bufSize[g], OwedOn(c, s.pipes, g, |s.pipes|));
    BlocksSame(c, s.bufs, s.stage, s'.bufs, s'.stage);
    forall h | 0 <= h < |s'.bufs|
      ensures BufOk(s'.bufs[h], c.bufSize[h], OwedOn(c, s.pipes, h, |s.pipes|))
    {
      assert BufOk(s.bufs[h], c.bufSize[h], OwedOn(c, s.pipes, h, |s.pipes|));
    }
  }

  /* ---------- a staged chunk is posted ---------- */

  lemma PostProxyCounts(c: Config, s: State, k: nat, q: nat, s': State)
    requires Ready(c, s, k, q) && s' == NextPostProxy(c, s, k, q)
    requires CopyingOk(c, s.pipes, s.stage, s.copies, s.nextId) && StagesOk(c, s.stage)
    requires XfersOk(c, s.xs, s.stage) && FlagsOk(s.copies, s.jobs, s.flags, s.pool, s.recycleQ)
    requires ProxyWr(c, s, k, q) !in Wrs(s) && Wrs(s') == Wrs(s) + {ProxyWr(c, s, k, q)}
    requires CountsOk(c, s.pipes, s.xs, Wrs(s))
    ensures CountsOk(c, s'.pipes, s'.xs, Wrs(s'))
  {
    hide CopyingOk, StagesOk, FlagsOk, StageOk, EntryOk, XfersOk, Total, Ready, NextPostProxy, Post;
    PostedFrontIs(c, s, k, q, s');
    FrontFacts(c, s, k, q);
    var w := ProxyWr(c, s, k, q);
    var wrs := Wrs(s);
    NotAllDone(c, s.xs, s.stage, FrontCid(c, s, k));
    assert CountOk(c, s.pipes[k], k, s.xs, wrs);
    CountPost(c, s.pipes[k], k, s.xs, wrs, w, s.pipes[k].copying[0].len, s'.xs);
    forall l: nat | l != k
      ensures |Via(wrs + {w}, l)| == |Via(wrs, l)|
    {
      ViaPost(wrs, w, l);
    }
    CountsAt(c, s.pipes, s.xs, wrs, k, s'.pipes[k], s'.xs, wrs + {w});
  }

  lemma PostProxyBufs(c: Config, s: State, k: nat, q: nat, s': State)
    requires Ready(c, s, k, q) && s' == NextPostProxy(c, s, k, q)
    requires CopyingOk(c, s.pipes, s.stage, s.copies, s.nextId) && StagesOk(c, s.stage)
    requires FlagsOk(s.copies, s.jobs, s.flags, s.pool, s.recycleQ)
    requires BufsOk(c, s.pipes, s.bufs) && RecordsOk(c, s.pipes) && BlocksOk(c, s.bufs, s.stage)
    ensures BufsOk(c, s'.pipes, s'.bufs) && RecordsOk(c, s'.pipes) && BlocksOk(c, s'.bufs, s'.stage)
  {
    hide CopyingOk, StagesOk, FlagsOk, EntryOk, BufsOk, BlocksOk, StageOk, Ready, NextPostProxy, ProxyWr, Post;
    PostedFrontIs(c, s, k, q, s');
    FrontFacts(c, s, k, q);
    PostRecord(c, s, k);
    OwedPost(s.pipes[k]);
    OwedSame(s.pipes[k].(copying := s'.pipes[k].copying, inflight := s'.pipes[k].inflight), s'.pipes[k]);
    BufsOwedSame(c, s.pipes, s.bufs, k, s'.pipes[k]);
    BlocksSame(c, s.bufs, s.stage, s'.bufs, s'.stage);
  }

  lemma PostRecord(c: Config, s: State, k: nat)
    requires ConfigOk(c) && k < |c.pipes| && k < |s.pipes| && s.pipes[k].copying != []
    requires ValidCid(c, FrontCid(c, s, k)) && s.pipes[k].copying[0].len == Len(c, FrontCid(c, s, k))
    ensures s.pipes[k].copying[0].len >= 1 && s.pipes[k].copying[0].len + 255 < WORD
  {
    var id := FrontCid(c, s, k);
    assert PipeOk(c, c.pipes[k]);
    ChunkInside(c.reqs[id.x], id.i);
  }

  lemma PostProxyBooks(c: Config, s: State, k: nat, q: nat)
    requires Inv(c, s) && Enabled(c, s, PostProxy(k, q))
    ensures Books(c, Next(c, s, PostProxy(k, q)))
  {
    hide Core, CountsOk, RecordsOk, BufsOk, BlocksOk, XfersOk, StagesOk, PendingOk, CopyingOk, WrsOk, FlagsOk, FlowOk,
         NextPostDirect, NextAssignProxy, NextSubmit, NextSubmitFull, NextLaunch, NextDispatch, NextDrain, NextPoll,
         NextFail;
    CoreSized(c, s);
    CoreParts(c, s);
    var s' := NextPostProxy(c, s, k, q);
    PostProxyWrs(c, s, k, q, s');
    PostProxyCounts(c, s, k, q, s');
    PostProxyBufs(c, s, k, q, s');
  }

  /* ---------- a completion is polled ---------- */

  lemma PollCounts(c: Config, s: State, w: Wr, s': State)
    requires ConfigOk(c) && Sized(c, s) && Enabled(c, s, Poll(w)) && s' == NextPoll(c, s, w)
    requires XfersOk(c, s.xs, s.stage) && StagesOk(c, s.stage) && WrsOk(s.posted, Back(s), s.stage)
    requires CountsOk(c, s.pipes, s.xs, Wrs(s))
    ensures CountsOk(c, s'.pipes, s'.xs, Wrs(s) - {w})
  {
    hide XfersOk, StagesOk, WrsOk, WrOk, Total;
    PollWr(c, s, w);
    var wrs := Wrs(s);
    forall l: nat | w.via != Some(l)
      ensures |Via(wrs - {w}, l)| == |Via(wrs, l)|
    {
      ViaPoll(wrs, w, l);
    }
    if w.via.Some? {
      var k := w.via.value;
      assert CountOk(c, s.pipes[k], k, s.xs, wrs);
      CountPoll(c, s.pipes[k], k, s.xs, wrs, w, s'.xs);
      CountsAt(c, s.pipes, s.xs, wrs, k, s'.pipes[k], s'.xs, wrs - {w});
    } else {
      CountsSame(c, s.pipes, s.xs, wrs, s'.xs, wrs - {w});
    }
  }

  lemma PollBufs(c: Config, s: State, w: Wr, s': State)
    requires ConfigOk(c) && Sized(c, s) && Enabled(c, s, Poll(w)) && s' == NextPoll(c, s, w)
    requires BufsOk(c, s.pipes, s.bufs) && RecordsOk(c, s.pipes)
    ensures BufsOk(c, s'.pipes, s'.bufs) && RecordsOk(c, s'.pipes)
  {
    hide BufOk;
    var k := PipeOn(c, w.id.x, w.nic, |c.pipes|);
    if k.Some? {
      OwedSame(s.pipes[k.value], s'.pipes[k.value]);
      BufsOwedSame(c, s.pipes, s.bufs, k.value, s'.pipes[k.value]);
    }
  }

  lemma PollBooks(c: Config, s: State, w: Wr)
    requires Inv(c, s) && Enabled(c, s, Poll(w))
    ensures Books(c, Next(c, s, Poll(w)))
  {
    hide Core, CountsOk, RecordsOk, BufsOk, BlocksOk, XfersOk, StagesOk, PendingOk, CopyingOk, WrsOk, FlagsOk, FlowOk,
         WrOk, NextPoll, NextPostDirect, NextAssignProxy, NextSubmit, NextSubmitFull, NextLaunch, NextDispatch,
         NextDrain, NextPostProxy, NextFail, JobsOk, LostOk, RefusedOk;
    CoreSized(c, s);
    CoreParts(c, s);
    var s' := NextPoll(c, s, w);
    PollWr(c, s, w);
    PollShape(c, s, w, s');
    PollWrs(c, s, w);
    PollCounts(c, s, w, s');
    PollBufs(c, s, w, s');
    BlocksSame(c, s.bufs, s.stage, s'.bufs, s'.stage);
  }

  /* ---------- every step, every run ---------- */

  // No step but the cleanup of a failed transfer disturbs the lists, queues and flags, and
  // that does not if the callbacks of the transfer's copies have run.
  lemma StepCore(c: Config, s: State, step: Step)
    requires Core(c, s) && Enabled(c, s, step) && (step.Fail? ==> CalledBack(c, s, step.x))
    ensures Core(c, Next(c, s, step))
  {
    hide Core, Next, Enabled, CalledBack;
    match step
    case Begin(_) => StatusCore(c, s, step);
    case UserWrite(_, _) => QuietCore(c, s, step);
    case Activate(_) => StatusCore(c, s, step);
    case PostDirect(x, n, q) => PostDirectCore(c, s, x, n, q);
    case AssignProxy(k) => AssignProxyCore(c, s, k);
    case Submit(k) => SubmitCore(c, s, k);
    case SubmitFull(k) => SubmitFullCore(c, s, k);
    case Recycle => RecycleCore(c, s);
    case PopRequest => PopRequestCore(c, s);
    case Launch(f) => LaunchCore(c, s, f);
    case CopyFails => CopyFailsCore(c, s);
    case Land(id) => LandCore(c, s, id);
    case Callback(id) => CallbackCore(c, s, id);
    case PushResult => PushResultCore(c, s);
    case Dispatch(k, j) => DispatchCore(c, s, k, j);
    case DropResult => DropResultCore(c, s);
    case Drain(_) => RecordsCore(c, s, step);
    case PostProxy(k, q) => PostProxyCore(c, s, k, q);
    case Execute(w) => ExecuteCore(c, s, w);
    case Poll(w) => PollCore(c, s, w);
    case Cleanup(_) => RecordsCore(c, s, step);
    case Finish(_) => StatusCore(c, s, step);
    case PostFails(_, _, _) => MarkCore(c, s, step);
    case PostProxyFails(_, _) => MarkCore(c, s, step);
    case PollFails(w) => PollFailsCore(c, s, w);
    case Fail(x) => FailCore(c, s, x);
    case Reset(_) => QuietCore(c, s, step);
  }

  lemma StepBooks(c: Config, s: State, step: Step)
    requires Inv(c, s) && Enabled(c, s, step) && InOrder(c, s, step)
    ensures Books(c, Next(c, s, step))
  {
    hide Core, Books, Next, Enabled, SameBooks, Quiet;
    CoreSized(c, s);
    match step
    case PostDirect(x, n, q) => PostDirectBooks(c, s, x, n, q);
    case AssignProxy(k) => AssignProxyBooks(c, s, k);
    case Submit(k) => SubmitBooks(c, s, k);
    case SubmitFull(k) => SubmitFullBooks(c, s, k);
    case Dispatch(k, j) => DispatchBooks(c, s, k, j);
    case Drain(k) => DrainBooks(c, s, k);
    case PostProxy(k, q) => PostProxyBooks(c, s, k, q);
    case Poll(w) => PollBooks(c, s, w);
    case Cleanup(k) => CleanupBooks(c, s, k);
    case Fail(x) => FailBooks(c, s, x);
    case Reset(g) => ResetBooks(c, s, g);
    case _ => OtherBooks(c, s, step);
  }

  lemma OtherBooks(c: Config, s: State, step: Step)
    requires Inv(c, s) && Enabled(c, s, step)
    requires step.Begin? || step.Activate? || step.Finish? || step.PostFails? || step.PostProxyFails? || step.UserWrite?
      || step.Recycle? || step.PopRequest? || step.Launch? || step.CopyFails? || step.Land? || step.Callback?
      || step.PushResult? || step.DropResult? || step.Execute? || step.PollFails?
    ensures Books(c, Next(c, s, step))
  {
    hide Core, Books, Next, Enabled, SameBooks;
    CoreSized(c, s);
    if step.Execute? {
      ExecuteBooks(c, s, step.wr);
    } else if step.PollFails? {
      PollFailsBooks(c, s, step.wr);
    } else if step.Recycle? || step.PopRequest? || step.Launch? || step.CopyFails? || step.Land? || step.Callback?
           || step.PushResult? || step.DropResult? {
      QueueBooks(c, s, step);
    } else {
      StatusBooks(c, s, step);
    }
    BooksSame(c, s, Next(c, s, step));
  }

  lemma StepInv(c: Config, s: State, step: Step)
    requires Inv(c, s) && Enabled(c, s, step) && InOrder(c, s, step)
    ensures Inv(c, Next(c, s, step))
  {
    hide Core, Books, Next, Enabled, CalledBack;
    StepCore(c, s, step);
    StepBooks(c, s, step);
  }

  lemma {:induction false} RunInv(c: Config, s: State, steps: seq<Step>)
    requires Inv(c, s) && IsRun(c, s, steps) && AllInOrder(c, s, steps)
    ensures Inv(c, After(c, s, steps))
    decreases |steps|
  {
    hide InOrder;
    if steps != [] {
      StepInv(c, s, steps[0]);
      RunInv(c, Next(c, s, steps[0]), steps[1..]);
    }
  }
}

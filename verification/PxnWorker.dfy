/** The worker's loops over a pipeline as they are written: records freed one by one, copies
    submitted until something is full, RDMA posted from the front until something is not
    ready. Each is shown to be a run of steps of the transition system, so all that holds of
    its runs holds of these programs, and to stop only where no further step of its kind is
    enabled. The parameter s is the model's state, for the proof alone. */
module PxnWorker {
  import opened Chunks
  import opened Layout
  import opened ProxyBuffer
  import opened FlowControl
  import opened PxnModel
  import opened PxnCounts
  import opened SpscQueue
  import opened PxnRuns
  import opened CopyThread

  lemma PipeIn(c: Config, k: nat)
    requires ConfigOk(c) && k < |c.pipes|
    ensures var p := c.pipes[k];
      p.xfer < |c.reqs| && p.nic < c.nics && p.gpu < |c.bufSize| && WellFormed(c.reqs[p.xfer])
  {
    assert PipeOk(c, c.pipes[k]);
  }

  // The copy thread's own fields.
  ghost predicate SameThread(s: State, s': State) {
    s'.resQ == s.resQ && s'.pool == s.pool && s'.jobs == s.jobs && s'.ct == s.ct
  }

  // What the two larger steps change, field by field.
  lemma SubmitChanges(c: Config, s: State, k: nat, step: Step)
    requires ConfigOk(c) && Sized(c, s) && CanSubmit(c, s, k) && Enabled(c, s, step)
      && (step == Submit(k) || step == SubmitFull(k))
    ensures var s' := Next(c, s, step); var p := s.pipes[k]; var g := c.pipes[k].gpu;
      var t := ChunkAt(c.reqs[c.pipes[k].xfer], p.pending[0]);
      var (o, off) := TryAlloc(s.bufs[g], c.bufSize[g], t.len).value;
      && g < |s.bufs| && Sized(c, s') && PipeRunning(c, s', k)
      && s'.xs == s.xs && s'.flags == s.flags && s'.posted == s.posted && s'.recycleQ == s.recycleQ && s'.flow == s.flow
      && SameThread(s, s')
      && s'.nextId == s.nextId + 1
      && (step.Submit? ==>
            && s'.bufs == s.bufs[g := o]
            && s'.reqQ == s.reqQ + [CopyRequest(Local(t.localAddr), Proxy(g, off), t.len, s.nextId)]
            && s'.pipes == s.pipes[k := p.(pending := p.pending[1..],
                                           copying := p.copying
                                             + [CopyingChunk(p.pending[0], s.nextId, off, t.len, None, false)])])
      && (step.SubmitFull? ==> s'.bufs == s.bufs[g := Free(o, t.len)] && s'.reqQ == s.reqQ && s'.pipes == s.pipes)
  {
    hide TryAlloc, ChunkAt, Sge;
    assert PipeOk(c, c.pipes[k]);
  }

  lemma SubmitOrFull(c: Config, s: State, k: nat)
    requires ConfigOk(c) && Sized(c, s) && CanSubmit(c, s, k)
    ensures Enabled(c, s, Submit(k)) <==> |s.reqQ| < COPY_QUEUE_CAPACITY
    ensures Enabled(c, s, SubmitFull(k)) <==> |s.reqQ| == COPY_QUEUE_CAPACITY
  {
    hide ConfigOk, Sized, CanSubmit;
  }

  lemma PostChanges(c: Config, s: State, k: nat, q: nat)
    requires ConfigOk(c) && Sized(c, s) && Enabled(c, s, PostProxy(k, q))
    ensures var s' := Next(c, s, PostProxy(k, q)); var p := s.pipes[k];
      var x := c.pipes[k].xfer; var n := c.pipes[k].nic;
      var cc := p.copying[0];
      var t := ChunkAt(c.reqs[x], cc.chunk);
      && WellFormed(c.reqs[x]) && Sized(c, s') && PipeRunning(c, s', k)
      && SameThread(s, s') && s'.bufs == s.bufs && s'.nextId == s.nextId && s'.reqQ == s.reqQ
      && s'.flow == Post(s.flow, n, q)
      && s'.xs == s.xs[x := s.xs[x].(bytes := s.xs[x].bytes + t.len)]
      && s'.posted == s.posted
           + {Wr(n, q, Cid(x, cc.chunk), Some(k), Proxy(c.pipes[k].gpu, cc.addr),
                 ChunkDst(c.reqs[x], cc.chunk), Sge(t.len))}
      && s'.pipes == s.pipes[k := p.(copying := p.copying[1..], inflight := p.inflight + [cc.len],
                                     posted := p.posted + 1)]
      && (if |s.recycleQ| < COPY_QUEUE_CAPACITY then s'.recycleQ == s.recycleQ + [cc.flag.value] && s'.flags == s.flags
          else s'.recycleQ == s.recycleQ && s'.flags == s.flags - {cc.flag.value})
  {
    hide ChunkAt, Sge;
    assert PipeOk(c, c.pipes[k]);
    PostShape(s.flow, c.nics, c.qps, c.pipes[k].nic, q);
  }

  lemma PostShape(f: Counters, nics: nat, qps: nat, n: nat, q: nat)
    requires Shape(f, nics, qps) && n < nics && q < qps
    ensures Shape(Post(f, n, q), nics, qps)
  {
  }

  class PipelineWorker {
    const counters: WorkerCounters
    const thread: CopyThreadState
    var pipes: seq<Pipe>
    var bufs: seq<Offsets>
    var xs: seq<Xfer>
    var nextId: nat
    var posted: set<Wr>

    ghost predicate Valid(c: Config)
      reads this, thread, thread.requests, thread.results, thread.recycled
      reads thread.requests.buffer, thread.results.buffer, thread.recycled.buffer
      reads counters.nicPosted, counters.nicDone, counters.qpPosted, counters.qpDone
    {
      && counters.Valid() && counters.nics == c.nics && counters.qps == c.qps && counters.m == c.maxPerQp
      && thread.Valid() && Separate()
    }

    // No array is used twice.
    ghost predicate Separate() {
      && (thread.requests.buffer as object) != counters.nicPosted
      && (thread.requests.buffer as object) != counters.nicDone
      && (thread.results.buffer as object) != counters.nicPosted
      && (thread.results.buffer as object) != counters.nicDone
      && (thread.recycled.buffer as object) != counters.nicPosted
      && (thread.recycled.buffer as object) != counters.nicDone
    }

    // The object's fields are what the model's state says.
    ghost predicate Shows(s: State)
      requires counters.Sized()
      reads this, thread, thread.requests, thread.results, thread.recycled
      reads counters.nicPosted, counters.nicDone, counters.qpPosted, counters.qpDone
    {
      && pipes == s.pipes && bufs == s.bufs && xs == s.xs && nextId == s.nextId && posted == s.posted
      && thread.Shows(s) && counters.View() == s.flow
    }

    constructor (c: Config, noRequest: CopyRequest)
      requires ConfigOk(c)
      ensures Valid(c)
      ensures forall mem: Memory :: Shows(Init(c, mem))
    {
      counters := new WorkerCounters(c.nics, c.qps, c.maxPerQp);
      thread := new CopyThreadState(noRequest);
      pipes := seq(|c.pipes|, _ => Pipe([], [], [], 0, 0, 0, 0));
      bufs := seq(|c.bufSize|, _ => Offsets(0, 0));
      xs := seq(|c.reqs|, _ => Xfer(Waiting, 0, 0, 0, false));
      nextId, posted := 1, {};
    }

    // Free the records lens one by one.
    method FreeRecords(g: nat, lens: seq<nat>)
      requires g < |bufs|
      modifies this`bufs
      ensures bufs == old(bufs)[g := FreeAll(old(bufs)[g], lens)]
    {
      ghost var o := bufs[g];
      assert bufs[g := o] == bufs && lens[..0] == [];
      for i := 0 to |lens|
        invariant |bufs| == |old(bufs)| && bufs == old(bufs)[g := FreeAll(o, lens[..i])]
      {
        assert lens[..i + 1] == lens[..i] + [lens[i]];
        SumUpAppend(lens[..i], [lens[i]]);
        SumUpOne(lens[i]);
        bufs := bufs[g := Free(bufs[g], lens[i])];
      }
      assert lens[..|lens|] == lens;
    }

    // Free one record for each completion not seen before, oldest first.
    method DrainCompleted(c: Config, k: nat, ghost s: State)
      requires ConfigOk(c) && Sized(c, s) && Valid(c) && Shows(s) && Enabled(c, s, Drain(k))
      requires s.pipes[k].snapshot <= s.pipes[k].completed
      modifies this`pipes, this`bufs
      ensures Valid(c) && Shows(Next(c, s, Drain(k)))
    {
      hide ConfigOk, WorkerCounters.View, CopyThreadState.Valid, ChunkAt, TryAlloc, NicRoom, ProxyRoom, Balanced,
           Ring, NextPostDirect, NextAssignProxy, NextSubmit, NextSubmitFull, NextLaunch, NextDispatch, NextPostProxy,
           NextPoll, Init, Idle, NicOut, QpOut, Shape, Post;
      PipeIn(c, k);
      var p := pipes[k];
      var unseen := p.completed - p.snapshot;
      var n := if unseen < |p.inflight| then unseen else |p.inflight|;
      FreeRecords(c.pipes[k].gpu, p.inflight[..n]);
      pipes := pipes[k := p.(inflight := p.inflight[n..], snapshot := p.completed)];
    }

    // The object shows state s, in which pipeline k belongs to a running transfer.
    ghost predicate At(c: Config, k: nat, s: State)
      reads this, thread, thread.requests, thread.results, thread.recycled
      reads thread.requests.buffer, thread.results.buffer, thread.recycled.buffer
      reads counters.nicPosted, counters.nicDone, counters.qpPosted, counters.qpDone
    {
      ConfigOk(c) && Sized(c, s) && PipeRunning(c, s, k) && k < |pipes| && Valid(c) && Shows(s)
    }

    // One round of the submit loop: the first pending chunk's copy is submitted; or the
    // request queue is full and the room is given back; or the buffer has no room.
    method SubmitFront(c: Config, k: nat, ghost s: State) returns (sent: bool, full: bool)
      requires At(c, k, s) && s.pipes[k].pending != []
      modifies this`pipes, this`bufs, this`nextId, thread.requests, thread.requests.buffer
      ensures sent ==> CanSubmit(c, s, k) && Enabled(c, s, Submit(k)) && At(c, k, Next(c, s, Submit(k)))
      ensures sent ==> |pipes[k].pending| < |s.pipes[k].pending|
      ensures !sent && full ==> Enabled(c, s, SubmitFull(k)) && At(c, k, Next(c, s, SubmitFull(k)))
      ensures !sent && full ==> !Enabled(c, Next(c, s, SubmitFull(k)), Submit(k))
      ensures !sent && !full ==> !Enabled(c, s, Submit(k)) && At(c, k, s)
    {
      hide ConfigOk, TryAlloc, ChunkAt, Next, Init, NicRoom, ProxyRoom, Balanced, Ring, NicOut, QpOut, Shape,
           WorkerCounters.View, CopyThreadState.Valid, CopyThreadState.Shows;
      PipeIn(c, k);
      var t := ChunkAt(c.reqs[c.pipes[k].xfer], pipes[k].pending[0]);
      var room := TryAlloc(bufs[c.pipes[k].gpu], c.bufSize[c.pipes[k].gpu], t.len);
      if room.None? {
        return false, false;
      }
      sent := SubmitInto(c, k, s, room.value.0, room.value.1);
      full := !sent;
      if full {
        FullStays(c, s, k);
      }
    }

    lemma FullStays(c: Config, s: State, k: nat)
      requires ConfigOk(c) && Sized(c, s) && Enabled(c, s, SubmitFull(k)) && Sized(c, Next(c, s, SubmitFull(k)))
      ensures !Enabled(c, Next(c, s, SubmitFull(k)), Submit(k))
    {
      hide ConfigOk, TryAlloc, ChunkAt;
    }

    // The front chunk's copy, for which the allocator has room at off, is submitted.
    method SubmitInto(c: Config, k: nat, ghost s: State, o: Offsets, off: nat) returns (sent: bool)
      requires At(c, k, s) && CanSubmit(c, s, k)
      requires TryAlloc(s.bufs[c.pipes[k].gpu], c.bufSize[c.pipes[k].gpu],
                        ChunkAt(c.reqs[c.pipes[k].xfer], s.pipes[k].pending[0]).len) == Some((o, off))
      modifies this`pipes, this`bufs, this`nextId, thread.requests, thread.requests.buffer
      ensures sent ==> Enabled(c, s, Submit(k)) && At(c, k, Next(c, s, Submit(k)))
      ensures sent ==> |pipes[k].pending| < |s.pipes[k].pending|
      ensures !sent ==> Enabled(c, s, SubmitFull(k)) && At(c, k, Next(c, s, SubmitFull(k)))
    {
      hide ConfigOk, TryAlloc, ChunkAt, Balanced, Ring, Init, Idle, Next, NicOut, QpOut, Shape, WorkerCounters.View,
           WorkerCounters.Valid, CopyThreadState.Valid, Sized, Enabled;
      PipeIn(c, k);
      SubmitOrFull(c, s, k);
      var g := c.pipes[k].gpu;
      var p := pipes[k];
      var t := ChunkAt(c.reqs[c.pipes[k].xfer], p.pending[0]);
      sent := thread.Submit(CopyRequest(Local(t.localAddr), Proxy(g, off), t.len, nextId));
      SubmitChanges(c, s, k, if sent then Submit(k) else SubmitFull(k));
      if sent {
        MovePending(k, CopyingChunk(p.pending[0], nextId, off, t.len, None, false));
      }
      nextId, bufs := nextId + 1, bufs[g := if sent then o else Free(o, t.len)];
    }

    // The first pending chunk moves to the chunks being copied, as cc.
    method MovePending(k: nat, cc: CopyingChunk)
      requires k < |pipes| && pipes[k].pending != []
      modifies this`pipes
      ensures var p := old(pipes[k]);
        pipes == old(pipes)[k := p.(pending := p.pending[1..], copying := p.copying + [cc])]
    {
      var p := pipes[k];
      pipes := pipes[k := p.(pending := p.pending[1..], copying := p.copying + [cc])];
    }

    // Submit copies for the pending chunks of a pipeline until the list is empty, the buffer
    // has no room, or the request queue is full; then give the room back at once.
    method AdvanceCopies(c: Config, k: nat, ghost s: State) returns (ghost steps: seq<Step>)
      requires At(c, k, s)
      modifies this`pipes, this`bufs, this`nextId, thread.requests, thread.requests.buffer
      ensures ConfigOk(c) && IsRun(c, s, steps) && At(c, k, After(c, s, steps))
      ensures forall j :: 0 <= j < |steps| ==> steps[j] == Submit(k) || steps[j] == SubmitFull(k)
      ensures Sized(c, After(c, s, steps)) && !Enabled(c, After(c, s, steps), Submit(k))
    {
      hide ConfigOk, Sized, Enabled, Next, Valid;
      steps := [];
      ghost var cur := s;
      while pipes[k].pending != []
        invariant k < |pipes| && IsRun(c, s, steps) && cur == After(c, s, steps) && At(c, k, cur)
        invariant forall j :: 0 <= j < |steps| ==> steps[j] == Submit(k)
        decreases |pipes[k].pending|
      {
        var sent, full := SubmitFront(c, k, cur);
        if !sent && !full {
          return;
        }
        ghost var step := if sent then Submit(k) else SubmitFull(k);
        RunNext(c, s, steps, step);
        steps := steps + [step];
        cur := Next(c, cur, step);
        if !sent {
          return;
        }
      }
      NonePending(c, cur, k);
    }

    // The front chunk of a pipeline can be posted: its result is in, its copy done.
    predicate FrontDone(p: Pipe)
      reads thread`flags
    {
      && p.copying != [] && p.copying[0].received && p.copying[0].flag.Some?
      && p.copying[0].flag.value in thread.flags && thread.flags[p.copying[0].flag.value]
    }

    // Of the NIC's queue pairs q has the fewest outstanding, the first such if several tie.
    ghost predicate LeastLoaded(c: Config, f: Counters, n: nat, q: nat)
      requires Shape(f, c.nics, c.qps) && n < c.nics && q < c.qps
    {
      && (forall p: nat :: p < c.qps ==> QpOut(f, n, q) <= QpOut(f, n, p))
      && (forall p: nat :: p < q ==> QpOut(f, n, q) < QpOut(f, n, p))
    }

    // The queue pair for the front chunk, if the NIC is below its limit.
    method ChooseQp(c: Config, k: nat, ghost s: State) returns (found: bool, q: nat)
      requires At(c, k, s) && FrontDone(pipes[k])
      ensures found ==> Enabled(c, s, PostProxy(k, q)) && LeastLoaded(c, s.flow, c.pipes[k].nic, q)
      ensures !found ==> forall p :: !Enabled(c, s, PostProxy(k, p))
    {
      hide ProxyRoom, Balanced, Ring, Init, Idle, NicOut, QpOut, WorkerCounters.View, CopyThreadState.Valid;
      assert PipeOk(c, c.pipes[k]);
      found, q := counters.SelectQp(c.pipes[k].nic);
    }

    // The work request of a pipeline's front chunk.
    function FrontWr(c: Config, k: nat, q: nat, p: Pipe): Wr
      requires k < |c.pipes| && c.pipes[k].xfer < |c.reqs| && WellFormed(c.reqs[c.pipes[k].xfer]) && p.copying != []
    {
      var cc := p.copying[0];
      var req := c.reqs[c.pipes[k].xfer];
      Wr(c.pipes[k].nic, q, Cid(c.pipes[k].xfer, cc.chunk), Some(k), Proxy(c.pipes[k].gpu, cc.addr),
         ChunkDst(req, cc.chunk), Sge(ChunkAt(req, cc.chunk).len))
    }

    // The front chunk moves to the records; the transfer's bytes grow.
    method MoveFront(c: Config, k: nat, q: nat)
      requires k < |pipes| && k < |c.pipes| && c.pipes[k].xfer < |c.reqs| && c.pipes[k].xfer < |xs|
      requires WellFormed(c.reqs[c.pipes[k].xfer]) && pipes[k].copying != []
      modifies this`pipes, this`xs, this`posted
      ensures var p := old(pipes[k]); var x := c.pipes[k].xfer;
        && posted == old(posted) + {FrontWr(c, k, q, p)}
        && xs == old(xs)[x := old(xs)[x].(bytes := old(xs)[x].bytes + ChunkAt(c.reqs[x], p.copying[0].chunk).len)]
        && pipes == old(pipes)[k := p.(copying := p.copying[1..], inflight := p.inflight + [p.copying[0].len],
                                       posted := p.posted + 1)]
    {
      hide ChunkAt, Sge;
      var x := c.pipes[k].xfer;
      var p := pipes[k];
      posted := posted + {FrontWr(c, k, q, p)};
      xs := xs[x := xs[x].(bytes := xs[x].bytes + ChunkAt(c.reqs[x], p.copying[0].chunk).len)];
      pipes := pipes[k := p.(copying := p.copying[1..], inflight := p.inflight + [p.copying[0].len],
                             posted := p.posted + 1)];
    }

    // The front chunk is posted, and its flag goes back to the copy thread.
    method PostFront(c: Config, k: nat, q: nat, ghost s: State)
      requires At(c, k, s) && Enabled(c, s, PostProxy(k, q))
      modifies this`pipes, this`xs, this`posted, thread`flags, thread.recycled, thread.recycled.buffer
      modifies counters.nicPosted, counters.qpPosted
      ensures At(c, k, Next(c, s, PostProxy(k, q)))
      ensures |pipes[k].copying| < |s.pipes[k].copying|
    {
      hide ConfigOk, ChunkAt, Sge, ProxyRoom, Balanced, Ring, Init, Idle, Next, Post, NicOut, QpOut,
           WorkerCounters.View, CopyThreadState.Valid, Shape, Sized;
      PipeIn(c, k);
      PostChanges(c, s, k, q);
      counters.RecordPost(c.pipes[k].nic, q);
      thread.GiveBack(pipes[k].copying[0].flag.value);
      MoveFront(c, k, q);
    }

    // The NIC refuses the post: an error is recorded, and the chunk stays where it is.
    method PostRefused(c: Config, k: nat, q: nat, ghost s: State)
      requires At(c, k, s) && Enabled(c, s, PostProxy(k, q))
      modifies this`xs
      ensures Enabled(c, s, PostProxyFails(k, q)) && At(c, k, Next(c, s, PostProxyFails(k, q)))
      ensures c.pipes[k].xfer < |xs| && xs[c.pipes[k].xfer].failed
    {
      hide ChunkAt, Sge, ProxyRoom, Balanced, Ring, Init, Idle, Post, NicOut, QpOut, WorkerCounters.View,
           CopyThreadState.Valid, Shape, NextPostDirect, NextAssignProxy, NextSubmit, NextSubmitFull, NextLaunch,
           NextDispatch, NextDrain, NextPostProxy, NextPoll, NextFail, TryAlloc;
      var x := c.pipes[k].xfer;
      xs := xs[x := xs[x].(failed := true)];
    }

    // Post the RDMA of the front chunks, in order, until one's copy is not done, the NIC is at
    // its limit, or it refuses a post. accepts is how many posts it takes before it refuses one.
    method PostReady(c: Config, k: nat, accepts: nat, ghost s: State) returns (ghost steps: seq<Step>)
      requires At(c, k, s)
      modifies this`pipes, this`xs, this`posted, thread`flags, thread.recycled, thread.recycled.buffer
      modifies counters.nicPosted, counters.qpPosted
      ensures ConfigOk(c) && IsRun(c, s, steps) && At(c, k, After(c, s, steps))
      ensures |steps| <= accepts + 1
      ensures forall j :: 0 <= j < |steps| ==>
        (if j < accepts then steps[j].PostProxy? else steps[j].PostProxyFails?) && steps[j].k == k
      ensures Sized(c, After(c, s, steps))
      ensures |steps| <= accepts ==> forall q :: !Enabled(c, After(c, s, steps), PostProxy(k, q))
    {
      hide ConfigOk, Sized, Enabled, Next, Valid, CopyThreadState.Shows, CopyThreadState.Valid, WorkerCounters.View,
           WorkerCounters.Valid;
      steps := [];
      ghost var cur := s;
      var sent := 0;
      while FrontDone(pipes[k])
        invariant k < |pipes| && IsRun(c, s, steps) && cur == After(c, s, steps) && At(c, k, cur)
        invariant sent == |steps| <= accepts
        invariant forall j :: 0 <= j < |steps| ==> steps[j].PostProxy? && steps[j].k == k
        decreases |pipes[k].copying|
      {
        var found, q := ChooseQp(c, k, cur);
        if !found {
          return;
        }
        if sent == accepts {
          PostRefused(c, k, q, cur);
          RunNext(c, s, steps, PostProxyFails(k, q));
          steps := steps + [PostProxyFails(k, q)];
          return;
        }
        PostFront(c, k, q, cur);
        RunNext(c, s, steps, PostProxy(k, q));
        steps := steps + [PostProxy(k, q)];
        cur := Next(c, cur, PostProxy(k, q));
        sent := sent + 1;
      }
      FrontNotDone(c, cur, k);
    }

    lemma NonePending(c: Config, s: State, k: nat)
      requires At(c, k, s) && s.pipes[k].pending == []
      ensures !Enabled(c, s, Submit(k))
    {
    }

    lemma FrontNotDone(c: Config, s: State, k: nat)
      requires At(c, k, s) && !FrontDone(pipes[k])
      ensures forall q :: !Enabled(c, s, PostProxy(k, q))
    {
    }
  }
}

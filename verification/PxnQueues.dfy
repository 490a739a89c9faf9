/** How the steps of the data plane change the chunk lists and the copy thread's queues. */
module PxnQueues {
  import opened Chunks
  import opened Layout
  import opened ProxyBuffer
  import opened PxnModel
  import opened PxnInvariant

  /* ---------- transfers ---------- */

  // The worker's view of a transfer: its counters stay, its status goes forward.
  ghost predicate XferGoesOn(c: Config, t: Xfer, t': Xfer, allDone: bool) {
    && t'.next == t.next && t'.completed == t.completed
    && (Early(t'.status) ==> Early(t.status) && t'.failed == t.failed)
    && (t'.status == Finished ==> t.status == Finished || allDone)
    && (t'.status == Failed ==> t'.failed || (t.status == Failed && t'.failed == t.failed))
  }

  lemma XfersSame(c: Config, xs: seq<Xfer>, stage: map<Cid, Stage>, xs': seq<Xfer>, stage': map<Cid, Stage>)
    requires XfersOk(c, xs, stage)
    requires |xs'| == |xs| && stage'.Keys == stage.Keys
    requires forall id :: id in stage ==> (stage'[id].Done? <==> stage[id].Done?)
    requires forall x :: 0 <= x < |xs| ==>
      XferGoesOn(c, xs[x], xs'[x], AllDone(c, xs, x))
    requires forall id :: id in stage && id.x < |xs| && StatusFits(xs[id.x].status, stage[id]) ==>
      StatusFits(xs'[id.x].status, stage'[id])
    ensures XfersOk(c, xs', stage')
  {
    hide XferOk, StatusFits;
    forall x | 0 <= x < |xs|
      ensures XferOk(c, xs'[x], x, stage')
    {
      XferSame(c, xs, stage, xs'[x], stage', x);
    }
  }

  lemma XferSame(c: Config, xs: seq<Xfer>, stage: map<Cid, Stage>, t: Xfer, stage': map<Cid, Stage>, x: nat)
    requires x < |xs| && XferOk(c, xs[x], x, stage) && stage'.Keys == stage.Keys
    requires forall id :: id in stage ==> (stage'[id].Done? <==> stage[id].Done?)
    requires XferGoesOn(c, xs[x], t, AllDone(c, xs, x))
    requires forall id :: id in stage && id.x == x && StatusFits(xs[x].status, stage[id]) ==>
      StatusFits(t.status, stage'[id])
    ensures XferOk(c, t, x, stage')
  {
    hide StatusFits;
    assert DoneOf(stage', x) == DoneOf(stage, x);
  }

  lemma XfersAssign(c: Config, xs: seq<Xfer>, stage: map<Cid, Stage>, x: nat, st: Stage, bytes: nat)
    requires XfersOk(c, xs, stage) && x < |xs| && xs[x].status == Active && !st.Done? && !st.Dropped?
    requires x < |c.reqs| && c.reqs[x].max > 0 && xs[x].next < Total(c.reqs[x])
    ensures Cid(x, xs[x].next) !in stage
    ensures XfersOk(c, xs[x := xs[x].(next := xs[x].next + 1, bytes := bytes)], stage[Cid(x, xs[x].next) := st])
  {
    var xs' := xs[x := xs[x].(next := xs[x].next + 1, bytes := bytes)];
    var stage' := stage[Cid(x, xs[x].next) := st];
    forall y | 0 <= y < |xs|
      ensures XferOk(c, xs'[y], y, stage')
    {
      assert DoneOf(stage', y) == DoneOf(stage, y);
      assert XferOk(c, xs[y], y, stage);
    }
  }

  lemma OneMoreDone(stage: map<Cid, Stage>, id: Cid, y: nat)
    requires id in stage && !stage[id].Done?
    ensures |DoneOf(stage[id := Done], y)| == |DoneOf(stage, y)| + if y == id.x then 1 else 0
  {
    assert DoneOf(stage[id := Done], y) == DoneOf(stage, y) + if y == id.x then {id} else {};
  }

  lemma XfersDone(c: Config, xs: seq<Xfer>, stage: map<Cid, Stage>, id: Cid)
    requires XfersOk(c, xs, stage) && id in stage && !stage[id].Done?
    ensures id.x < |xs|
    ensures XfersOk(c, xs[id.x := xs[id.x].(completed := xs[id.x].completed + 1)], stage[id := Done])
  {
    hide XferOk;
    var x := id.x;
    var xs' := xs[x := xs[x].(completed := xs[x].completed + 1)];
    var stage' := stage[id := Done];
    forall y | 0 <= y < |xs|
      ensures XferOk(c, xs'[y], y, stage')
    {
      XferDone(c, xs[y], y, stage, id);
    }
  }

  lemma XferDone(c: Config, t: Xfer, y: nat, stage: map<Cid, Stage>, id: Cid)
    requires XferOk(c, t, y, stage) && id in stage && !stage[id].Done?
    ensures XferOk(c, if y == id.x then t.(completed := t.completed + 1) else t, y, stage[id := Done])
  {
    hide DoneOf;
    OneMoreDone(stage, id, y);
  }

  // A set of as many chunk indices as the transfer has chunks is all of them.
  lemma {:induction false} FullSubset(x: nat, n: nat, ids: set<Cid>)
    requires forall id :: id in ids ==> id.x == x && id.i < n
    ensures |ids| <= n
    ensures |ids| == n ==> forall i: nat :: i < n ==> Cid(x, i) in ids
  {
    if n == 0 {
      assert ids == {};
    } else {
      FullSubset(x, n - 1, ids - {Cid(x, n - 1)});
    }
  }

  // A transfer has completed every chunk exactly when every chunk is done; the counter
  // never passes the number of chunks.
  lemma CompletedIffAllDone(c: Config, xs: seq<Xfer>, stage: map<Cid, Stage>, x: nat)
    requires XfersOk(c, xs, stage) && x < |xs|
    ensures xs[x].completed <= xs[x].next
    ensures xs[x].completed >= Total(c.reqs[x]) <==>
      forall i: nat :: i < Total(c.reqs[x]) ==> Cid(x, i) in stage && stage[Cid(x, i)].Done?
  {
    assert XferOk(c, xs[x], x, stage);
    var done := DoneOf(stage, x);
    FullSubset(x, xs[x].next, done);
    if forall i: nat :: i < Total(c.reqs[x]) ==> Cid(x, i) in stage && stage[Cid(x, i)].Done? {
      AllCounted(x, Total(c.reqs[x]), done);
    }
  }

  lemma {:induction false} AllCounted(x: nat, n: nat, ids: set<Cid>)
    requires forall i: nat :: i < n ==> Cid(x, i) in ids
    ensures |ids| >= n
  {
    if n > 0 {
      AllCounted(x, n - 1, ids - {Cid(x, n - 1)});
    }
  }

  /* ---------- stages ---------- */

  lemma StagesUpdate(c: Config, stage: map<Cid, Stage>, id: Cid, st: Stage)
    requires StagesOk(c, stage) && StageOk(c, id, st)
    ensures StagesOk(c, stage[id := st])
  {
  }

  /* ---------- pending lists ---------- */

  ghost predicate SamePending(stage: map<Cid, Stage>, stage': map<Cid, Stage>) {
    forall id :: (id in stage && stage[id].Pending? ==> id in stage' && stage'[id] == stage[id]) &&
                 (id in stage' && stage'[id].Pending? ==> id in stage && stage'[id] == stage[id])
  }

  lemma PendingSame(c: Config, pipes: seq<Pipe>, stage: map<Cid, Stage>, pipes': seq<Pipe>, stage': map<Cid, Stage>)
    requires PendingOk(c, pipes, stage)
    requires |pipes'| == |pipes| && forall k :: 0 <= k < |pipes| ==> pipes'[k].pending == pipes[k].pending
    requires SamePending(stage, stage')
    ensures PendingOk(c, pipes', stage')
  {
    forall k, j | 0 <= k < |pipes'| && 0 <= j < |pipes'[k].pending|
      ensures IsPending(stage', Cid(c.pipes[k].xfer, pipes'[k].pending[j]), k)
    {
      assert IsPending(stage, Cid(c.pipes[k].xfer, pipes[k].pending[j]), k);
    }
  }

  ghost predicate PendingListed(c: Config, pipes: seq<Pipe>, stage: map<Cid, Stage>, id: Cid)
    requires |pipes| == |c.pipes| && id in stage && stage[id].Pending?
  {
    stage[id].k < |pipes| && c.pipes[stage[id].k].xfer == id.x && id.i in pipes[stage[id].k].pending
  }

  lemma PendingEntryAssign(c: Config, stage: map<Cid, Stage>, k: nat, i: nat, l: nat, v: nat)
    requires k < |c.pipes| && l < |c.pipes| && Cid(c.pipes[k].xfer, i) !in stage
    requires IsPending(stage, Cid(c.pipes[l].xfer, v), l) || (l == k && v == i)
    ensures IsPending(stage[Cid(c.pipes[k].xfer, i) := Pending(k)], Cid(c.pipes[l].xfer, v), l)
  {
  }

  lemma PendingMemberAssign(c: Config, pipes: seq<Pipe>, stage: map<Cid, Stage>, k: nat, i: nat, p': Pipe, id: Cid)
    requires |pipes| == |c.pipes| && k < |pipes| && p'.pending == pipes[k].pending + [i]
    requires id != Cid(c.pipes[k].xfer, i) ==> id in stage && stage[id].Pending? && PendingListed(c, pipes, stage, id)
    ensures PendingListed(c, pipes[k := p'], stage[Cid(c.pipes[k].xfer, i) := Pending(k)], id)
  {
    if id == Cid(c.pipes[k].xfer, i) {
      assert p'.pending[|pipes[k].pending|] == i;
    } else if stage[id].k == k {
      var j :| 0 <= j < |pipes[k].pending| && pipes[k].pending[j] == id.i;
      assert p'.pending[j] == id.i;
    }
  }

  // The new index is in no list yet.
  lemma PendingFresh(c: Config, pipes: seq<Pipe>, stage: map<Cid, Stage>, k: nat, i: nat)
    requires PendingOk(c, pipes, stage) && k < |pipes| && Cid(c.pipes[k].xfer, i) !in stage
    ensures i !in pipes[k].pending
  {
  }

  lemma PendingAssign(c: Config, pipes: seq<Pipe>, stage: map<Cid, Stage>, k: nat, i: nat, p': Pipe)
    requires PendingOk(c, pipes, stage) && k < |pipes|
    requires Cid(c.pipes[k].xfer, i) !in stage
    requires p'.pending == pipes[k].pending + [i]
    ensures PendingOk(c, pipes[k := p'], stage[Cid(c.pipes[k].xfer, i) := Pending(k)])
  {
    hide IsPending;
    var pipes' := pipes[k := p'];
    var stage' := stage[Cid(c.pipes[k].xfer, i) := Pending(k)];
    PendingFresh(c, pipes, stage, k, i);
    forall l, j | 0 <= l < |pipes'| && 0 <= j < |pipes'[l].pending|
      ensures IsPending(stage', Cid(c.pipes[l].xfer, pipes'[l].pending[j]), l)
    {
      PendingEntryAssign(c, stage, k, i, l, pipes'[l].pending[j]);
    }
    forall id | id in stage' && stage'[id].Pending?
      ensures PendingListed(c, pipes', stage', id)
    {
      PendingMemberAssign(c, pipes, stage, k, i, p', id);
    }
  }

  lemma PendingSubmit(c: Config, pipes: seq<Pipe>, stage: map<Cid, Stage>, k: nat, p': Pipe, st: Stage)
    requires PendingOk(c, pipes, stage) && k < |pipes| && pipes[k].pending != []
    requires p'.pending == pipes[k].pending[1..] && !st.Pending?
    ensures var cid := Cid(c.pipes[k].xfer, pipes[k].pending[0]);
      IsPending(stage, cid, k) && PendingOk(c, pipes[k := p'], stage[cid := st])
  {
    var cid := Cid(c.pipes[k].xfer, pipes[k].pending[0]);
    assert IsPending(stage, cid, k);
    var pipes' := pipes[k := p'];
    var stage' := stage[cid := st];
    forall l, j | 0 <= l < |pipes'| && 0 <= j < |pipes'[l].pending|
      ensures IsPending(stage', Cid(c.pipes[l].xfer, pipes'[l].pending[j]), l)
    {
      var was := if l == k then j + 1 else j;
      assert pipes'[l].pending[j] == pipes[l].pending[was];
      assert IsPending(stage, Cid(c.pipes[l].xfer, pipes[l].pending[was]), l);
    }
    forall l, i, j | 0 <= l < |pipes'| && 0 <= i < j < |pipes'[l].pending|
      ensures pipes'[l].pending[i] != pipes'[l].pending[j]
    {
      if l == k {
        assert p'.pending[i] == pipes[k].pending[i + 1] && p'.pending[j] == pipes[k].pending[j + 1];
      }
    }
    forall id | id in stage' && stage'[id].Pending?
      ensures id.i in pipes'[stage'[id].k].pending
    {
      if stage[id].k == k {
        var j :| 0 <= j < |pipes[k].pending| && pipes[k].pending[j] == id.i;
        assert j > 0 && p'.pending[j - 1] == id.i;
      }
    }
  }

  /* ---------- copying lists ---------- */

  ghost predicate SameCopying(stage: map<Cid, Stage>, stage': map<Cid, Stage>) {
    forall id :: (id in stage && (stage[id].Copying? || stage[id].Dropped?) ==>
                    id in stage' && stage'[id] == stage[id]) &&
                 (id in stage' && stage'[id].Copying? ==> id in stage && stage'[id] == stage[id])
  }

  // Copies may move between places other than Received, and get their flag on the way.
  ghost predicate SameCopies(copies: map<nat, Copy>, copies': map<nat, Copy>) {
    && copies'.Keys == copies.Keys
    && forall id :: id in copies ==>
         && copies'[id].cid == copies[id].cid
         && (copies'[id].at == Received <==> copies[id].at == Received)
         && (copies[id].at == Received ==> copies'[id].flag == copies[id].flag)
         && (Returning(copies[id].at) ==> Returning(copies'[id].at))
  }

  lemma CopyingSame(c: Config, pipes: seq<Pipe>, stage: map<Cid, Stage>, copies: map<nat, Copy>, nextId: nat,
                    pipes': seq<Pipe>, stage': map<Cid, Stage>, copies': map<nat, Copy>, nextId': nat)
    requires CopyingOk(c, pipes, stage, copies, nextId)
    requires |pipes'| == |pipes| && forall k :: 0 <= k < |pipes| ==> pipes'[k].copying == pipes[k].copying
    requires SameCopying(stage, stage') && SameCopies(copies, copies') && nextId <= nextId'
    ensures CopyingOk(c, pipes', stage', copies', nextId')
  {
    forall k, j | 0 <= k < |pipes'| && 0 <= j < |pipes'[k].copying|
      ensures EntryOk(c, k, pipes'[k].copying[j], stage', copies')
    {
      assert EntryOk(c, k, pipes[k].copying[j], stage, copies);
    }
    forall id | id in copies'
      ensures id < nextId' && CopyOk(pipes', stage', copies', id)
    {
      assert CopyOk(pipes, stage, copies, id);
      if !Orphan(stage, copies, id) {
        var k := stage[copies[id].cid].k;
        var j :| 0 <= j < |pipes[k].copying| && pipes[k].copying[j].id == id;
        assert pipes'[k].copying[j].id == id;
      }
    }
  }

  lemma InCopyingLater(pipes: seq<Pipe>, k: nat, p': Pipe, l: nat, id: nat)
    requires InCopying(pipes, l, id) && k < |pipes|
    requires forall j :: 0 <= j < |pipes[k].copying| && pipes[k].copying[j].id == id ==>
      exists i :: 0 <= i < |p'.copying| && p'.copying[i].id == id
    ensures InCopying(pipes[k := p'], l, id)
  {
    var j :| 0 <= j < |pipes[l].copying| && pipes[l].copying[j].id == id;
    if l != k {
      assert pipes[k := p'][l].copying[j].id == id;
    }
  }

  // One entry of the lists after a submit: it was there before, or it is the new one.
  lemma EntrySubmit(c: Config, pipes: seq<Pipe>, stage: map<Cid, Stage>, copies: map<nat, Copy>, nextId: nat,
                    k: nat, cid: Cid, blk: Blk, l: nat, cc: CopyingChunk)
    requires |pipes| == |c.pipes| && k < |pipes| && l < |pipes|
    requires cid in stage && !stage[cid].Copying? && nextId !in copies
    requires EntryOk(c, l, cc, stage, copies)
      || (l == k && cid.x == c.pipes[k].xfer && blk.gpu == c.pipes[k].gpu
          && cc == CopyingChunk(cid.i, nextId, blk.off, blk.len, None, false))
    ensures EntryOk(c, l, cc, stage[cid := Copying(k, nextId, blk)], copies[nextId := Copy(cid, InRequests, None)])
  {
  }

  lemma CopySubmit(pipes: seq<Pipe>, stage: map<Cid, Stage>, copies: map<nat, Copy>, nextId: nat,
                   k: nat, p': Pipe, cc: CopyingChunk, cid: Cid, blk: Blk, id: nat)
    requires k < |pipes| && p'.copying == pipes[k].copying + [cc] && cc.id == nextId
    requires cid in stage && !stage[cid].Copying? && !stage[cid].Dropped? && nextId !in copies
    requires id == nextId || (id in copies && CopyOk(pipes, stage, copies, id))
    ensures CopyOk(pipes[k := p'], stage[cid := Copying(k, nextId, blk)], copies[nextId := Copy(cid, InRequests, None)],
                   id)
  {
    if id == nextId {
      assert pipes[k := p'][k].copying[|pipes[k].copying|].id == id;
    } else if !Orphan(stage, copies, id) {
      var l := stage[copies[id].cid].k;
      if j :| 0 <= j < |pipes[k].copying| && pipes[k].copying[j].id == id {
        assert p'.copying[j].id == id;
      }
      InCopyingLater(pipes, k, p', l, id);
    }
  }

  lemma CopyingSubmit(c: Config, pipes: seq<Pipe>, stage: map<Cid, Stage>, copies: map<nat, Copy>, nextId: nat,
                      k: nat, p': Pipe, cid: Cid, off: nat, len: nat)
    requires CopyingOk(c, pipes, stage, copies, nextId) && k < |pipes|
    requires cid.x == c.pipes[k].xfer && cid in stage && !stage[cid].Copying? && !stage[cid].Dropped?
    requires p'.copying == pipes[k].copying + [CopyingChunk(cid.i, nextId, off, len, None, false)]
    ensures CopyingOk(c, pipes[k := p'], stage[cid := Copying(k, nextId, Blk(c.pipes[k].gpu, off, len))],
                      copies[nextId := Copy(cid, InRequests, None)], nextId + 1)
  {
    hide EntryOk, CopyOk;
    var cc := CopyingChunk(cid.i, nextId, off, len, None, false);
    var blk := Blk(c.pipes[k].gpu, off, len);
    var pipes' := pipes[k := p'];
    var stage' := stage[cid := Copying(k, nextId, blk)];
    var copies' := copies[nextId := Copy(cid, InRequests, None)];
    forall l, j | 0 <= l < |pipes'| && 0 <= j < |pipes'[l].copying|
      ensures EntryOk(c, l, pipes'[l].copying[j], stage', copies')
    {
      EntrySubmit(c, pipes, stage, copies, nextId, k, cid, blk, l, pipes'[l].copying[j]);
    }
    forall l, j | 0 <= l < |pipes| && 0 <= j < |pipes[l].copying|
      ensures pipes[l].copying[j].id < nextId
    {
      EntryInCopies(c, l, pipes[l].copying[j], stage, copies);
    }
    forall id | id in copies'
      ensures id < nextId + 1 && CopyOk(pipes', stage', copies', id)
    {
      CopySubmit(pipes, stage, copies, nextId, k, p', cc, cid, blk, id);
    }
  }

  lemma EntryInCopies(c: Config, k: nat, cc: CopyingChunk, stage: map<Cid, Stage>, copies: map<nat, Copy>)
    requires k < |c.pipes| && EntryOk(c, k, cc, stage, copies)
    ensures cc.id in copies
  {
  }

  // The result of a request reaches entry j of pipeline k.
  lemma EntriesReceive(c: Config, pipes: seq<Pipe>, stage: map<Cid, Stage>, copies: map<nat, Copy>, nextId: nat,
                       k: nat, j: nat, cc: CopyingChunk, l: nat, i: nat)
    requires CopyingOk(c, pipes, stage, copies, nextId) && k < |pipes| && j < |pipes[k].copying|
    requires cc == pipes[k].copying[j] && cc.id in copies
    requires l < |pipes| && i < |pipes[l].copying| && (l != k || i != j)
    ensures EntryOk(c, l, pipes[l].copying[i], stage, copies[cc.id := copies[cc.id].(at := Received)])
  {
    assert EntryOk(c, k, cc, stage, copies);
    assert EntryOk(c, l, pipes[l].copying[i], stage, copies);
    if l == k {
      assert pipes[k].copying[i].id != cc.id;
    }
  }

  lemma CopiesReceive(pipes: seq<Pipe>, stage: map<Cid, Stage>, copies: map<nat, Copy>, nextId: nat,
                      k: nat, p': Pipe, copies': map<nat, Copy>)
    requires k < |pipes| && |p'.copying| == |pipes[k].copying|
    requires forall i :: 0 <= i < |p'.copying| ==> p'.copying[i].id == pipes[k].copying[i].id
    requires forall id :: id in copies ==> id < nextId && CopyOk(pipes, stage, copies, id)
    requires copies'.Keys == copies.Keys && forall id :: id in copies ==>
      copies'[id].cid == copies[id].cid && (Orphan(stage, copies, id) ==> copies'[id].at == copies[id].at)
    ensures forall id :: id in copies' ==> id < nextId && CopyOk(pipes[k := p'], stage, copies', id)
  {
    forall id | id in copies'
      ensures id < nextId && CopyOk(pipes[k := p'], stage, copies', id)
    {
      assert CopyOk(pipes, stage, copies, id);
      if !Orphan(stage, copies, id) {
        InCopyingLater(pipes, k, p', stage[copies[id].cid].k, id);
      }
    }
  }

  lemma CopyingReceive(c: Config, pipes: seq<Pipe>, stage: map<Cid, Stage>, copies: map<nat, Copy>, nextId: nat,
                       k: nat, j: nat, cc: CopyingChunk, p': Pipe)
    requires CopyingOk(c, pipes, stage, copies, nextId) && k < |pipes| && j < |pipes[k].copying|
    requires cc == pipes[k].copying[j] && cc.id in copies
    requires p'.copying == pipes[k].copying[j := cc.(flag := copies[cc.id].flag, received := true)]
    ensures CopyingOk(c, pipes[k := p'], stage, copies[cc.id := copies[cc.id].(at := Received)], nextId)
  {
    var pipes' := pipes[k := p'];
    var copies' := copies[cc.id := copies[cc.id].(at := Received)];
    assert EntryOk(c, k, cc, stage, copies);
    forall l, i | 0 <= l < |pipes'| && 0 <= i < |pipes'[l].copying|
      ensures EntryOk(c, l, pipes'[l].copying[i], stage, copies')
    {
      if l != k || i != j {
        EntriesReceive(c, pipes, stage, copies, nextId, k, j, cc, l, i);
      }
    }
    CopiesReceive(pipes, stage, copies, nextId, k, p', copies');
  }

  // The entries that stay, and the copies that stay, when a front entry leaves.
  lemma EntryPost(c: Config, stage: map<Cid, Stage>, copies: map<nat, Copy>, k: nat, cc: CopyingChunk, st: Stage,
                  l: nat, other: CopyingChunk)
    requires k < |c.pipes| && l < |c.pipes| && EntryOk(c, k, cc, stage, copies) && EntryOk(c, l, other, stage, copies)
    requires other.id != cc.id || l != k
    ensures EntryOk(c, l, other, stage[Cid(c.pipes[k].xfer, cc.chunk) := st], copies - {cc.id})
  {
  }

  lemma CopyPost(c: Config, pipes: seq<Pipe>, stage: map<Cid, Stage>, copies: map<nat, Copy>,
                 k: nat, p': Pipe, cc: CopyingChunk, st: Stage, id: nat)
    requires k < |pipes| && k < |c.pipes| && pipes[k].copying != [] && cc == pipes[k].copying[0]
    requires p'.copying == pipes[k].copying[1..] && EntryOk(c, k, cc, stage, copies)
    requires id in copies && id != cc.id && CopyOk(pipes, stage, copies, id)
    ensures CopyOk(pipes[k := p'], stage[Cid(c.pipes[k].xfer, cc.chunk) := st], copies - {cc.id}, id)
  {
    if i :| 0 <= i < |pipes[k].copying| && pipes[k].copying[i].id == id {
      assert p'.copying[i - 1].id == id;
    }
    if !Orphan(stage, copies, id) {
      InCopyingLater(pipes, k, p', stage[copies[id].cid].k, id);
    }
  }

  // The first entry of pipeline k leaves for its NIC.
  lemma CopyingPost(c: Config, pipes: seq<Pipe>, stage: map<Cid, Stage>, copies: map<nat, Copy>, nextId: nat,
                    k: nat, p': Pipe, st: Stage)
    requires CopyingOk(c, pipes, stage, copies, nextId) && k < |pipes| && pipes[k].copying != []
    requires p'.copying == pipes[k].copying[1..] && !st.Copying?
    ensures var cc := pipes[k].copying[0]; var cid := Cid(c.pipes[k].xfer, cc.chunk);
      && EntryOk(c, k, cc, stage, copies)
      && CopyingOk(c, pipes[k := p'], stage[cid := st], copies - {cc.id}, nextId)
  {
    hide EntryOk, CopyOk;
    var cc := pipes[k].copying[0];
    var pipes' := pipes[k := p'];
    var stage' := stage[Cid(c.pipes[k].xfer, cc.chunk) := st];
    var copies' := copies - {cc.id};
    forall l, j | 0 <= l < |pipes'| && 0 <= j < |pipes'[l].copying|
      ensures EntryOk(c, l, pipes'[l].copying[j], stage', copies')
    {
      var was := if l == k then j + 1 else j;
      assert pipes'[l].copying[j] == pipes[l].copying[was];
      EntryPost(c, stage, copies, k, cc, st, l, pipes[l].copying[was]);
    }
    forall l, i, j | 0 <= l < |pipes'| && 0 <= i < j < |pipes'[l].copying|
      ensures pipes'[l].copying[i].id < pipes'[l].copying[j].id
    {
      var d := if l == k then 1 else 0;
      assert pipes'[l].copying[i] == pipes[l].copying[i + d] && pipes'[l].copying[j] == pipes[l].copying[j + d];
    }
    EntryInCopies(c, k, cc, stage, copies);
    forall id | id in copies'
      ensures id < nextId && CopyOk(pipes', stage', copies', id)
    {
      CopyPost(c, pipes, stage, copies, k, p', cc, st, id);
    }
    StagesPost(c, stage, copies, k, cc, st);
  }

  lemma StagesPost(c: Config, stage: map<Cid, Stage>, copies: map<nat, Copy>, k: nat, cc: CopyingChunk, st: Stage)
    requires k < |c.pipes| && EntryOk(c, k, cc, stage, copies) && !st.Copying?
    requires forall cid :: cid in stage && stage[cid].Copying? ==>
      stage[cid].id in copies && copies[stage[cid].id].cid == cid
    ensures var stage' := stage[Cid(c.pipes[k].xfer, cc.chunk) := st]; var copies' := copies - {cc.id};
      forall cid :: cid in stage' && stage'[cid].Copying? ==>
        stage'[cid].id in copies' && copies'[stage'[cid].id].cid == cid
  {
  }

  // The first chunk of a pending list is pending, that of a copying list is copying.
  lemma HeadsStaged(c: Config, pipes: seq<Pipe>, stage: map<Cid, Stage>, copies: map<nat, Copy>, nextId: nat, k: nat)
    requires PendingOk(c, pipes, stage) && CopyingOk(c, pipes, stage, copies, nextId) && k < |pipes|
    ensures pipes[k].pending != [] ==> IsPending(stage, Cid(c.pipes[k].xfer, pipes[k].pending[0]), k)
    ensures pipes[k].copying != [] ==> EntryOk(c, k, pipes[k].copying[0], stage, copies)
  {
  }

  /* ---------- request queue, copy thread, result queue ---------- */

  // Every copy at place at stays there.
  ghost predicate SameAt(copies: map<nat, Copy>, copies': map<nat, Copy>, at: Where) {
    forall id :: (id in copies && copies[id].at == at <==> id in copies' && copies'[id].at == at) &&
                 (id in copies && copies[id].at == at ==> copies'[id] == copies[id])
  }

  lemma RequestKept(c: Config, req: CopyRequest, at: Where, stage: map<Cid, Stage>, copies: map<nat, Copy>,
                    stage': map<Cid, Stage>, copies': map<nat, Copy>)
    requires RequestOk(c, req, at, stage, copies) && SameAt(copies, copies', at)
    requires stage[copies[req.id].cid].Copying? ==>
      copies[req.id].cid in stage' && stage'[copies[req.id].cid] == stage[copies[req.id].cid]
    ensures RequestOk(c, req, at, stage', copies')
  {
  }

  // The stages of the copies at one place are kept.
  ghost predicate StagesKept(copies: map<nat, Copy>, at: Where, stage: map<Cid, Stage>, stage': map<Cid, Stage>) {
    forall id :: id in copies && copies[id].at == at && copies[id].cid in stage ==>
      copies[id].cid in stage' && stage'[copies[id].cid] == stage[copies[id].cid]
  }

  lemma RequestsSame(c: Config, reqQ: seq<CopyRequest>, stage: map<Cid, Stage>, copies: map<nat, Copy>,
                     stage': map<Cid, Stage>, copies': map<nat, Copy>)
    requires RequestsOk(c, reqQ, stage, copies)
    requires SameAt(copies, copies', InRequests) && StagesKept(copies, InRequests, stage, stage')
    ensures RequestsOk(c, reqQ, stage', copies')
  {
    forall j | 0 <= j < |reqQ|
      ensures RequestOk(c, reqQ[j], InRequests, stage', copies')
    {
      RequestKept(c, reqQ[j], InRequests, stage, copies, stage', copies');
    }
  }

  lemma RequestsSubmit(c: Config, reqQ: seq<CopyRequest>, stage: map<Cid, Stage>, copies: map<nat, Copy>,
                       req: CopyRequest, stage': map<Cid, Stage>, cid: Cid)
    requires RequestsOk(c, reqQ, stage, copies) && req.id !in copies
    requires StagesKept(copies, InRequests, stage, stage')
    requires RequestFields(c, req, cid, stage')
    ensures RequestsOk(c, reqQ + [req], stage', copies[req.id := Copy(cid, InRequests, None)])
  {
    var reqQ' := reqQ + [req];
    var copies' := copies[req.id := Copy(cid, InRequests, None)];
    forall j | 0 <= j < |reqQ'|
      ensures RequestOk(c, reqQ'[j], InRequests, stage', copies')
      ensures j < |reqQ| ==> reqQ[j].id != req.id
    {
      if j < |reqQ| {
        assert RequestOk(c, reqQ[j], InRequests, stage, copies);
      }
    }
    forall id | id in copies' && copies'[id].at == InRequests
      ensures InRequestQ(reqQ', id)
    {
      if id == req.id {
        assert reqQ'[|reqQ|].id == id;
      } else {
        var j :| 0 <= j < |reqQ| && reqQ[j].id == id;
        assert reqQ'[j].id == id;
      }
    }
  }

  lemma RequestsPop(c: Config, reqQ: seq<CopyRequest>, stage: map<Cid, Stage>, copies: map<nat, Copy>)
    requires RequestsOk(c, reqQ, stage, copies) && reqQ != []
    ensures RequestOk(c, reqQ[0], InRequests, stage, copies)
    ensures RequestsOk(c, reqQ[1..], stage, Move(copies, reqQ[0].id, WithThread))
  {
    var copies' := Move(copies, reqQ[0].id, WithThread);
    assert RequestOk(c, reqQ[0], InRequests, stage, copies);
    forall j | 0 <= j < |reqQ[1..]|
      ensures RequestOk(c, reqQ[1..][j], InRequests, stage, copies')
    {
      assert RequestOk(c, reqQ[j + 1], InRequests, stage, copies);
      assert reqQ[j + 1].id != reqQ[0].id;
    }
    forall i, j | 0 <= i < j < |reqQ[1..]|
      ensures reqQ[1..][i].id != reqQ[1..][j].id
    {
      assert reqQ[i + 1].id != reqQ[j + 1].id;
    }
    forall id | id in copies' && copies'[id].at == InRequests
      ensures InRequestQ(reqQ[1..], id)
    {
      var j :| 0 <= j < |reqQ| && reqQ[j].id == id;
      assert reqQ[1..][j - 1].id == id;
    }
  }

  lemma ThreadSame(c: Config, ct: CopyThread, stage: map<Cid, Stage>, copies: map<nat, Copy>,
                   stage': map<Cid, Stage>, copies': map<nat, Copy>)
    requires ThreadOk(c, ct, stage, copies)
    requires SameAt(copies, copies', WithThread) && SameAt(copies, copies', WithResult)
    requires StagesKept(copies, WithThread, stage, stage')
    ensures ThreadOk(c, ct, stage', copies')
  {
    if ct.Popped? {
      RequestKept(c, ct.req, WithThread, stage, copies, stage', copies');
    }
  }

  lemma ResultsSame(resQ: seq<CopyResult>, copies: map<nat, Copy>, copies': map<nat, Copy>)
    requires ResultsOk(resQ, copies) && SameAt(copies, copies', InResults)
    ensures ResultsOk(resQ, copies')
  {
    forall j | 0 <= j < |resQ|
      ensures ResultOk(resQ[j], InResults, copies')
    {
      assert ResultOk(resQ[j], InResults, copies);
    }
  }

  lemma ResultsPush(resQ: seq<CopyResult>, copies: map<nat, Copy>, res: CopyResult)
    requires ResultsOk(resQ, copies) && ResultOk(res, WithResult, copies)
    ensures ResultsOk(resQ + [res], Move(copies, res.id, InResults))
  {
    var resQ' := resQ + [res];
    var copies' := Move(copies, res.id, InResults);
    forall j | 0 <= j < |resQ'|
      ensures ResultOk(resQ'[j], InResults, copies')
      ensures j < |resQ| ==> resQ[j].id != res.id
    {
      if j < |resQ| {
        assert ResultOk(resQ[j], InResults, copies);
      }
    }
    forall id | id in copies' && copies'[id].at == InResults
      ensures InResultQ(resQ', id)
    {
      if id == res.id {
        assert resQ'[|resQ|].id == id;
      } else {
        var j :| 0 <= j < |resQ| && resQ[j].id == id;
        assert resQ'[j].id == id;
      }
    }
  }

  lemma ResultsPop(resQ: seq<CopyResult>, copies: map<nat, Copy>)
    requires ResultsOk(resQ, copies) && resQ != []
    ensures ResultOk(resQ[0], InResults, copies)
    ensures ResultsOk(resQ[1..], Move(copies, resQ[0].id, Received))
  {
    var copies' := Move(copies, resQ[0].id, Received);
    assert ResultOk(resQ[0], InResults, copies);
    forall j | 0 <= j < |resQ[1..]|
      ensures ResultOk(resQ[1..][j], InResults, copies')
    {
      assert ResultOk(resQ[j + 1], InResults, copies);
      assert resQ[j + 1].id != resQ[0].id;
    }
    forall i, j | 0 <= i < j < |resQ[1..]|
      ensures resQ[1..][i].id != resQ[1..][j].id
    {
      assert resQ[i + 1].id != resQ[j + 1].id;
    }
    forall id | id in copies' && copies'[id].at == InResults
      ensures InResultQ(resQ[1..], id)
    {
      var j :| 0 <= j < |resQ| && resQ[j].id == id;
      assert resQ[1..][j - 1].id == id;
    }
  }
}

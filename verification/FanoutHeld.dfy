/** Who still has a message for a client, and how it can be held back while everything else goes on. */
module FanoutHeld {
  import opened Wire
  import opened Seqs
  import opened Fanout
  import opened FanoutSafety
  import FanoutSnapshots
  import FanoutDelivery
  import FanoutProgress

  // ---- who has it ----

  /** The handoff is in progress and c, one of its clients, has not been tried. */
  ghost predicate Owes(f: Fanout, id: nat, c: Client) {
    id < |f.log| && f.log[id].fate.Pending? && c in f.log[id].members && c !in FanoutDelivery.Visited(f.attempts, id)
  }

  /** The worker is in a job and c is at or beyond its place in the slice. */
  predicate YetToTry(f: Fanout, v: nat, c: Client) {
    && v < |f.workers| && f.workers[v].Sending? && InHeap(f.heap, f.workers[v].job.slice)
    && f.workers[v].next <= f.workers[v].job.slice.len
    && Ref(c) in f.heap[f.workers[v].job.slice.addr][f.workers[v].next..f.workers[v].job.slice.len]
  }

  predicate Lists(heap: seq<seq<Cell>>, slice: Slice, c: Client) {
    InHeap(heap, slice) && Ref(c) in heap[slice.addr][..slice.len]
  }

  /** The broadcaster has c in its slice or on its list. */
  predicate YetToHandOver(f: Fanout, i: nat, c: Client) {
    i < |f.callers| &&
    match f.callers[i]
    case Locked(_, _, _, todo) => c in todo
    case Filling(_, _, _, todo, slice) => c in todo || Lists(f.heap, slice, c)
    case Unlocked(_, _, slice) => Lists(f.heap, slice, c)
    case _ => false
  }

  /** The holder is to try c, or to pass it on to whoever is. */
  predicate Has(f: Fanout, h: Holder, c: Client) {
    match h
    case InPool(_) => false
    case ByCaller(i) => YetToHandOver(f, i, c)
    case InQueue(k) => k < |f.jobs| && Lists(f.heap, f.jobs[k].slice, c)
    case ByWorker(w) => YetToTry(f, w, c)
  }

  function PayloadOf(f: Fanout, h: Holder): Option<Payload> {
    match h
    case InPool(_) => None
    case ByCaller(i) =>
      if i < |f.callers| && (HoldsReadLock(f.callers[i]) || f.callers[i].Unlocked?) then Some(f.callers[i].payload)
      else None
    case InQueue(k) => if k < |f.jobs| then Some(f.jobs[k].payload) else None
    case ByWorker(w) => if w < |f.workers| && f.workers[w].Sending? then Some(f.workers[w].job.payload) else None
  }

  lemma RestOfOrder(order: seq<Client>, members: set<Client>, n: nat, c: Client)
    requires Enumerates(order, members) && n <= |order|
    ensures c in order[n..] <==> c in members && c !in order[..n]
  {
    assert order == order[..n] + order[n..];
    NoDupConcat(order[..n], order[n..]);
  }

  lemma StoredLists(heap: seq<seq<Cell>>, slice: Slice, xs: seq<Client>, n: nat, c: Client)
    requires FanoutSnapshots.Stored(heap, slice, xs) && n <= |xs|
    ensures Ref(c) in heap[slice.addr][n..slice.len] <==> c in xs[n..]
  {
    var cells := heap[slice.addr][n..slice.len];
    assert forall k | 0 <= k < |cells| :: cells[k] == Ref(xs[n + k]);
    if c in xs[n..] {
      var k :| 0 <= k < |xs[n..]| && xs[n..][k] == c;
      assert cells[k] == Ref(c);
    }
  }

  /** What a worker has yet to try is what its handoff owes. */
  lemma WorkerOwes(rooms: map<string, set<Client>>, f: Fanout, v: nat, c: Client)
    requires FanoutDelivery.Inv(rooms, f) && v < |f.workers| && f.workers[v].Sending?
    ensures f.workers[v].job.id < |f.log| && f.log[f.workers[v].job.id].payload == f.workers[v].job.payload
    ensures YetToTry(f, v, c) <==> Owes(f, f.workers[v].job.id, c)
  {
    var job, n := f.workers[v].job, f.workers[v].next;
    assert FanoutSnapshots.WorkerOk(f.heap, f.log, f.workers[v]);
    var order := f.log[job.id].order;
    assert IdOf(f, ByWorker(v)) == Some(job.id);
    assert FanoutDelivery.HolderVisited(f, ByWorker(v));
    StoredLists(f.heap, job.slice, order, n, c);
    RestOfOrder(order, f.log[job.id].members, n, c);
  }

  lemma JobOwes(rooms: map<string, set<Client>>, f: Fanout, k: nat, c: Client)
    requires FanoutDelivery.Inv(rooms, f) && k < |f.jobs|
    ensures f.jobs[k].id < |f.log| && f.log[f.jobs[k].id].payload == f.jobs[k].payload
    ensures Lists(f.heap, f.jobs[k].slice, c) <==> Owes(f, f.jobs[k].id, c)
  {
    var job := f.jobs[k];
    assert FanoutSnapshots.JobOk(f.heap, f.log, job);
    assert IdOf(f, InQueue(k)) == Some(job.id);
    assert FanoutDelivery.HolderVisited(f, InQueue(k));
    StoredLists(f.heap, job.slice, f.log[job.id].order, 0, c);
    RestOfOrder(f.log[job.id].order, f.log[job.id].members, 0, c);
  }

  lemma CallerOwes(rooms: map<string, set<Client>>, f: Fanout, i: nat, c: Client)
    requires FanoutDelivery.Inv(rooms, f) && IdOf(f, ByCaller(i)).Some?
    ensures i < |f.callers| && f.callers[i].id < |f.log| && f.log[f.callers[i].id].payload == f.callers[i].payload
    ensures YetToHandOver(f, i, c) <==> Owes(f, f.callers[i].id, c)
  {
    var caller := f.callers[i];
    assert FanoutSnapshots.CallerOk(rooms, f.heap, f.log, caller);
    assert FanoutDelivery.HolderVisited(f, ByCaller(i));
    var order := f.log[caller.id].order;
    RestOfOrder(order, f.log[caller.id].members, 0, c);
    match caller {
      case Filling(_, _, _, _, slice) =>
        StoredLists(f.heap, slice, order[..slice.len], 0, c);
        assert order == order[..slice.len] + order[slice.len..];
      case Unlocked(_, _, slice) => StoredLists(f.heap, slice, order, 0, c);
      case _ =>
    }
  }

  /** Whoever has a message for c carries a handoff that owes it, and such a handoff has a carrier. */
  lemma HasIffOwes(rooms: map<string, set<Client>>, f: Fanout, h: Holder, c: Client)
    requires FanoutDelivery.Inv(rooms, f)
    ensures Has(f, h, c) <==> IdOf(f, h).Some? && Owes(f, IdOf(f, h).value, c)
    ensures IdOf(f, h).Some? ==> PayloadOf(f, h) == Some(f.log[IdOf(f, h).value].payload)
  {
    if IdOf(f, h).Some? {
      match h {
        case ByCaller(i) => CallerOwes(rooms, f, i, c);
        case InQueue(k) => JobOwes(rooms, f, k, c);
        case ByWorker(w) => WorkerOwes(rooms, f, w, c);
        case InPool(_) =>
      }
    }
  }

  // ---- it is never given back ----

  /** No step makes a handoff owe what it did not owe, except the one that snapshots. */
  lemma OwesShrinks(rooms: map<string, set<Client>>, f: Fanout, a: Action, id: nat, c: Client)
    requires FanoutSnapshots.Content(rooms, f) && Enabled(rooms, f, a) && Owes(Next(rooms, f, a), id, c)
    ensures if id == |f.log| then a.Lock? else Owes(f, id, c)
    ensures id < |f.log| ==> Next(rooms, f, a).log[id].payload == f.log[id].payload
  {
    LogMoves(rooms, f, a);
    if id < |f.log| && a.WorkerSends? {
      FanoutDelivery.SendTriesNext(rooms, f, a.w);
      FanoutDelivery.VisitedSnoc(f.attempts, Next(rooms, f, a).attempts[|f.attempts|], id);
    } else if id < |f.log| {
      FanoutDelivery.AttemptsStay(rooms, f, a);
    }
  }

  /** A worker that stood still owes what it owed. */
  lemma StillOwes(rooms: map<string, set<Client>>, f: Fanout, rooms': map<string, set<Client>>, g: Fanout, v: nat,
                  c: Client)
    requires FanoutDelivery.Inv(rooms, f) && FanoutDelivery.Inv(rooms', g) && FanoutSnapshots.LogKept(f.log, g.log)
    requires v < |f.workers| && v < |g.workers| && g.workers[v] == f.workers[v] && f.workers[v].Sending?
    requires Owes(f, f.workers[v].job.id, c)
    ensures Owes(g, f.workers[v].job.id, c)
  {
    assert IdOf(f, ByWorker(v)) == IdOf(g, ByWorker(v)) == Some(f.workers[v].job.id);
    assert FanoutDelivery.HolderVisited(f, ByWorker(v)) && FanoutDelivery.HolderVisited(g, ByWorker(v));
    assert FanoutSnapshots.WorkerOk(f.heap, f.log, f.workers[v]);
  }

  // ---- it can be held back ----

  /** Worker v is in handoff id and has yet to try c. */
  ghost predicate HeldBy(f: Fanout, v: nat, id: nat, c: Client) {
    v < |f.workers| && f.workers[v].Sending? && f.workers[v].job.id == id && Owes(f, id, c)
  }

  /** A job no worker has begun owes everyone in its snapshot. */
  lemma TakenIsHeld(rooms: map<string, set<Client>>, f: Fanout, f': Fanout, w: nat, c: Client)
    requires FanoutDelivery.Inv(rooms, f) && Enabled(rooms, f, WorkerTakes(w)) && f' == Next(rooms, f, WorkerTakes(w))
    requires f.jobs[0].id < |f.log| && c in f.log[f.jobs[0].id].members
    ensures HeldBy(f', w, f.jobs[0].id, c)
  {
    assert IdOf(f, InQueue(0)) == Some(f.jobs[0].id);
    assert FanoutDelivery.HolderVisited(f, InQueue(0));
  }

  /** Worker v takes the first job and tries nobody. */
  lemma TakeAndHold(rooms: map<string, set<Client>>, f: Fanout, v: nat, c: Client) returns (g: Fanout)
    requires FanoutDelivery.Inv(rooms, f) && f.jobs != [] && v < |f.workers| && f.workers[v].Idle?
    requires f.jobs[0].id < |f.log| && c in f.log[f.jobs[0].id].members
    ensures FanoutDelivery.Inv(rooms, g) && FanoutProgress.Leads(rooms, f, g) && HeldBy(g, v, f.jobs[0].id, c)
  {
    assert !f.nilDereference by { assert FanoutSnapshots.Content(rooms, f); }
    g := FanoutProgress.OneStep(rooms, f, WorkerTakes(v));
    TakenIsHeld(rooms, f, g, v, c);
  }

  /** Whoever carries a handoff, it can be brought to a worker before c is tried. */
  lemma BringToWorker(rooms: map<string, set<Client>>, f: Fanout, id: nat, c: Client) returns (g: Fanout, v: nat)
    requires FanoutDelivery.Inv(rooms, f) && Owes(f, id, c)
    ensures FanoutDelivery.Inv(rooms, g) && FanoutProgress.Leads(rooms, f, g) && HeldBy(g, v, id, c)
  {
    var h :| IdOf(f, h) == Some(id);
    match h {
      case ByWorker(w) =>
        g, v := f, w;
        FanoutProgress.LeadsSelf(rooms, f);
      case InQueue(k) =>
        v := 0;
        var f1 := FanoutProgress.FinishWorkers(rooms, f, |f.workers|);
        var f2 := FanoutProgress.ServeSome(rooms, f1, 0, k);
        FanoutProgress.LeadsOn(rooms, f, f1, f2);
        g := TakeAndHold(rooms, f2, 0, c);
        FanoutProgress.LeadsOn(rooms, f, f2, g);
      case ByCaller(i) =>
        v := 0;
        g := BringFromCaller(rooms, f, i, c);
      case InPool(_) =>
    }
  }

  lemma BringFromCaller(rooms: map<string, set<Client>>, f: Fanout, i: nat, c: Client) returns (g: Fanout)
    requires FanoutDelivery.Inv(rooms, f) && IdOf(f, ByCaller(i)).Some? && Owes(f, IdOf(f, ByCaller(i)).value, c)
    ensures FanoutDelivery.Inv(rooms, g) && FanoutProgress.Leads(rooms, f, g)
    ensures HeldBy(g, 0, IdOf(f, ByCaller(i)).value, c)
  {
    var f1 := FanoutProgress.FinishWorkers(rooms, f, |f.workers|);
    var f2 := FanoutProgress.DrainQueue(rooms, f1, 0);
    FanoutProgress.LeadsOn(rooms, f, f1, f2);
    var f3 := FanoutProgress.ReachUnlocked(rooms, f2, i);
    FanoutProgress.LeadsOn(rooms, f, f2, f3);
    assert !f3.nilDereference by { assert FanoutSnapshots.Content(rooms, f3); }
    var f4 := FanoutProgress.OneStep(rooms, f3, Dispatch(i));
    FanoutProgress.LeadsOn(rooms, f, f3, f4);
    g := TakeAndHold(rooms, f4, 0, c);
    FanoutProgress.LeadsOn(rooms, f, f4, g);
  }

  /** The handoff is held back by worker v before it tries c, and worker u has served everything else that it could. */
  lemma Park(rooms: map<string, set<Client>>, f: Fanout, id: nat, c: Client) returns (g: Fanout, u: nat, v: nat)
    requires FanoutDelivery.Inv(rooms, f) && Owes(f, id, c)
    ensures FanoutDelivery.Inv(rooms, g) && FanoutProgress.Leads(rooms, f, g)
    ensures u != v && FanoutProgress.Quiet(g, u) && HeldBy(g, v, id, c)
  {
    var f1;
    f1, v := BringToWorker(rooms, f, id, c);
    u := if v == 0 then 1 else 0;
    g := FanoutProgress.Calm(rooms, f1, u);
    FanoutProgress.LeadsOn(rooms, f, f1, g);
    StillOwes(rooms, f1, rooms, g, v, c);
  }

  /** The worker goes on: c is tried after everyone tried so far. */
  lemma Release(rooms: map<string, set<Client>>, f: Fanout, v: nat, id: nat, c: Client) returns (g: Fanout, b: nat)
    requires FanoutDelivery.Inv(rooms, f) && HeldBy(f, v, id, c)
    ensures FanoutDelivery.Inv(rooms, g) && FanoutProgress.Leads(rooms, f, g)
    ensures |f.attempts| <= b < |g.attempts| && g.attempts[b].client == c
            && g.attempts[b].payload == f.log[id].payload
  {
    g := FanoutProgress.FinishWorker(rooms, f, v);
    assert IdOf(f, ByWorker(v)) == Some(id);
    WorkerIsDone(rooms, f, g, v, id);
    b := FanoutProgress.FinishedHasTried(rooms, g, id, c);
    if b < |f.attempts| {
      assert f.attempts[b] == g.attempts[b];
      FanoutDelivery.AttemptWasVisit(f.attempts, b);
    }
  }

  lemma WorkerIsDone(rooms: map<string, set<Client>>, f: Fanout, g: Fanout, v: nat, id: nat)
    requires FanoutDelivery.Inv(rooms, f) && FanoutDelivery.Inv(rooms, g) && FanoutProgress.Onward(f, g)
    requires v < |f.workers| && IdOf(f, ByWorker(v)) == Some(id) && g.workers == f.workers[v := Idle]
    requires g.jobs == f.jobs && g.callers == f.callers
    ensures id < |g.log| && g.log[id].payload == f.log[id].payload && g.log[id].members == f.log[id].members
            && g.log[id].fate.Finished?
  {
    forall h ensures IdOf(g, h) != Some(id) {
      assert h != ByWorker(v) ==> IdOf(g, h) == IdOf(f, h);
    }
  }
}

/** Fan-out never gets stuck: from any state its goroutines can finish what they are doing, and what is finished so is
    dropped only if it was dropped before. */
module FanoutProgress {
  import opened Wire
  import opened Seqs
  import opened Fanout
  import opened FanoutSafety
  import FanoutSnapshots
  import FanoutDelivery

  // ---- runs of the fan-out alone ----

  predicate StepsTo(rooms: map<string, set<Client>>, f: Fanout, a: Action, g: Fanout) {
    Enabled(rooms, f, a) && !a.Start? && g == Next(rooms, f, a)
  }

  ghost predicate Moves(rooms: map<string, set<Client>>, f: Fanout, g: Fanout) {
    exists a :: StepsTo(rooms, f, a, g)
  }

  /** The states of a run from f to g. */
  ghost predicate Path(rooms: map<string, set<Client>>, f: Fanout, states: seq<Fanout>, g: Fanout) {
    && states != [] && states[0] == f && states[|states| - 1] == g
    && forall i | 0 <= i < |states| - 1 :: Moves(rooms, states[i], states[i + 1])
  }

  /** The log and the attempts only grow, and no handoff is dropped that was not. */
  ghost predicate Onward(f: Fanout, g: Fanout) {
    && |f.log| <= |g.log| && f.attempts <= g.attempts
    && forall id | 0 <= id < |f.log| ::
         g.log[id] == f.log[id].(fate := g.log[id].fate)
           && (g.log[id].fate.DroppedWhole? ==> f.log[id].fate.DroppedWhole?)
  }

  /** Some run leads from f to g, dropping nothing. */
  ghost predicate Leads(rooms: map<string, set<Client>>, f: Fanout, g: Fanout) {
    Onward(f, g) && exists states :: Path(rooms, f, states, g)
  }

  lemma PathsJoin(rooms: map<string, set<Client>>, f: Fanout, states: seq<Fanout>, g: Fanout,
                  more: seq<Fanout>, h: Fanout)
    requires Path(rooms, f, states, g) && Path(rooms, g, more, h)
    ensures Path(rooms, f, states + more[1..], h)
  {
    var all, n := states + more[1..], |states|;
    forall i | 0 <= i < |all| - 1 ensures Moves(rooms, all[i], all[i + 1]) {
      if i < n - 1 {
        assert Moves(rooms, states[i], states[i + 1]);
      } else {
        assert Moves(rooms, more[i - (n - 1)], more[i - (n - 1) + 1]);
      }
    }
  }

  lemma LeadsSelf(rooms: map<string, set<Client>>, f: Fanout)
    ensures Leads(rooms, f, f)
  {
    assert Path(rooms, f, [f], f);
  }

  lemma LeadsOn(rooms: map<string, set<Client>>, f: Fanout, g: Fanout, h: Fanout)
    requires Leads(rooms, f, g) && Leads(rooms, g, h)
    ensures Leads(rooms, f, h)
  {
    var states :| Path(rooms, f, states, g);
    var more :| Path(rooms, g, more, h);
    PathsJoin(rooms, f, states, g, more, h);
    OnwardOn(f, g, h);
  }

  lemma OnwardOn(f: Fanout, g: Fanout, h: Fanout)
    requires Onward(f, g) && Onward(g, h)
    ensures Onward(f, h)
  {
    assert forall id | 0 <= id < |f.log| :: g.log[id] == f.log[id].(fate := g.log[id].fate);
  }

  lemma StepLeads(rooms: map<string, set<Client>>, f: Fanout, a: Action)
    requires FanoutDelivery.Inv(rooms, f) && Enabled(rooms, f, a) && !a.Start?
             && (a.Dispatch? ==> |f.jobs| < BROADCAST_JOB_CHAN_SIZE)
    ensures Leads(rooms, f, Next(rooms, f, a)) && FanoutDelivery.Inv(rooms, Next(rooms, f, a))
  {
    var g := Next(rooms, f, a);
    FanoutDelivery.StepKeeps(rooms, f, a);
    assert StepsTo(rooms, f, a, g) && Path(rooms, f, [f, g], g);
    StepIsOnward(rooms, f, a);
  }

  lemma StepIsOnward(rooms: map<string, set<Client>>, f: Fanout, a: Action)
    requires FanoutSnapshots.Content(rooms, f) && Enabled(rooms, f, a)
             && (a.Dispatch? ==> |f.jobs| < BROADCAST_JOB_CHAN_SIZE)
    ensures Onward(f, Next(rooms, f, a))
  {
    LogMoves(rooms, f, a);
    if a.WorkerSends? {
      FanoutDelivery.SendTriesNext(rooms, f, a.w);
    } else {
      FanoutDelivery.AttemptsStay(rooms, f, a);
    }
  }

  // ---- workers finish ----

  lemma {:induction false} FinishWorker(rooms: map<string, set<Client>>, f: Fanout, w: nat) returns (g: Fanout)
    requires FanoutDelivery.Inv(rooms, f) && w < |f.workers|
    ensures FanoutDelivery.Inv(rooms, g) && Leads(rooms, f, g)
    ensures g.workers == f.workers[w := Idle] && g.jobs == f.jobs && g.callers == f.callers
    decreases if f.workers[w].Sending? then f.workers[w].job.slice.len - f.workers[w].next else 0
  {
    if f.workers[w].Idle? {
      g := f;
      LeadsSelf(rooms, f);
    } else {
      assert FanoutSnapshots.WorkerOk(f.heap, f.log, f.workers[w]);
      if f.workers[w].next < f.workers[w].job.slice.len {
        var f1 := SendOnce(rooms, f, w);
        g := FinishWorker(rooms, f1, w);
        LeadsOn(rooms, f, f1, g);
      } else {
        StepLeads(rooms, f, WorkerReturns(w));
        g := Next(rooms, f, WorkerReturns(w));
      }
    }
  }

  lemma SendOnce(rooms: map<string, set<Client>>, f: Fanout, w: nat) returns (g: Fanout)
    requires FanoutDelivery.Inv(rooms, f) && w < |f.workers| && f.workers[w].Sending?
    requires f.workers[w].next < f.workers[w].job.slice.len
    ensures FanoutDelivery.Inv(rooms, g) && Leads(rooms, f, g)
    ensures g.workers == f.workers[w := Sending(f.workers[w].job, f.workers[w].next + 1)]
    ensures g.jobs == f.jobs && g.callers == f.callers
  {
    assert FanoutSnapshots.WorkerOk(f.heap, f.log, f.workers[w]);
    StepLeads(rooms, f, WorkerSends(w));
    FanoutDelivery.SendTriesNext(rooms, f, w);
    g := Next(rooms, f, WorkerSends(w));
  }

  lemma {:induction false} FinishWorkers(rooms: map<string, set<Client>>, f: Fanout, n: nat) returns (g: Fanout)
    requires FanoutDelivery.Inv(rooms, f) && n <= |f.workers|
    ensures FanoutDelivery.Inv(rooms, g) && Leads(rooms, f, g)
    ensures |g.workers| == |f.workers| && g.jobs == f.jobs && g.callers == f.callers
    ensures forall w | 0 <= w < n :: g.workers[w].Idle?
  {
    if n == 0 {
      g := f;
      LeadsSelf(rooms, f);
    } else {
      var f1 := FinishWorkers(rooms, f, n - 1);
      g := FinishWorker(rooms, f1, n - 1);
      LeadsOn(rooms, f, f1, g);
    }
  }

  /** No job waits, and worker u is free to take the next one. */
  predicate AtRest(f: Fanout, u: nat) {
    f.jobs == [] && u < |f.workers| && f.workers[u].Idle?
  }

  /** Worker u takes the first job and finishes it; the other workers stay where they are. */
  lemma ServeFirst(rooms: map<string, set<Client>>, f: Fanout, u: nat) returns (g: Fanout)
    requires FanoutDelivery.Inv(rooms, f) && f.jobs != [] && u < |f.workers| && f.workers[u].Idle?
    ensures FanoutDelivery.Inv(rooms, g) && Leads(rooms, f, g)
    ensures g.jobs == f.jobs[1..] && g.workers == f.workers && g.callers == f.callers
  {
    assert !f.nilDereference by { assert FanoutSnapshots.Content(rooms, f); }
    StepLeads(rooms, f, WorkerTakes(u));
    var f1 := Next(rooms, f, WorkerTakes(u));
    g := FinishWorker(rooms, f1, u);
    LeadsOn(rooms, f, f1, g);
  }

  lemma {:induction false} ServeSome(rooms: map<string, set<Client>>, f: Fanout, u: nat, n: nat) returns (g: Fanout)
    requires FanoutDelivery.Inv(rooms, f) && n <= |f.jobs| && u < |f.workers| && f.workers[u].Idle?
    ensures FanoutDelivery.Inv(rooms, g) && Leads(rooms, f, g)
    ensures g.jobs == f.jobs[n..] && g.workers == f.workers && g.callers == f.callers
    decreases n
  {
    if n == 0 {
      g := f;
      LeadsSelf(rooms, f);
    } else {
      var f1 := ServeFirst(rooms, f, u);
      g := ServeSome(rooms, f1, u, n - 1);
      LeadsOn(rooms, f, f1, g);
    }
  }

  lemma DrainQueue(rooms: map<string, set<Client>>, f: Fanout, u: nat) returns (g: Fanout)
    requires FanoutDelivery.Inv(rooms, f) && u < |f.workers| && f.workers[u].Idle?
    ensures FanoutDelivery.Inv(rooms, g) && Leads(rooms, f, g)
    ensures AtRest(g, u) && g.workers == f.workers && g.callers == f.callers
  {
    g := ServeSome(rooms, f, u, |f.jobs|);
  }

  // ---- broadcasters finish ----

  lemma {:induction false} Enumeration<T(!new)>(members: set<T>) returns (order: seq<T>)
    ensures Enumerates(order, members)
    decreases members
  {
    if members == {} {
      order := [];
    } else {
      var x :| x in members;
      order := Enumeration(members - {x});
      EnumeratesSnoc(order, members - {x}, x);
      assert members - {x} + {x} == members;
      order := order + [x];
    }
  }

  /** Only caller i moved, and nothing else of what it can meet. */
  ghost predicate CallerAlone(f: Fanout, g: Fanout, i: nat) {
    && g.workers == f.workers && g.jobs == f.jobs && |g.callers| == |f.callers|
    && forall t | 0 <= t < |f.callers| && t != i :: g.callers[t] == f.callers[t]
  }

  lemma AppendOnce(rooms: map<string, set<Client>>, f: Fanout, i: nat) returns (g: Fanout)
    requires FanoutDelivery.Inv(rooms, f) && i < |f.callers| && f.callers[i].Filling? && f.callers[i].todo != []
    ensures FanoutDelivery.Inv(rooms, g) && Leads(rooms, f, g) && CallerAlone(f, g, i)
    ensures g.callers[i].Filling? && g.callers[i].todo == f.callers[i].todo[1..] && g.callers[i].id == f.callers[i].id
  {
    assert FanoutSnapshots.CallerOk(rooms, f.heap, f.log, f.callers[i]);
    var a := Append(i, f.callers[i].slice.len + 1);
    StepLeads(rooms, f, a);
    g := Next(rooms, f, a);
  }

  lemma {:induction false} FillToEnd(rooms: map<string, set<Client>>, f: Fanout, i: nat) returns (g: Fanout)
    requires FanoutDelivery.Inv(rooms, f) && i < |f.callers| && f.callers[i].Filling?
    ensures FanoutDelivery.Inv(rooms, g) && Leads(rooms, f, g) && CallerAlone(f, g, i)
    ensures g.callers[i].Filling? && g.callers[i].todo == [] && g.callers[i].id == f.callers[i].id
    decreases |f.callers[i].todo|
  {
    if f.callers[i].todo == [] {
      g := f;
      LeadsSelf(rooms, f);
    } else {
      var f1 := AppendOnce(rooms, f, i);
      g := FillToEnd(rooms, f1, i);
      LeadsOn(rooms, f, f1, g);
    }
  }

  lemma OneStep(rooms: map<string, set<Client>>, f: Fanout, a: Action) returns (g: Fanout)
    requires FanoutDelivery.Inv(rooms, f) && Enabled(rooms, f, a) && !a.Start?
             && (a.Dispatch? ==> |f.jobs| < BROADCAST_JOB_CHAN_SIZE)
    ensures g == Next(rooms, f, a) && FanoutDelivery.Inv(rooms, g) && Leads(rooms, f, g)
  {
    StepLeads(rooms, f, a);
    g := Next(rooms, f, a);
  }

  /** A broadcaster past its read lock gets its slice filled and lets the lock go; nobody else moves. */
  lemma ReachUnlocked(rooms: map<string, set<Client>>, f: Fanout, i: nat) returns (g: Fanout)
    requires FanoutDelivery.Inv(rooms, f) && i < |f.callers| && IdOf(f, ByCaller(i)).Some?
    ensures FanoutDelivery.Inv(rooms, g) && Leads(rooms, f, g) && CallerAlone(f, g, i)
    ensures g.callers[i].Unlocked? && g.callers[i].id == f.callers[i].id
  {
    g := f;
    LeadsSelf(rooms, f);
    if g.callers[i].Locked? {
      assert !g.nilDereference by { assert FanoutSnapshots.Content(rooms, g); }
      g := OneStep(rooms, g, GetNew(i));
    }
    if g.callers[i].Filling? {
      g := FillAndUnlock(rooms, f, g, i);
    }
  }

  lemma FillAndUnlock(rooms: map<string, set<Client>>, f0: Fanout, f: Fanout, i: nat) returns (g: Fanout)
    requires Leads(rooms, f0, f) && FanoutDelivery.Inv(rooms, f) && i < |f.callers| && f.callers[i].Filling?
    ensures FanoutDelivery.Inv(rooms, g) && Leads(rooms, f0, g) && CallerAlone(f, g, i)
    ensures g.callers[i].Unlocked? && g.callers[i].id == f.callers[i].id
  {
    var f1 := FillToEnd(rooms, f, i);
    assert !f1.nilDereference by { assert FanoutSnapshots.Content(rooms, f1); }
    g := OneStep(rooms, f1, Unlock(i));
    LeadsOn(rooms, f, f1, g);
    LeadsOn(rooms, f0, f, g);
  }

  /** From the read lock, or past it, to the hand-over, which worker u serves. */
  lemma HandOver(rooms: map<string, set<Client>>, f: Fanout, u: nat, i: nat) returns (g: Fanout)
    requires FanoutDelivery.Inv(rooms, f) && AtRest(f, u) && i < |f.callers| && IdOf(f, ByCaller(i)).Some?
    ensures FanoutDelivery.Inv(rooms, g) && Leads(rooms, f, g)
    ensures AtRest(g, u) && g.workers == f.workers && g.callers == f.callers[i := Free]
  {
    var f1 := ReachUnlocked(rooms, f, i);
    assert !f1.nilDereference by { assert FanoutSnapshots.Content(rooms, f1); }
    var f2 := OneStep(rooms, f1, Dispatch(i));
    LeadsOn(rooms, f, f1, f2);
    g := DrainQueue(rooms, f2, u);
    LeadsOn(rooms, f, f2, g);
  }

  /** A call to a room that is there: the room is snapshotted under a new number, and every member is tried. */
  lemma CallIsServed(rooms: map<string, set<Client>>, f: Fanout, u: nat, i: nat) returns (g: Fanout)
    requires FanoutDelivery.Inv(rooms, f) && AtRest(f, u) && i < |f.callers| && f.callers[i].Called?
             && f.callers[i].room in rooms
    ensures FanoutDelivery.Inv(rooms, g) && Leads(rooms, f, g)
    ensures AtRest(g, u) && g.workers == f.workers && g.callers == f.callers[i := Free]
    ensures |f.log| < |g.log| && g.log[|f.log|].payload == f.callers[i].payload
    ensures g.log[|f.log|].members == rooms[f.callers[i].room] && g.log[|f.log|].fate.Finished?
  {
    assert !f.nilDereference by { assert FanoutSnapshots.Content(rooms, f); }
    var order := Enumeration(rooms[f.callers[i].room]);
    var f1 := OneStep(rooms, f, Lock(i, order));
    g := HandOver(rooms, f1, u, i);
    LeadsOn(rooms, f, f1, g);
    NewIsNotCarried(f, g);
  }

  /** Whoever was not served carries what it carried before, nothing new. */
  lemma NewIsNotCarried(f: Fanout, g: Fanout)
    requires Carried(f) && g.workers == f.workers && g.jobs == [] && |g.callers| == |f.callers|
    requires forall i | 0 <= i < |g.callers| :: g.callers[i] == f.callers[i] || g.callers[i].Free?
    ensures forall h :: IdOf(g, h) != Some(|f.log|)
  {
    forall h ensures IdOf(g, h) != Some(|f.log|) {
      if IdOf(g, h).Some? {
        assert IdOf(f, h) == IdOf(g, h);
      }
    }
  }

  lemma FinishCaller(rooms: map<string, set<Client>>, f: Fanout, u: nat, i: nat) returns (g: Fanout)
    requires FanoutDelivery.Inv(rooms, f) && AtRest(f, u) && i < |f.callers|
    ensures FanoutDelivery.Inv(rooms, g) && Leads(rooms, f, g)
    ensures AtRest(g, u) && g.workers == f.workers && g.callers == f.callers[i := Free]
  {
    match f.callers[i] {
      case Free =>
        g := f;
        LeadsSelf(rooms, f);
      case Called(room, _) =>
        if room in rooms {
          g := CallIsServed(rooms, f, u, i);
        } else {
          assert !f.nilDereference by { assert FanoutSnapshots.Content(rooms, f); }
          g := OneStep(rooms, f, Miss(i));
        }
      case _ => g := HandOver(rooms, f, u, i);
    }
  }

  lemma {:induction false} FinishCallers(rooms: map<string, set<Client>>, f: Fanout, u: nat, n: nat)
    returns (g: Fanout)
    requires FanoutDelivery.Inv(rooms, f) && AtRest(f, u) && n <= |f.callers|
    ensures FanoutDelivery.Inv(rooms, g) && Leads(rooms, f, g)
    ensures AtRest(g, u) && g.workers == f.workers && |g.callers| == |f.callers|
    ensures forall i | 0 <= i < n :: g.callers[i].Free?
  {
    if n == 0 {
      g := f;
      LeadsSelf(rooms, f);
    } else {
      var f1 := FinishCallers(rooms, f, u, n - 1);
      g := FinishCaller(rooms, f1, u, n - 1);
      LeadsOn(rooms, f, f1, g);
    }
  }

  // ---- everything finishes ----

  /** No call is in progress, no job waits, and worker u is free. */
  predicate Quiet(f: Fanout, u: nat) {
    AtRest(f, u) && forall i | 0 <= i < |f.callers| :: f.callers[i].Free?
  }

  /** Worker u alone can serve whatever is in progress, while the others stand still. */
  lemma Calm(rooms: map<string, set<Client>>, f: Fanout, u: nat) returns (g: Fanout)
    requires FanoutDelivery.Inv(rooms, f) && u < |f.workers|
    ensures FanoutDelivery.Inv(rooms, g) && Leads(rooms, f, g)
    ensures Quiet(g, u) && g.workers == f.workers[u := Idle] && |g.callers| == |f.callers|
  {
    var f1 := FinishWorker(rooms, f, u);
    var f2 := DrainQueue(rooms, f1, u);
    LeadsOn(rooms, f, f1, f2);
    g := FinishCallers(rooms, f2, u, |f2.callers|);
    LeadsOn(rooms, f, f2, g);
  }

  /** From any state that keeps the invariant some run of the fan-out ends with every broadcaster and worker free and
      the queue empty, dropping nothing on the way. */
  lemma CanFinish(rooms: map<string, set<Client>>, f: Fanout) returns (g: Fanout)
    requires FanoutDelivery.Inv(rooms, f)
    ensures FanoutDelivery.Inv(rooms, g) && Leads(rooms, f, g) && |g.callers| == |f.callers|
    ensures Quiet(g, 0) && forall w | 0 <= w < |g.workers| :: g.workers[w].Idle?
  {
    var f1 := FinishWorkers(rooms, f, |f.workers|);
    g := Calm(rooms, f1, 0);
    LeadsOn(rooms, f, f1, g);
  }

  /** A finished handoff has been tried on all its members. */
  lemma FinishedHasTried(rooms: map<string, set<Client>>, f: Fanout, id: nat, c: Client) returns (a: nat)
    requires FanoutDelivery.Inv(rooms, f) && id < |f.log| && f.log[id].fate.Finished? && c in f.log[id].members
    ensures a < |f.attempts| && f.attempts[a].id == id && f.attempts[a].client == c
            && f.attempts[a].payload == f.log[id].payload
  {
    assert FanoutDelivery.FateOk(f.log, f.attempts, id);
    assert Enumerates(f.log[id].order, f.log[id].members) by { assert FanoutSnapshots.Content(rooms, f); }
    a := VisitWasAttempt(f.attempts, id, c);
  }

  lemma {:induction false} VisitWasAttempt(attempts: seq<Attempt>, id: nat, c: Client) returns (a: nat)
    requires c in FanoutDelivery.Visited(attempts, id)
    ensures a < |attempts| && attempts[a].id == id && attempts[a].client == c
  {
    var last := |attempts| - 1;
    if attempts[last].id == id && attempts[last].client == c {
      a := last;
    } else {
      a := VisitWasAttempt(attempts[..last], id, c);
    }
  }
}

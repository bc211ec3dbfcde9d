/** Who was tried, what the Send channels hold, and where every snapshotted client went. */
module FanoutDelivery {
  import opened Wire
  import opened Seqs
  import opened Fanout
  import opened FanoutSafety
  import opened FanoutSnapshots

  // ---- attempts ----

  /** The clients handoff id was tried on, in order. */
  function Visited(attempts: seq<Attempt>, id: nat): seq<Client> {
    if attempts == [] then []
    else
      var last := attempts[|attempts| - 1];
      Visited(attempts[..|attempts| - 1], id) + if last.id == id then [last.client] else []
  }

  lemma VisitedSnoc(attempts: seq<Attempt>, x: Attempt, id: nat)
    ensures Visited(attempts + [x], id) == Visited(attempts, id) + if x.id == id then [x.client] else []
  {
    assert (attempts + [x])[..|attempts|] == attempts;
  }

  lemma {:induction false} NeverVisited(attempts: seq<Attempt>, id: nat)
    requires forall k | 0 <= k < |attempts| :: attempts[k].id < id
    ensures Visited(attempts, id) == []
  {
    if attempts != [] {
      NeverVisited(attempts[..|attempts| - 1], id);
    }
  }

  lemma {:induction false} AttemptWasVisit(attempts: seq<Attempt>, a: nat)
    requires a < |attempts|
    ensures attempts[a].client in Visited(attempts, attempts[a].id)
  {
    var last := |attempts| - 1;
    if a != last {
      assert attempts[..last][a] == attempts[a];
      AttemptWasVisit(attempts[..last], a);
    }
  }

  /** How far the holder of a handoff has got. */
  function Progress(f: Fanout, h: Holder): nat {
    match h
    case ByWorker(w) => if w < |f.workers| && f.workers[w].Sending? then f.workers[w].next else 0
    case _ => 0
  }

  ghost predicate HolderVisited(f: Fanout, h: Holder)
  {
    var id := IdOf(f, h);
    id.Some? && id.value < |f.log| && Progress(f, h) <= |f.log[id.value].order| ==>
      Visited(f.attempts, id.value) == f.log[id.value].order[..Progress(f, h)]
  }

  /** What is known of handoff id whoever carries it. */
  ghost predicate FateOk(log: seq<Handoff>, attempts: seq<Attempt>, id: nat)
    requires id < |log|
  {
    && Visited(attempts, id) <= log[id].order
    && (log[id].fate.Finished? ==> Visited(attempts, id) == log[id].order)
    && (log[id].fate.DroppedWhole? ==> Visited(attempts, id) == [])
  }

  /** A handoff in progress was tried on a prefix of its order, a finished one on all of it, a dropped one on none. */
  ghost predicate Attempted(f: Fanout) {
    && (forall k | 0 <= k < |f.attempts| ::
          f.attempts[k].id < |f.log| && f.attempts[k].payload == f.log[f.attempts[k].id].payload)
    && (forall h :: HolderVisited(f, h))
    && (forall id | 0 <= id < |f.log| :: FateOk(f.log, f.attempts, id))
  }

  lemma ProgressMoves(rooms: map<string, set<Client>>, f: Fanout, a: Action, h: Holder)
    requires Enabled(rooms, f, a) && IdOf(Next(rooms, f, a), h).Some? && !a.WorkerSends?
    ensures Progress(Next(rooms, f, a), h) == Progress(f, CarrierBefore(f, a, h))
  {
    if !a.Dispatch? && !OfWorker(a) {
      assert Next(rooms, f, a).workers == f.workers && CarrierBefore(f, a, h) == h;
    }
  }

  lemma AttemptsStay(rooms: map<string, set<Client>>, f: Fanout, a: Action)
    requires Enabled(rooms, f, a) && !a.WorkerSends?
    ensures Next(rooms, f, a).attempts == f.attempts
  {
  }

  /** The worker that settles a handoff has tried all of it, the broadcaster that drops one, none. */
  lemma SettlesRight(rooms: map<string, set<Client>>, f: Fanout, a: Action)
    requires Content(rooms, f) && Attempted(f) && Enabled(rooms, f, a) && Settled(f, a).Some?
    ensures var id := Settled(f, a).value;
            id < |f.log| && Visited(f.attempts, id) == if a.Dispatch? then [] else f.log[id].order
  {
    if a.Dispatch? {
      assert CallerOk(rooms, f.heap, f.log, f.callers[a.i]);
      assert HolderVisited(f, ByCaller(a.i));
    } else {
      assert WorkerOk(f.heap, f.log, f.workers[a.w]);
      assert HolderVisited(f, ByWorker(a.w));
    }
  }

  /** A handoff is dropped whole by the dispatch that finds the job queue full, and finished by the return of the worker
      that has its job; no other step ends one. */
  lemma EndsOnlyThen(rooms: map<string, set<Client>>, f: Fanout, a: Action, id: nat)
    requires Enabled(rooms, f, a) && id < |f.log| && f.log[id].fate.Pending?
    ensures id < |Next(rooms, f, a).log|
    ensures Next(rooms, f, a).log[id].fate.DroppedWhole?
            <==> a.Dispatch? && f.callers[a.i].id == id && BROADCAST_JOB_CHAN_SIZE <= |f.jobs|
    ensures Next(rooms, f, a).log[id].fate.Finished? <==> a.WorkerReturns? && f.workers[a.w].job.id == id
  {
    LogMoves(rooms, f, a);
  }

  lemma HoldersKeepVisits(rooms: map<string, set<Client>>, f: Fanout, a: Action, h: Holder)
    requires Attempted(f) && Carried(f) && Enabled(rooms, f, a) && !a.WorkerSends?
    ensures HolderVisited(Next(rooms, f, a), h)
  {
    LogMoves(rooms, f, a);
    AttemptsStay(rooms, f, a);
    IdsMove(rooms, f, a, h);
    if IdOf(Next(rooms, f, a), h).Some? {
      ProgressMoves(rooms, f, a, h);
      assert HolderVisited(f, CarrierBefore(f, a, h));
      NeverVisited(f.attempts, |f.log|);
    }
  }

  lemma OtherStepsKeepFates(rooms: map<string, set<Client>>, f: Fanout, a: Action, id: nat)
    requires Content(rooms, f) && Attempted(f) && Enabled(rooms, f, a) && !a.WorkerSends?
    requires id < |Next(rooms, f, a).log|
    ensures FateOk(Next(rooms, f, a).log, f.attempts, id)
  {
    LogMoves(rooms, f, a);
    if Settled(f, a).Some? {
      SettlesRight(rooms, f, a);
    }
    if id == |f.log| {
      NeverVisited(f.attempts, id);
    } else {
      assert FateOk(f.log, f.attempts, id);
    }
  }

  lemma OtherStepsKeepAttempts(rooms: map<string, set<Client>>, f: Fanout, a: Action)
    requires Content(rooms, f) && Carried(f) && Attempted(f) && Enabled(rooms, f, a) && !a.WorkerSends?
    ensures Attempted(Next(rooms, f, a))
  {
    LogMoves(rooms, f, a);
    AttemptsStay(rooms, f, a);
    forall id: nat | id < |Next(rooms, f, a).log| ensures FateOk(Next(rooms, f, a).log, f.attempts, id) {
      OtherStepsKeepFates(rooms, f, a, id);
    }
    forall h ensures HolderVisited(Next(rooms, f, a), h) {
      HoldersKeepVisits(rooms, f, a, h);
    }
  }

  /** The worker tries the next client of its handoff's order. */
  lemma SendTriesNext(rooms: map<string, set<Client>>, f: Fanout, w: nat)
    requires Content(rooms, f) && Enabled(rooms, f, WorkerSends(w))
    ensures var f', job := Next(rooms, f, WorkerSends(w)), f.workers[w].job;
            && job.id < |f.log| && f.log[job.id].payload == job.payload
            && f.workers[w].next < |f.log[job.id].order|
            && var c := f.log[job.id].order[f.workers[w].next];
               && f'.attempts == f.attempts + [Attempt(job.id, c, job.payload, |SendOf(f, c)| < SEND_CHAN_SIZE)]
               && f'.sends == (if |SendOf(f, c)| < SEND_CHAN_SIZE then f.sends[c := SendOf(f, c) + [job.payload]]
                               else f.sends)
               && f'.workers == f.workers[w := Sending(job, f.workers[w].next + 1)]
               && f'.log == f.log && f'.jobs == f.jobs && f'.callers == f.callers
               && f'.queued + f'.skipped == f.queued + f.skipped + 1
               && f'.snapshotted == f.snapshotted && f'.dropped == f.dropped
  {
    assert WorkerOk(f.heap, f.log, f.workers[w]);
  }

  /** A send adds one client to one handoff's visits: the next of its order. */
  lemma SendVisits(rooms: map<string, set<Client>>, f: Fanout, f': Fanout, w: nat, id: nat)
    requires Content(rooms, f) && HolderVisited(f, ByWorker(w))
    requires Enabled(rooms, f, WorkerSends(w)) && f' == Next(rooms, f, WorkerSends(w))
    ensures f.workers[w].job.id < |f.log| && f.workers[w].next < |f.log[f.workers[w].job.id].order|
    ensures Visited(f'.attempts, id) ==
            if id == f.workers[w].job.id then f.log[id].order[..f.workers[w].next + 1] else Visited(f.attempts, id)
  {
    SendTriesNext(rooms, f, w);
    VisitedSnoc(f.attempts, f'.attempts[|f.attempts|], id);
    var order, n := f.log[f.workers[w].job.id].order, f.workers[w].next;
    assert order[..n + 1] == order[..n] + [order[n]];
  }

  lemma SendKeepsHolder(rooms: map<string, set<Client>>, f: Fanout, w: nat, h: Holder)
    requires Content(rooms, f) && Carried(f) && Attempted(f) && Enabled(rooms, f, WorkerSends(w))
    ensures HolderVisited(Next(rooms, f, WorkerSends(w)), h)
  {
    SendTriesNext(rooms, f, w);
    var f', mine := Next(rooms, f, WorkerSends(w)), f.workers[w].job.id;
    assert IdOf(f', h) == IdOf(f, h) && IdOf(f, ByWorker(w)) == Some(mine);
    if IdOf(f, h).Some? {
      assert HolderVisited(f, ByWorker(w));
      SendVisits(rooms, f, f', w, IdOf(f, h).value);
      assert HolderVisited(f, h);
      assert h != ByWorker(w) ==> IdOf(f, h) != Some(mine);
    }
  }

  lemma SendKeepsAttempts(rooms: map<string, set<Client>>, f: Fanout, w: nat)
    requires Content(rooms, f) && Carried(f) && Attempted(f) && Enabled(rooms, f, WorkerSends(w))
    ensures Attempted(Next(rooms, f, WorkerSends(w)))
  {
    var f' := Next(rooms, f, WorkerSends(w));
    SendTriesNext(rooms, f, w);
    assert IdOf(f, ByWorker(w)) == Some(f.workers[w].job.id);
    forall id: nat | id < |f.log| ensures FateOk(f.log, f'.attempts, id) {
      assert HolderVisited(f, ByWorker(w)) && FateOk(f.log, f.attempts, id);
      SendVisits(rooms, f, f', w, id);
    }
    forall h ensures HolderVisited(f', h) {
      SendKeepsHolder(rooms, f, w, h);
    }
  }

  lemma AttemptedKept(rooms: map<string, set<Client>>, f: Fanout, a: Action)
    requires Content(rooms, f) && Carried(f) && Attempted(f) && Enabled(rooms, f, a)
    ensures Attempted(Next(rooms, f, a))
  {
    if a.WorkerSends? {
      SendKeepsAttempts(rooms, f, a.w);
    } else {
      OtherStepsKeepAttempts(rooms, f, a);
    }
  }

  // ---- Send channels ----

  /** The payloads accepted by c's Send channel, oldest first. */
  function Accepted(attempts: seq<Attempt>, c: Client): seq<Payload> {
    if attempts == [] then []
    else
      var last := attempts[|attempts| - 1];
      Accepted(attempts[..|attempts| - 1], c) + if last.client == c && last.queued then [last.payload] else []
  }

  ghost predicate SuffixOf<T>(xs: seq<T>, ys: seq<T>) {
    |xs| <= |ys| && ys[|ys| - |xs|..] == xs
  }

  /** A Send channel holds the newest of what it accepted, at most its capacity. */
  ghost predicate SendsOk(f: Fanout) {
    forall c | c in f.sends :: |f.sends[c]| <= SEND_CHAN_SIZE && SuffixOf(f.sends[c], Accepted(f.attempts, c))
  }

  lemma AcceptedSnoc(attempts: seq<Attempt>, x: Attempt, c: Client)
    ensures Accepted(attempts + [x], c) == Accepted(attempts, c) + if x.client == c && x.queued then [x.payload] else []
  {
    assert (attempts + [x])[..|attempts|] == attempts;
  }

  lemma SuffixSnoc<T>(xs: seq<T>, ys: seq<T>, t: seq<T>)
    requires SuffixOf(xs, ys)
    ensures SuffixOf(xs + t, ys + t)
  {
  }

  lemma SuffixTail<T>(xs: seq<T>, ys: seq<T>)
    requires SuffixOf(xs, ys) && xs != []
    ensures SuffixOf(xs[1..], ys)
  {
    assert ys[|ys| - |xs| + 1..] == ys[|ys| - |xs|..][1..];
  }

  lemma SendKeepsChannels(rooms: map<string, set<Client>>, f: Fanout, w: nat)
    requires Content(rooms, f) && SendsOk(f) && Enabled(rooms, f, WorkerSends(w))
    ensures SendsOk(Next(rooms, f, WorkerSends(w)))
  {
    var f' := Next(rooms, f, WorkerSends(w));
    SendTriesNext(rooms, f, w);
    var x := f'.attempts[|f.attempts|];
    forall c | c in f'.sends ensures |f'.sends[c]| <= SEND_CHAN_SIZE
      && SuffixOf(f'.sends[c], Accepted(f'.attempts, c)) {
      AttemptKeepsChannel(f, x, f'.sends, c);
    }
  }

  /** One attempt, seen from any Send channel. */
  lemma AttemptKeepsChannel(f: Fanout, x: Attempt, sends: map<Client, seq<Payload>>, c: Client)
    requires SendsOk(f) && c in sends && x.queued == (|SendOf(f, x.client)| < SEND_CHAN_SIZE)
    requires sends == if x.queued then f.sends[x.client := SendOf(f, x.client) + [x.payload]] else f.sends
    ensures |sends[c]| <= SEND_CHAN_SIZE && SuffixOf(sends[c], Accepted(f.attempts + [x], c))
  {
    AcceptedSnoc(f.attempts, x, c);
    if c == x.client && x.queued {
      SuffixSnoc(SendOf(f, c), Accepted(f.attempts, c), [x.payload]);
    }
  }

  lemma ReadKeepsChannels(rooms: map<string, set<Client>>, f: Fanout, c: Client)
    requires SendsOk(f) && Enabled(rooms, f, ClientReads(c))
    ensures SendsOk(Next(rooms, f, ClientReads(c)))
  {
    SuffixTail(f.sends[c], Accepted(f.attempts, c));
  }

  lemma SendsKept(rooms: map<string, set<Client>>, f: Fanout, a: Action)
    requires Content(rooms, f) && SendsOk(f) && Enabled(rooms, f, a)
    ensures SendsOk(Next(rooms, f, a))
  {
    match a {
      case WorkerSends(w) => SendKeepsChannels(rooms, f, w);
      case ClientReads(c) => ReadKeepsChannels(rooms, f, c);
      case _ => AttemptsStay(rooms, f, a);
    }
  }

  // ---- conservation ----

  function CallerWeight(c: Caller): nat {
    match c
    case Locked(_, _, _, todo) => |todo|
    case Filling(_, _, _, todo, slice) => slice.len + |todo|
    case Unlocked(_, _, slice) => slice.len
    case _ => 0
  }

  function JobWeight(j: Job): nat {
    j.slice.len
  }

  function WorkerWeight(w: Worker): nat {
    if w.Sending? && w.next <= w.job.slice.len then w.job.slice.len - w.next else 0
  }

  /** Clients snapshotted and not yet tried or dropped: with a broadcaster, in the queue or with a worker. */
  function Outstanding(f: Fanout): nat {
    Sum(f.callers, CallerWeight) + Sum(f.jobs, JobWeight) + Sum(f.workers, WorkerWeight)
  }

  ghost predicate Tally(f: Fanout) {
    && f.snapshotted == f.queued + f.skipped + f.dropped + Outstanding(f)
    && |f.attempts| == f.queued + f.skipped
    && |f.jobs| <= BROADCAST_JOB_CHAN_SIZE
    && |f.workers| == WORKER_COUNT
  }

  /** Steps before the hand-over weigh the same, except that a lock adds what it snapshots. */
  lemma CallerStepWeighs(rooms: map<string, set<Client>>, f: Fanout, a: Action)
    requires Tally(f) && Enabled(rooms, f, a) && !OfWorker(a) && !a.Dispatch? && !a.Append?
    ensures Tally(Next(rooms, f, a))
  {
    var f' := Next(rooms, f, a);
    match a {
      case Spawn => SumSnoc(f.callers, Free, CallerWeight);
      case Start(i, _, _) => CallerMoves(f, f', i);
      case Lock(i, _) => CallerMoves(f, f', i);
      case Miss(i) => CallerMoves(f, f', i);
      case GetPooled(i, _) => CallerMoves(f, f', i);
      case GetNew(i) => CallerMoves(f, f', i);
      case Unlock(i) => CallerMoves(f, f', i);
      case _ =>
    }
  }

  /** Only caller i changed, by as much as was snapshotted. */
  lemma CallerMoves(f: Fanout, f': Fanout, i: nat)
    requires Tally(f) && i < |f.callers| == |f'.callers| && f'.callers == f.callers[i := f'.callers[i]]
    requires f'.jobs == f.jobs && f'.workers == f.workers && f'.attempts == f.attempts
    requires f'.queued == f.queued && f'.skipped == f.skipped && f'.dropped == f.dropped
    requires f'.snapshotted - f.snapshotted == CallerWeight(f'.callers[i]) - CallerWeight(f.callers[i])
    ensures Tally(f')
  {
    SumUpdate(f.callers, i, f'.callers[i], CallerWeight);
  }

  lemma AppendWeighs(rooms: map<string, set<Client>>, f: Fanout, i: nat, newCap: nat)
    requires Tally(f) && Enabled(rooms, f, Append(i, newCap))
    ensures Tally(Next(rooms, f, Append(i, newCap)))
  {
    CallerMoves(f, AppendNext(f, i, newCap), i);
  }

  lemma DispatchWeighs(rooms: map<string, set<Client>>, f: Fanout, i: nat)
    requires Tally(f) && Enabled(rooms, f, Dispatch(i))
    ensures Tally(Next(rooms, f, Dispatch(i)))
  {
    var c := f.callers[i];
    SumUpdate(f.callers, i, Free, CallerWeight);
    SumSnoc(f.jobs, Job(c.slice, c.payload, c.id), JobWeight);
  }

  lemma WorkerStepWeighs(rooms: map<string, set<Client>>, f: Fanout, a: Action)
    requires Content(rooms, f) && Tally(f) && Enabled(rooms, f, a) && OfWorker(a)
    ensures Tally(Next(rooms, f, a))
  {
    match a {
      case WorkerTakes(w) =>
        SumUpdate(f.workers, w, Sending(f.jobs[0], 0), WorkerWeight);
      case WorkerSends(w) =>
        SendTriesNext(rooms, f, w);
        SumUpdate(f.workers, w, Sending(f.workers[w].job, f.workers[w].next + 1), WorkerWeight);
      case WorkerReturns(w) =>
        SumUpdate(f.workers, w, Idle, WorkerWeight);
    }
  }

  lemma TallyKept(rooms: map<string, set<Client>>, f: Fanout, a: Action)
    requires Content(rooms, f) && Tally(f) && Enabled(rooms, f, a)
    ensures Tally(Next(rooms, f, a))
  {
    match a {
      case Append(i, newCap) => AppendWeighs(rooms, f, i, newCap);
      case Dispatch(i) => DispatchWeighs(rooms, f, i);
      case _ =>
        if OfWorker(a) {
          WorkerStepWeighs(rooms, f, a);
        } else {
          CallerStepWeighs(rooms, f, a);
        }
    }
  }

  // ---- all together ----

  ghost predicate Inv(rooms: map<string, set<Client>>, f: Fanout) {
    Owned(f) && Carried(f) && NoneLost(f) && Content(rooms, f) && Attempted(f) && SendsOk(f) && Tally(f)
  }

  lemma StepKeeps(rooms: map<string, set<Client>>, f: Fanout, a: Action)
    requires Inv(rooms, f) && Enabled(rooms, f, a)
    ensures Inv(rooms, Next(rooms, f, a))
  {
    OwnedKept(rooms, f, a);
    CarriedKept(rooms, f, a);
    NoneLostKept(rooms, f, a);
    ContentKept(rooms, f, a);
    AttemptedKept(rooms, f, a);
    SendsKept(rooms, f, a);
    TallyKept(rooms, f, a);
  }

  lemma {:induction false} IdleWorkersWeighNothing(ws: seq<Worker>)
    requires forall w | 0 <= w < |ws| :: ws[w].Idle?
    ensures Sum(ws, WorkerWeight) == 0
  {
    if ws != [] {
      IdleWorkersWeighNothing(ws[1..]);
    }
  }

  /** Nothing has happened yet. */
  predicate Unused(f: Fanout) {
    && f.heap == [] && f.pool == multiset{} && f.callers == [] && f.jobs == []
    && |f.workers| == WORKER_COUNT && (forall w | 0 <= w < |f.workers| :: f.workers[w].Idle?)
    && f.sends == map[] && !f.nilDereference && f.log == [] && f.attempts == []
    && f.snapshotted == f.queued == f.skipped == f.dropped == 0
  }

  lemma UnusedHoldsNothing(f: Fanout, h: Holder)
    requires Unused(f)
    ensures IdOf(f, h).None? && SliceOf(f, h).None?
  {
  }

  lemma UnusedOk(rooms: map<string, set<Client>>, f: Fanout)
    requires Unused(f)
    ensures Inv(rooms, f)
  {
    IdleWorkersWeighNothing(f.workers);
    forall h ensures IdOf(f, h).None? && SliceOf(f, h).None? {
      UnusedHoldsNothing(f, h);
    }
    assert Owned(f);
    assert Carried(f) && NoneLost(f);
  }
}

/** What a crash, a shutdown and a second session can cost. */
module ConsumerShutdown {
  import opened Wire
  import opened ConsumerSession
  import opened ConsumerLedger
  import opened Seqs

  // ---- crash ----

  /** Records whose offset is marked, so that Kafka will not deliver them again, and which were not malformed. */
  ghost function MarkedParsed(cfg: Config, s: State): set<Item> {
    set p: nat, o: nat | p < |s.claims| && o < |s.claims[p].messages| && o in s.claims[p].marks
                         && !ParseMessage(cfg.codec, s.claims[p].messages[o]).Failed?
      :: ItemOf(cfg, p, s.claims[p].messages, o)
  }

  /** Messages whose flush ended, persisted or declared dropped. */
  ghost function Resolved(s: State): set<Item> {
    set x | x in Flat(s.batches)
  }

  lemma MarkedWasEnqueued(cfg: Config, s: State)
    requires Reachable(cfg, s) && s.session == 1
    ensures forall x | x in MarkedParsed(cfg, s) :: x in s.enqueued
  {
    Ledger(cfg, s);
    forall p: nat, o: nat | p < |s.claims| && o < |s.claims[p].messages| && o in s.claims[p].marks
                            && !ParseMessage(cfg.codec, s.claims[p].messages[o]).Failed?
      ensures ItemOf(cfg, p, s.claims[p].messages, o) in s.enqueued
    {
      var c := s.claims[p];
      InIota(MarkedUpTo(c), o);
      OwedInOrder(cfg, p, c.messages, SentUpTo(c));
      ProjIsPart(s.enqueued, p, ItemOf(cfg, p, c.messages, o));
    }
  }

  ghost function Unresolved(s: State): set<Item> {
    (set x | x in s.enqueued) - Resolved(s)
  }

  /** What is enqueued and unresolved is exactly what the buffer and the channel hold. */
  lemma UnresolvedIsInFlight(cfg: Config, s: State)
    requires Reachable(cfg, s)
    ensures Unresolved(s) == set x | x in s.buffer + s.queue
  {
    Ledger(cfg, s);
    var flat, rest := Flat(s.batches), s.buffer + s.queue;
    assert s.enqueued == flat + rest;
    NoDupConcat(flat, rest);
  }

  /** A crash at any moment, mid-flush or after the worker left, loses at most the channel plus one batch:
      in any session of what was enqueued, and in the first of what was marked. */
  lemma CrashLossBound(cfg: Config, s: State)
    requires Reachable(cfg, s)
    ensures |Unresolved(s)| <= CHANNEL_BUFFER_SIZE + Cap(cfg)
    ensures s.session == 1 ==> |MarkedParsed(cfg, s) - Resolved(s)| <= CHANNEL_BUFFER_SIZE + Cap(cfg)
  {
    UnresolvedIsInFlight(cfg, s);
    CardinalityOfSeq(s.buffer + s.queue);
    InFlightIsBounded(cfg, s);
    if s.session == 1 {
      MarkedWasEnqueued(cfg, s);
      SubsetIsSmaller(MarkedParsed(cfg, s) - Resolved(s), Unresolved(s));
    }
  }

  lemma InFlightIsBounded(cfg: Config, s: State)
    requires Reachable(cfg, s)
    ensures |s.queue| <= CHANNEL_BUFFER_SIZE && |s.buffer| <= Cap(cfg)
  {
    ReachableInv(cfg, s);
  }

  // ---- shutdown ----

  /** The worker leaves by the closed channel only when nothing is left anywhere: every enqueued message, and so
      every marked one, was persisted or declared dropped. */
  lemma CloseExitDrains(cfg: Config, s: State)
    requires Reachable(cfg, s) && s.worker == Stopped(ByClose)
    ensures s.closed && s.queue == [] && s.enqueued == Flat(s.batches)
    ensures s.session == 1 ==> MarkedParsed(cfg, s) <= Resolved(s)
  {
    ReachableInv(cfg, s);
    if s.session == 1 {
      MarkedWasEnqueued(cfg, s);
    }
  }

  /** The message's flush ended without a row. */
  ghost predicate InDropped(batches: seq<Batch>, x: Item) {
    exists i :: 0 <= i < |batches| && batches[i].outcome.Dropped? && x in batches[i].items
  }

  lemma {:induction false} PersistedUnlessDropped(batches: seq<Batch>, x: Item)
    requires NoDup(Flat(batches)) && x in Flat(batches)
    ensures x in FlatPersisted(batches) <==> !InDropped(batches, x)
  {
    var last := |batches| - 1;
    var front := batches[..last];
    assert Flat(batches) == Flat(front) + batches[last].items;
    NoDupConcat(Flat(front), batches[last].items);
    if x in Flat(front) {
      PersistedUnlessDropped(front, x);
      assert forall i | 0 <= i < last :: front[i] == batches[i];
    } else {
      NotInFront(front, x);
    }
  }

  lemma {:induction false} NotInFront(batches: seq<Batch>, x: Item)
    requires x !in Flat(batches)
    ensures x !in FlatPersisted(batches) && forall i | 0 <= i < |batches| :: x !in batches[i].items
  {
    if batches != [] {
      NotInFront(batches[..|batches| - 1], x);
      assert forall i | 0 <= i < |batches| - 1 :: batches[..|batches| - 1][i] == batches[i];
    }
  }

  /** After the closed-channel exit the table is complete: every marked message of the first session is a row if and
      only if its batch was not dropped. */
  lemma DrainedTableIsComplete(cfg: Config, s: State, x: Item)
    requires Reachable(cfg, s) && s.session == 1 && s.worker == Stopped(ByClose) && x in MarkedParsed(cfg, s)
    ensures x in s.rows <==> !InDropped(s.batches, x)
  {
    CloseExitDrains(cfg, s);
    Ledger(cfg, s);
    InsertedAtMostOnce(cfg, s);
    PersistedUnlessDropped(s.batches, x);
  }

  /** After the context-cancelled exit what is abandoned is exactly the channel's contents; once the first
      session has ended, that is exactly what is marked and unresolved. */
  lemma CancelExitAbandonsChannel(cfg: Config, s: State)
    requires Reachable(cfg, s) && s.worker == Stopped(ByCancel)
    ensures Unresolved(s) == (set x | x in s.queue) && |s.queue| <= CHANNEL_BUFFER_SIZE
    ensures s.session == 1 && s.stage.Ended? ==> MarkedParsed(cfg, s) - Resolved(s) == (set x | x in s.queue)
  {
    UnresolvedIsInFlight(cfg, s);
    InFlightIsBounded(cfg, s);
    assert s.buffer == [] by { ReachableInv(cfg, s); }
    assert s.buffer + s.queue == s.queue;
    if s.session == 1 && s.stage.Ended? {
      MarkedWasEnqueued(cfg, s);
      forall x | x in s.enqueued ensures x in MarkedParsed(cfg, s) {
        ExitedClaimsMarkedAll(cfg, s, x);
      }
    }
  }

  lemma ExitedClaimsMarkedAll(cfg: Config, s: State, x: Item)
    requires Reachable(cfg, s) && s.session == 1 && !s.stage.Running? && x in s.enqueued
    ensures x in MarkedParsed(cfg, s)
  {
    ReachableInv(cfg, s);
    var c := s.claims[x.partition];
    assert ClaimOk(cfg, x.partition, c, s.enqueued);
    ProjIsPart(s.enqueued, x.partition, x);
    OwedInOrder(cfg, x.partition, c.messages, SentUpTo(c));
    InIota(MarkedUpTo(c), x.offset);
  }

  /** A first session that has ended lost nothing exactly when the channel it closed is empty. */
  lemma EndedLosslessIff(cfg: Config, s: State)
    requires Reachable(cfg, s) && s.session == 1 && s.stage.Ended?
    ensures MarkedParsed(cfg, s) <= Resolved(s) <==> s.queue == []
    ensures s.worker == Stopped(ByClose) ==> s.queue == []
  {
    assert s.worker.Stopped? by { ReachableInv(cfg, s); }
    if s.worker.via.ByClose? {
      CloseExitDrains(cfg, s);
    } else {
      CancelExitAbandonsChannel(cfg, s);
      forall x ensures x in s.queue <==> x in MarkedParsed(cfg, s) && x !in Resolved(s) {
        assert x in (set y | y in s.queue) <==> x in MarkedParsed(cfg, s) - Resolved(s);
      }
      assert s.queue != [] ==> s.queue[0] in s.queue;
    }
  }

  // ---- when Cleanup loses nothing ----

  /** Nothing that is marked is lost for good. */
  ghost predicate Lossless(cfg: Config, s: State) {
    MarkedParsed(cfg, s) <= Resolved(s)
  }

  /** However the rest of this session goes, it ends without loss. */
  ghost predicate AlwaysLossless(cfg: Config, s: State) {
    forall acts, t | Run(cfg, s, acts, t) && t.session == s.session && t.stage.Ended? :: Lossless(cfg, t)
  }

  /** Once every claim has returned nothing is sent any more, so an empty channel stays empty for the session. */
  lemma {:induction false} StaysEmpty(cfg: Config, s: State, acts: seq<Action>, t: State)
    requires Run(cfg, s, acts, t) && t.session == s.session && s.queue == []
    requires forall p | 0 <= p < |s.claims| :: s.claims[p].phase.Exited?
    ensures t.queue == []
    decreases |acts|
  {
    if acts != [] {
      var s' := Next(cfg, s, acts[0]);
      SessionsRise(cfg, s', acts[1..], t);
      ExitedStepIsQuiet(cfg, s, acts[0]);
      StaysEmpty(cfg, s', acts[1..], t);
    }
  }

  lemma ExitedStepIsQuiet(cfg: Config, s: State, a: Action)
    requires Enabled(s, a) && forall p | 0 <= p < |s.claims| :: s.claims[p].phase.Exited?
    ensures |Next(cfg, s, a).queue| <= |s.queue|
    ensures Next(cfg, s, a).session == s.session ==> Next(cfg, s, a).claims == s.claims
  {
  }

  lemma {:induction false} SessionsRise(cfg: Config, s: State, acts: seq<Action>, t: State)
    requires Run(cfg, s, acts, t)
    ensures s.session <= t.session
    decreases |acts|
  {
    if acts != [] {
      SessionsRise(cfg, Next(cfg, s, acts[0]), acts[1..], t);
    }
  }

  lemma ReachableRun(cfg: Config, s: State, acts: seq<Action>, t: State)
    requires Reachable(cfg, s) && Run(cfg, s, acts, t)
    ensures Reachable(cfg, t)
  {
    var claims, before :| FreshClaims(claims) && Run(cfg, Init(claims), before, s);
    RunAppend(cfg, Init(claims), before, s, acts, t);
  }

  /** t comes after s in the same session, with the same messages still in the channel and no claim changed. */
  ghost predicate KeepsQueue(cfg: Config, s: State, acts: seq<Action>, t: State) {
    Run(cfg, s, acts, t) && t.queue == s.queue && t.claims == s.claims && !t.panicked
    && t.session == s.session && t.stage == s.stage && t.closed == s.closed
  }

  lemma OneMore(cfg: Config, s: State, acts: seq<Action>, t: State, a: Action)
    requires KeepsQueue(cfg, s, acts, t) && Enabled(t, a)
    requires a.CancelContext? || a.WorkerCancelled? || a.InsertOk? || a.BackoffElapsed?
    ensures KeepsQueue(cfg, s, acts + [a], Next(cfg, t, a))
  {
    RunSnoc(cfg, s, acts, t, a);
  }

  /** A worker in a flush can end it, leaving the channel alone. */
  lemma FlushCanEnd(cfg: Config, s: State) returns (acts: seq<Action>, t: State)
    requires !s.panicked && (s.worker.Inserting? || s.worker.BackingOff?)
    ensures KeepsQueue(cfg, s, acts, t) && t.worker == if s.worker.after.Resume? then Waiting
            else Stopped(s.worker.after.via)
  {
    acts, t := [], s;
    if t.worker.BackingOff? {
      OneMore(cfg, s, acts, t, BackoffElapsed);
      acts, t := acts + [BackoffElapsed], Next(cfg, t, BackoffElapsed);
    }
    if t.worker.Inserting? {
      OneMore(cfg, s, acts, t, InsertOk);
      acts, t := acts + [InsertOk], Next(cfg, t, InsertOk);
    }
  }

  /** A waiting worker can be cancelled and leave, flushing only its buffer. */
  lemma WaitingCanStop(cfg: Config, s: State) returns (acts: seq<Action>, t: State)
    requires !s.panicked && !s.stage.Ended? && s.worker.Waiting?
    ensures KeepsQueue(cfg, s, acts, t) && t.worker.Stopped?
  {
    OneMore(cfg, s, [], s, CancelContext);
    acts, t := [] + [CancelContext], Next(cfg, s, CancelContext);
    OneMore(cfg, s, acts, t, WorkerCancelled);
    acts, t := acts + [WorkerCancelled], Next(cfg, t, WorkerCancelled);
    if t.worker.Inserting? {
      OneMore(cfg, s, acts, t, InsertOk);
      acts, t := acts + [InsertOk], Next(cfg, t, InsertOk);
    }
  }

  lemma WorkerCanStop(cfg: Config, s: State) returns (acts: seq<Action>, t: State)
    requires !s.panicked && !s.stage.Ended?
    ensures KeepsQueue(cfg, s, acts, t) && t.worker.Stopped?
  {
    acts, t := [], s;
    if !s.worker.Waiting? && !s.worker.Stopped? {
      acts, t := FlushCanEnd(cfg, s);
    }
    if t.worker.Waiting? {
      var more, u := WaitingCanStop(cfg, t);
      RunAppend(cfg, s, acts, t, more, u);
      acts, t := acts + more, u;
    }
  }

  /** From where Cleanup is called the session can end with the channel as it is. */
  lemma CanEndWithQueue(cfg: Config, s: State) returns (acts: seq<Action>, t: State)
    requires Enabled(s, CleanupClose) && !s.closed
    ensures Run(cfg, s, acts, t) && t.session == s.session && t.stage.Ended? && t.queue == s.queue
  {
    var before, u := WorkerCanStop(cfg, s);
    RunSnoc(cfg, s, before, u, CleanupClose);
    var v := Next(cfg, u, CleanupClose);
    RunSnoc(cfg, s, before + [CleanupClose], v, CleanupReturn);
    acts, t := before + [CleanupClose] + [CleanupReturn], Next(cfg, v, CleanupReturn);
  }

  /** "Cleanup flushes what remains", at the moment Cleanup is called: every way the first session can end from here is
      lossless if and only if the channel is already empty.  A waiting worker may always pick the cancelled context. */
  lemma ShutdownLosslessIff(cfg: Config, s: State)
    requires Reachable(cfg, s) && s.session == 1 && Enabled(s, CleanupClose)
    ensures AlwaysLossless(cfg, s) <==> s.queue == []
  {
    if s.queue == [] {
      forall acts, t | Run(cfg, s, acts, t) && t.session == s.session && t.stage.Ended? ensures Lossless(cfg, t) {
        StaysEmpty(cfg, s, acts, t);
        ReachableRun(cfg, s, acts, t);
        EndedLosslessIff(cfg, t);
      }
    } else {
      assert !s.closed by { ReachableInv(cfg, s); }
      var acts, t := CanEndWithQueue(cfg, s);
      ReachableRun(cfg, s, acts, t);
      EndedLosslessIff(cfg, t);
      assert !Lossless(cfg, t);
    }
  }

  // ---- how long the drain takes ----

  function Receives(acts: seq<Action>): nat {
    if acts == [] then 0
    else (if acts[0].WorkerReceive? || acts[0].WorkerChannelClosed? then 1 else 0) + Receives(acts[1..])
  }

  /** Receives the worker may still make on a closed channel. */
  function Budget(s: State): nat {
    if s.worker.Stopped? || ((s.worker.Inserting? || s.worker.BackingOff?) && s.worker.after.Quit?) then 0
    else |s.queue| + 1
  }

  /** Once the channel is closed, every run of the session receives from it at most |channel| + 1 times. */
  lemma {:induction false} ReceivesAfterClose(cfg: Config, s: State, acts: seq<Action>, t: State)
    requires s.closed && Run(cfg, s, acts, t)
    requires forall i | 0 <= i < |acts| :: !acts[i].NextSession?
    ensures Receives(acts) + Budget(t) <= Budget(s)
    ensures Receives(acts) <= |s.queue| + 1
    decreases |acts|
  {
    if acts != [] {
      var s' := Next(cfg, s, acts[0]);
      assert s'.closed;
      ReceivesAfterClose(cfg, s', acts[1..], t);
    }
  }

  /** The steps that take a waiting worker on a closed channel to its exit, when inserts succeed. */
  function DrainSteps(cfg: Config, s: State): seq<Action>
    requires s.worker.Waiting?
    decreases |s.queue|
  {
    if s.queue == [] then if s.buffer == [] then [WorkerChannelClosed] else [WorkerChannelClosed, InsertOk]
    else
      var s' := s.(queue := s.queue[1..], buffer := s.buffer + [s.queue[0]]);
      if |s'.buffer| >= cfg.batchSize
      then [WorkerReceive, InsertOk] + DrainSteps(cfg, FinishFlush(s', 1, Resume, false, Persisted))
      else [WorkerReceive] + DrainSteps(cfg, s')
  }

  /** Cleanup's wait can always end: a closed channel can be drained to the close exit from any waiting worker. */
  lemma {:induction false} DrainCanFinish(cfg: Config, s: State) returns (t: State)
    requires s.closed && !s.panicked && s.worker.Waiting?
    ensures Run(cfg, s, DrainSteps(cfg, s), t)
    ensures t.worker == Stopped(ByClose) && t.queue == []
    decreases |s.queue|
  {
    if s.queue == [] {
      var s1 := Next(cfg, s, WorkerChannelClosed);
      if s.buffer == [] {
        t := s1;
        assert Run(cfg, t, [], t);
        assert [WorkerChannelClosed][1..] == [];
      } else {
        t := Next(cfg, s1, InsertOk);
        assert Run(cfg, t, [], t);
        assert [InsertOk][1..] == [] && Run(cfg, s1, [InsertOk], t);
        assert [WorkerChannelClosed, InsertOk][1..] == [InsertOk];
      }
    } else {
      var s1 := Next(cfg, s, WorkerReceive);
      var acts := DrainSteps(cfg, s);
      if s1.worker.Waiting? {
        t := DrainCanFinish(cfg, s1);
        assert acts[1..] == DrainSteps(cfg, s1);
      } else {
        var s2 := Next(cfg, s1, InsertOk);
        t := DrainCanFinish(cfg, s2);
        assert acts[1..][1..] == DrainSteps(cfg, s2);
        assert acts[1..][0] == InsertOk;
        assert Run(cfg, s1, acts[1..], t);
      }
    }
  }

  // ---- the closed channel ----

  /** A step of a reachable state panics exactly when it is a send or a Cleanup of a second session: no step of
      the first session touches a closed channel, and a second session can do neither. */
  lemma PanicsExactlyInSecondSession(cfg: Config, s: State, a: Action)
    requires Reachable(cfg, s) && Enabled(s, a)
    ensures Next(cfg, s, a).panicked <==> s.session == 2 && (a.ClaimSend? || a.CleanupClose?)
    ensures s.session == 2 ==> Next(cfg, s, a).enqueued == s.enqueued && Next(cfg, s, a).session == 2
  {
    assert LifeOk(s) by { ReachableInv(cfg, s); }
    PanicStep(cfg, s, a);
  }

  lemma PanicStep(cfg: Config, s: State, a: Action)
    requires LifeOk(s) && Enabled(s, a)
    ensures Next(cfg, s, a).panicked <==> s.session == 2 && (a.ClaimSend? || a.CleanupClose?)
    ensures s.session == 2 ==> Next(cfg, s, a).enqueued == s.enqueued && Next(cfg, s, a).session == 2
  {
  }

  /** The bad trace, for any record that is not malformed: an uneventful first session, then one record. */
  lemma SecondSessionPanics(cfg: Config, message: string) returns (t: State)
    requires !ParseMessage(cfg.codec, message).Failed?
    ensures Reachable(cfg, t) && t.session == 2 && t.panicked
  {
    var claims := [FreshClaim([message])];
    var s3 := UneventfulSession(cfg);
    ReachableStep(cfg, s3, NextSession(claims));
    t := OneRecordPanics(cfg, Next(cfg, s3, NextSession(claims)), message);
  }

  /** A first session without claims, to the end. */
  lemma UneventfulSession(cfg: Config) returns (t: State)
    ensures Reachable(cfg, t) && t.session == 1 && t.stage.Ended? && t.closed && !t.panicked
  {
    var s0 := Init([]);
    assert FreshClaims([]) && Run(cfg, s0, [], s0);
    ReachableStep(cfg, s0, CleanupClose);
    var s1 := Next(cfg, s0, CleanupClose);
    ReachableStep(cfg, s1, WorkerChannelClosed);
    var s2 := Next(cfg, s1, WorkerChannelClosed);
    ReachableStep(cfg, s2, CleanupReturn);
    t := Next(cfg, s2, CleanupReturn);
  }

  lemma OneRecordPanics(cfg: Config, s: State, message: string) returns (t: State)
    requires Reachable(cfg, s) && s.session == 2 && !s.panicked && s.closed
    requires s.claims == [FreshClaim([message])] && !ParseMessage(cfg.codec, message).Failed?
    ensures Reachable(cfg, t) && t.session == 2 && t.panicked
  {
    ReachableStep(cfg, s, ClaimReceive(0));
    var s1 := Next(cfg, s, ClaimReceive(0));
    ReachableStep(cfg, s1, ClaimSend(0));
    t := Next(cfg, s1, ClaimSend(0));
  }
}

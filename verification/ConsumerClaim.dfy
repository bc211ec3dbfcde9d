/** ConsumeClaim as the program runs it, and a crash that costs as much as the bound allows. */
module ConsumerClaim {
  import opened Wire
  import opened ConsumerSession
  import opened ConsumerLedger
  import opened ConsumerShutdown
  import opened Seqs

  /** What the outer select picks and, for a record that parses, whether the inner select sends it. */
  datatype Pick = Take(sends: bool) | ChannelClosed | ContextDone

  /** What a call has done so far and whether it has returned, with a record received but not sent or without. */
  datatype View = View(sent: seq<Item>, marks: seq<nat>, received: nat, exit: Option<bool>)

  /** One turn of the outer select. */
  function HandlePick(cfg: Config, p: nat, messages: seq<string>, v: View, pick: Pick): View
    requires v.received <= |messages|
  {
    if !pick.Take? || v.received == |messages| then v.(exit := Some(false))
    else if ParseMessage(cfg.codec, messages[v.received]).Failed? then
      v.(marks := v.marks + [v.received], received := v.received + 1)
    else if pick.sends then
      View(v.sent + [ItemOf(cfg, p, messages, v.received)], v.marks + [v.received], v.received + 1, None)
    else v.(received := v.received + 1, exit := Some(true))
  }

  function HandlePicks(cfg: Config, p: nat, messages: seq<string>, v: View, picks: seq<Pick>): View
    requires v.received <= |messages|
    decreases |picks|
  {
    if picks == [] || v.exit.Some? then v
    else HandlePicks(cfg, p, messages, HandlePick(cfg, p, messages, v, picks[0]), picks[1..])
  }

  /** The picks from the i-th on: one turn, then the rest. */
  lemma NextPick(cfg: Config, p: nat, messages: seq<string>, v: View, picks: seq<Pick>, i: nat)
    requires v.received <= |messages| && v.exit.None? && i < |picks|
    ensures HandlePicks(cfg, p, messages, v, picks[i..])
            == HandlePicks(cfg, p, messages, HandlePick(cfg, p, messages, v, picks[i]), picks[i + 1..])
  {
    assert picks[i..][1..] == picks[i + 1..];
  }

  /** One call of ConsumeClaim on an open message channel. */
  class ClaimLoop {
    var sent: seq<Item>  // what this claim pushed to the message channel
    var marks: seq<nat>  // offsets marked in the session

    constructor ()
      ensures sent == [] && marks == []
    {
      sent, marks := [], [];
    }

    /** The claim pushes exactly what it owes for the records it settled, in offset order, and has marked exactly
        those; only a record being sent at cancellation is left unsettled.  It goes on as long as the selects let it: it
        took a record at every pick but the last, and it stops only for a pick that ends it, a record it could not send,
        or the end of the claim or of the picks. */
    method ConsumeClaim(cfg: Config, p: nat, messages: seq<string>, picks: seq<Pick>)
      returns (received: nat, unsent: bool)
      requires sent == [] && marks == []
      modifies this
      ensures received <= |messages| && received <= |picks| && (unsent ==> 0 < received)
      ensures forall i | 0 <= i < (if unsent then received - 1 else received) ::
                picks[i].Take? && (picks[i].sends || ParseMessage(cfg.codec, messages[i]).Failed?)
      ensures unsent ==> picks[received - 1] == Take(false) && !ParseMessage(cfg.codec, messages[received - 1]).Failed?
      ensures !unsent ==> received == |picks| || received == |messages| || !picks[received].Take?
      ensures var settled := if unsent then received - 1 else received;
              sent == Owed(cfg, p, messages, settled) && marks == Iota(settled)
      ensures var v := HandlePicks(cfg, p, messages, View([], [], 0, None), picks);
              sent == v.sent && marks == v.marks && received == v.received && unsent == (v.exit == Some(true))
    {
      received, unsent := 0, false;
      var i := 0;
      while i < |picks|
        invariant 0 <= i == received <= |picks| && received <= |messages| && !unsent
        invariant forall k | 0 <= k < i ::
                    picks[k].Take? && (picks[k].sends || ParseMessage(cfg.codec, messages[k]).Failed?)
        invariant sent == Owed(cfg, p, messages, received) && marks == Iota(received)
        invariant HandlePicks(cfg, p, messages, View(sent, marks, received, None), picks[i..])
                  == HandlePicks(cfg, p, messages, View([], [], 0, None), picks)
      {
        NextPick(cfg, p, messages, View(sent, marks, received, None), picks, i);
        if !picks[i].Take? || received == |messages| {
          return;
        }
        received := received + 1;
        var offset := received - 1;
        if ParseMessage(cfg.codec, messages[offset]).Failed? {
          marks := marks + [offset];
        } else if picks[i].sends {
          sent := sent + [ItemOf(cfg, p, messages, offset)];
          marks := marks + [offset];
        } else {
          unsent := true;
          return;
        }
        i := i + 1;
      }
    }
  }

  // ---- each turn is a run of the session ----

  /** Claim p of the session, as its call sees it. */
  function ClaimPart(s: State, p: nat): View
    requires p < |s.claims|
  {
    var c := s.claims[p];
    View(Proj(s.enqueued, p), c.marks, c.received, if c.phase.Exited? then Some(c.phase.unsent) else None)
  }

  /** The pick gives a record to be sent, for which the inner select chooses the channel. */
  predicate Sends(cfg: Config, c: Claim, pick: Pick) {
    pick == Take(true) && c.received < |c.messages| && !ParseMessage(cfg.codec, c.messages[c.received]).Failed?
  }

  /** The pick gives a record that the inner select abandons. */
  predicate Abandons(cfg: Config, c: Claim, pick: Pick) {
    pick == Take(false) && c.received < |c.messages| && !ParseMessage(cfg.codec, c.messages[c.received]).Failed?
  }

  /** The session offers what the pick chooses: room in an open channel for a send, a cancelled context to return on. */
  predicate CanPick(cfg: Config, s: State, p: nat, pick: Pick) {
    && !s.panicked && !s.closed && p < |s.claims| && s.claims[p].phase.Selecting?
      && s.claims[p].received <= |s.claims[p].messages|
    && (Sends(cfg, s.claims[p], pick) ==> |s.queue| < CHANNEL_BUFFER_SIZE)
    && (Abandons(cfg, s.claims[p], pick) || pick.ContextDone? ==> s.cancelled)
  }

  function PickSteps(cfg: Config, c: Claim, p: nat, pick: Pick): seq<Action> {
    if pick.ContextDone? then [ClaimCancelled(p)]
    else if pick.ChannelClosed? || c.received >= |c.messages| then [ClaimChannelClosed(p)]
    else if ParseMessage(cfg.codec, c.messages[c.received]).Failed? then [ClaimReceive(p), ClaimMark(p)]
    else if pick.sends then [ClaimReceive(p), ClaimSend(p), ClaimMark(p)]
    else [ClaimReceive(p), ClaimCancelled(p)]
  }

  /** Nothing but claim p and, by what it sent, the channel. */
  predicate OnlyClaim(s: State, t: State, p: nat) {
    && t == s.(claims := t.claims, queue := t.queue, enqueued := t.enqueued)
    && |t.claims| == |s.claims| && forall q | 0 <= q < |s.claims| && q != p :: t.claims[q] == s.claims[q]
  }

  lemma OneStep(cfg: Config, s: State, a: Action) returns (t: State)
    requires Enabled(s, a)
    ensures t == Next(cfg, s, a) && Run(cfg, s, [a], t)
  {
    t := Next(cfg, s, a);
    assert [a][1..] == [] && Run(cfg, t, [], t);
  }

  lemma ReturnIsRun(cfg: Config, s: State, p: nat, pick: Pick) returns (t: State)
    requires CanPick(cfg, s, p, pick) && (!pick.Take? || s.claims[p].received == |s.claims[p].messages|)
    ensures Run(cfg, s, PickSteps(cfg, s.claims[p], p, pick), t) && OnlyClaim(s, t, p) && t.queue == s.queue
    ensures ClaimPart(t, p) == HandlePick(cfg, p, s.claims[p].messages, ClaimPart(s, p), pick)
  {
    t := OneStep(cfg, s, if pick.ContextDone? then ClaimCancelled(p) else ClaimChannelClosed(p));
  }

  lemma MalformedIsRun(cfg: Config, s: State, p: nat, pick: Pick) returns (t: State)
    requires CanPick(cfg, s, p, pick) && pick.Take? && s.claims[p].received < |s.claims[p].messages|
    requires ParseMessage(cfg.codec, s.claims[p].messages[s.claims[p].received]).Failed?
    ensures Run(cfg, s, [ClaimReceive(p), ClaimMark(p)], t) && OnlyClaim(s, t, p) && t.queue == s.queue
    ensures ClaimPart(t, p) == HandlePick(cfg, p, s.claims[p].messages, ClaimPart(s, p), pick)
  {
    var s1 := OneStep(cfg, s, ClaimReceive(p));
    t := OneStep(cfg, s1, ClaimMark(p));
    RunAppend(cfg, s, [ClaimReceive(p)], s1, [ClaimMark(p)], t);
    assert [ClaimReceive(p)] + [ClaimMark(p)] == [ClaimReceive(p), ClaimMark(p)];
  }

  lemma AbandonIsRun(cfg: Config, s: State, p: nat, pick: Pick) returns (t: State)
    requires CanPick(cfg, s, p, pick) && Abandons(cfg, s.claims[p], pick)
    ensures Run(cfg, s, [ClaimReceive(p), ClaimCancelled(p)], t) && OnlyClaim(s, t, p) && t.queue == s.queue
    ensures ClaimPart(t, p) == HandlePick(cfg, p, s.claims[p].messages, ClaimPart(s, p), pick)
  {
    var s1 := OneStep(cfg, s, ClaimReceive(p));
    t := OneStep(cfg, s1, ClaimCancelled(p));
    RunAppend(cfg, s, [ClaimReceive(p)], s1, [ClaimCancelled(p)], t);
    assert [ClaimReceive(p)] + [ClaimCancelled(p)] == [ClaimReceive(p), ClaimCancelled(p)];
  }

  lemma SendIsRun(cfg: Config, s: State, p: nat, pick: Pick) returns (t: State)
    requires CanPick(cfg, s, p, pick) && Sends(cfg, s.claims[p], pick)
    ensures Run(cfg, s, [ClaimReceive(p), ClaimSend(p), ClaimMark(p)], t) && OnlyClaim(s, t, p)
    ensures t.queue == s.queue + [ItemOf(cfg, p, s.claims[p].messages, s.claims[p].received)]
    ensures ClaimPart(t, p) == HandlePick(cfg, p, s.claims[p].messages, ClaimPart(s, p), pick)
  {
    var s1 := OneStep(cfg, s, ClaimReceive(p));
    var s2 := OneStep(cfg, s1, ClaimSend(p));
    t := OneStep(cfg, s2, ClaimMark(p));
    RunAppend(cfg, s, [ClaimReceive(p)], s1, [ClaimSend(p)], s2);
    RunAppend(cfg, s, [ClaimReceive(p)] + [ClaimSend(p)], s2, [ClaimMark(p)], t);
    assert [ClaimReceive(p)] + [ClaimSend(p)] + [ClaimMark(p)] == [ClaimReceive(p), ClaimSend(p), ClaimMark(p)];
    ProjSnoc(s.enqueued, ItemOf(cfg, p, s.claims[p].messages, s.claims[p].received), p);
  }

  /** One turn of ConsumeClaim is a run of the step relation from any state that offers its pick: same messages sent,
      same marks, same records received, same exit; at most one message more in the channel, nothing else touched. */
  lemma PickIsRun(cfg: Config, s: State, p: nat, pick: Pick) returns (t: State)
    requires CanPick(cfg, s, p, pick)
    ensures Run(cfg, s, PickSteps(cfg, s.claims[p], p, pick), t) && OnlyClaim(s, t, p)
    ensures ClaimPart(t, p) == HandlePick(cfg, p, s.claims[p].messages, ClaimPart(s, p), pick)
    ensures t.queue == if Sends(cfg, s.claims[p], pick)
                       then s.queue + [ItemOf(cfg, p, s.claims[p].messages, s.claims[p].received)] else s.queue
  {
    if !pick.Take? || s.claims[p].received == |s.claims[p].messages| {
      t := ReturnIsRun(cfg, s, p, pick);
    } else if ParseMessage(cfg.codec, s.claims[p].messages[s.claims[p].received]).Failed? {
      t := MalformedIsRun(cfg, s, p, pick);
    } else if pick.sends {
      t := SendIsRun(cfg, s, p, pick);
    } else {
      t := AbandonIsRun(cfg, s, p, pick);
    }
  }

  // ---- the crash bound is attained ----

  /** A first session with one claim, none of whose records are malformed. */
  ghost predicate Loading(cfg: Config, s: State) {
    && Reachable(cfg, s) && s.session == 1 && !s.panicked && !s.closed
    && s.stage == Running && |s.claims| == 1 && s.claims[0].phase == Selecting
    && (forall o | 0 <= o < |s.claims[0].messages| :: !ParseMessage(cfg.codec, s.claims[0].messages[o]).Failed?)
    && s.batches == []
  }

  /** One record all the way into the channel, marked. */
  lemma PushOne(cfg: Config, s: State) returns (t: State)
    requires Loading(cfg, s) && s.claims[0].received < |s.claims[0].messages| && |s.queue| < CHANNEL_BUFFER_SIZE
    ensures Loading(cfg, t) && t.worker == s.worker && t.buffer == s.buffer && |t.queue| == |s.queue| + 1
    ensures t.claims[0].messages == s.claims[0].messages && t.claims[0].received == s.claims[0].received + 1
  {
    ReachableStep(cfg, s, ClaimReceive(0));
    var s1 := Next(cfg, s, ClaimReceive(0));
    ReachableStep(cfg, s1, ClaimSend(0));
    var s2 := Next(cfg, s1, ClaimSend(0));
    ReachableStep(cfg, s2, ClaimMark(0));
    t := Next(cfg, s2, ClaimMark(0));
  }

  /** Records flow through an empty channel until the worker holds a full batch and starts inserting it. */
  lemma {:induction false} FillBuffer(cfg: Config, s: State) returns (t: State)
    requires Loading(cfg, s) && s.worker.Waiting? && s.queue == [] && |s.buffer| < Cap(cfg)
    requires s.claims[0].received + (Cap(cfg) - |s.buffer|) <= |s.claims[0].messages|
    ensures Loading(cfg, t) && t.worker.Inserting? && t.queue == [] && |t.buffer| == Cap(cfg)
    ensures t.claims[0].messages == s.claims[0].messages
    ensures t.claims[0].received == s.claims[0].received + (Cap(cfg) - |s.buffer|)
    decreases Cap(cfg) - |s.buffer|
  {
    var s1 := PushOne(cfg, s);
    ReachableStep(cfg, s1, WorkerReceive);
    var s2 := Next(cfg, s1, WorkerReceive);
    if |s2.buffer| < Cap(cfg) {
      t := FillBuffer(cfg, s2);
    } else {
      t := s2;
    }
  }

  lemma {:induction false} FillChannel(cfg: Config, s: State) returns (t: State)
    requires Loading(cfg, s) && |s.queue| <= CHANNEL_BUFFER_SIZE
    requires s.claims[0].received + (CHANNEL_BUFFER_SIZE - |s.queue|) <= |s.claims[0].messages|
    ensures Loading(cfg, t) && |t.queue| == CHANNEL_BUFFER_SIZE && t.buffer == s.buffer && t.worker == s.worker
    decreases CHANNEL_BUFFER_SIZE - |s.queue|
  {
    if |s.queue| == CHANNEL_BUFFER_SIZE {
      t := s;
    } else {
      var s1 := PushOne(cfg, s);
      t := FillChannel(cfg, s1);
    }
  }

  /** The crash bound is exact: for every batch size some reachable state has that many marked messages neither
      persisted nor declared dropped. */
  lemma CrashLossAttained(cfg: Config, message: string) returns (t: State)
    requires !ParseMessage(cfg.codec, message).Failed?
    ensures Reachable(cfg, t) && t.session == 1
    ensures |MarkedParsed(cfg, t) - Resolved(t)| == CHANNEL_BUFFER_SIZE + Cap(cfg)
  {
    var claims := [FreshClaim(seq(CHANNEL_BUFFER_SIZE + Cap(cfg), _ => message))];
    var s0 := Init(claims);
    assert FreshClaims(claims) && Run(cfg, s0, [], s0);
    var s1 := FillBuffer(cfg, s0);
    t := FillChannel(cfg, s1);
    AllEnqueuedIsMarked(cfg, t);
    CountUnresolved(cfg, t);
  }

  /** An orderly shutdown can lose a whole channel: its context ends while the channel is full, the worker picks that
      branch, the claim returns and Cleanup completes. */
  lemma ShutdownLosesChannel(cfg: Config, message: string) returns (t: State)
    requires !ParseMessage(cfg.codec, message).Failed?
    ensures Reachable(cfg, t) && t.session == 1 && t.stage.Ended? && t.worker == Stopped(ByCancel)
    ensures |MarkedParsed(cfg, t) - Resolved(t)| == CHANNEL_BUFFER_SIZE
  {
    var claims := [FreshClaim(seq(CHANNEL_BUFFER_SIZE, _ => message))];
    var s0 := Init(claims);
    assert FreshClaims(claims) && Run(cfg, s0, [], s0);
    var s1 := FillChannel(cfg, s0);
    t := StopNow(cfg, s1);
    forall x | x in t.enqueued ensures x in MarkedParsed(cfg, t) {
      ExitedClaimsMarkedAll(cfg, t, x);
    }
    CountUnresolved(cfg, t);
  }

  /** Cancellation from a waiting worker with an empty buffer to the end of Cleanup. */
  lemma StopNow(cfg: Config, s: State) returns (t: State)
    requires Loading(cfg, s) && s.worker.Waiting? && s.buffer == []
    ensures Reachable(cfg, t) && t.session == 1 && t.stage.Ended? && t.worker == Stopped(ByCancel)
    ensures t.batches == [] && t.buffer == [] && t.queue == s.queue
  {
    ReachableStep(cfg, s, CancelContext);
    var s1 := Next(cfg, s, CancelContext);
    ReachableStep(cfg, s1, WorkerCancelled);
    var s2 := Next(cfg, s1, WorkerCancelled);
    ReachableStep(cfg, s2, ClaimCancelled(0));
    var s3 := Next(cfg, s2, ClaimCancelled(0));
    ReachableStep(cfg, s3, CleanupClose);
    var s4 := Next(cfg, s3, CleanupClose);
    ReachableStep(cfg, s4, CleanupReturn);
    t := Next(cfg, s4, CleanupReturn);
  }

  lemma AllEnqueuedIsMarked(cfg: Config, t: State)
    requires Loading(cfg, t)
    ensures forall x | x in t.enqueued :: x in MarkedParsed(cfg, t)
  {
    Ledger(cfg, t);
    var c := t.claims[0];
    assert Behind(t) by { ReachableInv(cfg, t); }
    forall x | x in t.enqueued ensures x in MarkedParsed(cfg, t) {
      ProjIsPart(t.enqueued, 0, x);
      OwedInOrder(cfg, 0, c.messages, SentUpTo(c));
      InIota(MarkedUpTo(c), x.offset);
    }
  }

  lemma CountUnresolved(cfg: Config, t: State)
    requires Reachable(cfg, t) && t.session == 1 && t.batches == []
    requires forall x | x in t.enqueued :: x in MarkedParsed(cfg, t)
    ensures |MarkedParsed(cfg, t) - Resolved(t)| == |t.buffer| + |t.queue|
  {
    Ledger(cfg, t);
    CardinalityOfSeq(t.enqueued);
    MarkedWasEnqueued(cfg, t);
    assert Resolved(t) == {};
    assert MarkedParsed(cfg, t) - Resolved(t) == set x | x in t.enqueued;
  }
}

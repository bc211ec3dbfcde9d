/** What every step of the consumer pipeline keeps, in every session: where each message is, and what each claim has
    enqueued and marked. */
module ConsumerLedger {
  import opened Wire
  import opened ConsumerSession
  import opened Seqs

  // ---- vocabulary ----

  /** All messages of the finished batches, in flush order. */
  function Flat(batches: seq<Batch>): seq<Item> {
    if batches == [] then [] else Flat(batches[..|batches| - 1]) + batches[|batches| - 1].items
  }

  /** Those of the batches whose insert succeeded. */
  function FlatPersisted(batches: seq<Batch>): seq<Item> {
    if batches == [] then []
    else FlatPersisted(batches[..|batches| - 1])
         + if batches[|batches| - 1].outcome.Persisted? then batches[|batches| - 1].items else []
  }

  /** The subsequence that came from partition p. */
  function Proj(xs: seq<Item>, p: nat): seq<Item> {
    if xs == [] then []
    else Proj(xs[..|xs| - 1], p) + if xs[|xs| - 1].partition == p then [xs[|xs| - 1]] else []
  }

  /** What partition p owes the channel for its first n records: all of them but the unparsable, in offset order. */
  function Owed(cfg: Config, p: nat, messages: seq<string>, n: nat): seq<Item>
    requires n <= |messages|
  {
    if n == 0 then []
    else Owed(cfg, p, messages, n - 1)
         + if ParseMessage(cfg.codec, messages[n - 1]).Failed? then [] else [ItemOf(cfg, p, messages, n - 1)]
  }

  function Iota(n: nat): seq<nat> {
    if n == 0 then [] else Iota(n - 1) + [n - 1]
  }

  /** Records of the claim whose fate is settled up to the channel: the last one received is not, while it is
      being sent or once it was given up. */
  function SentUpTo(c: Claim): nat {
    if (c.phase.Sending? || c.phase == Exited(true)) && 0 < c.received then c.received - 1 else c.received
  }

  function MarkedUpTo(c: Claim): nat {
    if c.phase.Marking? && 0 < c.received then c.received - 1 else SentUpTo(c)
  }

  lemma FlatSnoc(batches: seq<Batch>, b: Batch)
    ensures Flat(batches + [b]) == Flat(batches) + b.items
    ensures FlatPersisted(batches + [b]) == FlatPersisted(batches) + if b.outcome.Persisted? then b.items else []
  {
    assert (batches + [b])[..|batches|] == batches;
  }

  lemma ProjSnoc(xs: seq<Item>, x: Item, p: nat)
    ensures Proj(xs + [x], p) == Proj(xs, p) + if x.partition == p then [x] else []
  {
    assert (xs + [x])[..|xs|] == xs;
  }

  // ---- the invariant ----

  /** Channel, buffer and finished batches account for every message enqueued, in order. */
  ghost predicate Accounted(s: State) {
    && s.enqueued == Flat(s.batches) + s.buffer + s.queue
    && s.rows == FlatPersisted(s.batches)
    && |s.queue| <= CHANNEL_BUFFER_SIZE
  }

  /** A finished flush made one to three attempts, and gave up early only on a cancelled context. */
  ghost predicate BatchOk(cfg: Config, b: Batch) {
    && 1 <= |b.items| <= Cap(cfg)
    && 1 <= b.tries <= MAX_DB_RETRIES
    && (b.outcome.Dropped? ==> b.tries == MAX_DB_RETRIES || b.cutShort)
    && (b.outcome.Persisted? ==> !b.cutShort)
  }

  ghost predicate WorkerOk(cfg: Config, s: State) {
    && (forall i | 0 <= i < |s.batches| :: BatchOk(cfg, s.batches[i]))
    && match s.worker
       case Waiting => |s.buffer| < Cap(cfg)
       case Inserting(tries, _, after) => 1 <= |s.buffer| <= Cap(cfg) && tries < MAX_DB_RETRIES && QuitOk(s, after)
       case BackingOff(tries, _, after) => 1 <= |s.buffer| <= Cap(cfg) && 1 <= tries <= MAX_DB_RETRIES
         && QuitOk(s, after)
       case Stopped(via) => s.buffer == [] && QuitOk(s, Quit(via))
  }

  /** The worker leaves by the close branch only on a closed, drained channel. */
  ghost predicate QuitOk(s: State, after: AfterFlush) {
    after == Quit(ByClose) ==> s.closed && s.queue == []
  }

  ghost predicate LifeOk(s: State) {
    && 1 <= s.session <= 2
    && (s.session == 2 ==> s.stage.Running?)
    && (s.closed <==> s.session >= 2 || !s.stage.Running?)
    && (s.panicked ==> s.session >= 2)
    && (!s.stage.Running? ==> forall p | 0 <= p < |s.claims| :: s.claims[p].phase.Exited?)
    && (s.stage.Ended? ==> s.worker.Stopped?)
  }

  /** One claim against the channel: its share of the channel's history is exactly what it owes, and its marks
      are a prefix. */
  ghost predicate ClaimOk(cfg: Config, p: nat, c: Claim, enqueued: seq<Item>) {
    && c.received <= |c.messages|
    && (c.phase.Sending? || c.phase.Marking? || c.phase == Exited(true) ==> 0 < c.received)
    && (c.phase.Sending? ==> !ParseMessage(cfg.codec, c.messages[c.received - 1]).Failed?
                             && c.phase.item == ItemOf(cfg, p, c.messages, c.received - 1))
    && Proj(enqueued, p) == Owed(cfg, p, c.messages, SentUpTo(c))
    && c.marks == Iota(MarkedUpTo(c))
  }

  /** Offsets on the channel's history stay behind the claims, so nothing is ever enqueued twice. */
  ghost predicate Behind(s: State) {
    forall x | x in s.enqueued :: x.partition < |s.claims| && x.offset < SentUpTo(s.claims[x.partition])
  }

  ghost predicate ClaimsOk(cfg: Config, s: State) {
    && NoDup(s.enqueued)
    && (s.session == 1 ==> Behind(s) && forall p | 0 <= p < |s.claims| :: ClaimOk(cfg, p, s.claims[p], s.enqueued))
  }

  ghost predicate Inv(cfg: Config, s: State) {
    Accounted(s) && WorkerOk(cfg, s) && LifeOk(s) && ClaimsOk(cfg, s)
  }

  // ---- preservation ----

  lemma FinishKeepsAccounts(s: State, tries: nat, after: AfterFlush, cut: bool, outcome: Outcome)
    requires Accounted(s)
    ensures Accounted(FinishFlush(s, tries, after, cut, outcome))
  {
    FlatSnoc(s.batches, Batch(s.buffer, tries, cut, outcome));
  }

  predicate SameAccounts(s: State, t: State) {
    t.enqueued == s.enqueued && t.batches == s.batches && t.rows == s.rows && t.buffer == s.buffer && t.queue == s.queue
  }

  lemma ReceiveKeepsAccounts(cfg: Config, s: State)
    requires Accounted(s) && Enabled(s, WorkerReceive)
    ensures Accounted(Next(cfg, s, WorkerReceive))
  {
    MoveOne(Flat(s.batches), s.buffer, s.queue);
    var s' := s.(queue := s.queue[1..], buffer := s.buffer + [s.queue[0]]);
    assert SameAccounts(s', Next(cfg, s, WorkerReceive));
  }

  lemma MoveOne<T>(done: seq<T>, xs: seq<T>, ys: seq<T>)
    requires ys != []
    ensures done + (xs + [ys[0]]) + ys[1..] == done + xs + ys
  {
  }

  lemma SendKeepsAccounts(s: State, p: nat)
    requires Accounted(s) && Enabled(s, ClaimSend(p))
    ensures Accounted(Send(s, p))
  {
  }

  /** No other step touches an account, but for the buffer a new session starts empty. */
  lemma OtherStepsLeaveAccounts(cfg: Config, s: State, a: Action)
    requires Enabled(s, a) && (s.stage.Ended? ==> s.buffer == [])
    requires !a.InsertOk? && !a.BackoffElapsed? && !a.BackoffCancelled? && !a.WorkerReceive? && !a.ClaimSend?
    ensures SameAccounts(s, Next(cfg, s, a))
  {
  }

  lemma AccountsKept(cfg: Config, s: State, a: Action)
    requires Accounted(s) && Enabled(s, a) && (s.stage.Ended? ==> s.buffer == [])
    ensures Accounted(Next(cfg, s, a))
  {
    match a {
      case InsertOk => FinishKeepsAccounts(s, s.worker.tries + 1, s.worker.after, false, Persisted);
      case BackoffElapsed =>
        if s.worker.tries >= MAX_DB_RETRIES {
          FinishKeepsAccounts(s, s.worker.tries, s.worker.after, false, Dropped);
        }
      case BackoffCancelled => FinishKeepsAccounts(s, s.worker.tries, s.worker.after, true, Dropped);
      case WorkerReceive => ReceiveKeepsAccounts(cfg, s);
      case ClaimSend(p) => SendKeepsAccounts(s, p);
      case _ => OtherStepsLeaveAccounts(cfg, s, a);
    }
  }

  /** The worker's part of the state, as WorkerOk sees it. */
  predicate SameWorker(s: State, t: State) {
    && t.worker == s.worker && t.buffer == s.buffer && t.batches == s.batches
    && (s.closed && s.queue == [] ==> t.closed && t.queue == [])
  }

  lemma ClaimsLeaveWorker(cfg: Config, s: State, a: Action)
    requires Enabled(s, a)
    requires a.CancelContext? || a.ClaimReceive? || a.ClaimChannelClosed? || a.ClaimCancelled? || a.ClaimSend?
             || a.ClaimMark?
             || a.CleanupClose? || a.CleanupReturn?
    ensures SameWorker(s, Next(cfg, s, a))
  {
  }

  lemma FinishKeepsWorker(cfg: Config, s: State, tries: nat, after: AfterFlush, cut: bool, outcome: Outcome)
    requires forall i | 0 <= i < |s.batches| :: BatchOk(cfg, s.batches[i])
    requires BatchOk(cfg, Batch(s.buffer, tries, cut, outcome)) && QuitOk(s, after)
    ensures WorkerOk(cfg, FinishFlush(s, tries, after, cut, outcome))
  {
    var batches := FinishFlush(s, tries, after, cut, outcome).batches;
    forall i | 0 <= i < |batches| ensures BatchOk(cfg, batches[i]) {
    }
  }

  lemma FlushStepKeepsWorker(cfg: Config, s: State, a: Action)
    requires WorkerOk(cfg, s) && Enabled(s, a)
    requires a.InsertOk? || a.InsertFailed? || a.BackoffElapsed? || a.BackoffCancelled?
    ensures WorkerOk(cfg, Next(cfg, s, a))
  {
    if a.InsertOk? {
      FinishKeepsWorker(cfg, s, s.worker.tries + 1, s.worker.after, false, Persisted);
    } else if a.BackoffCancelled? {
      FinishKeepsWorker(cfg, s, s.worker.tries, s.worker.after, true, Dropped);
    } else if a.BackoffElapsed? && s.worker.tries == MAX_DB_RETRIES {
      FinishKeepsWorker(cfg, s, s.worker.tries, s.worker.after, false, Dropped);
    }
  }

  lemma SelectKeepsWorker(cfg: Config, s: State, a: Action)
    requires WorkerOk(cfg, s) && Enabled(s, a)
    requires a.WorkerReceive? || a.WorkerChannelClosed? || a.WorkerTick? || a.WorkerCancelled?
    ensures WorkerOk(cfg, Next(cfg, s, a))
  {
    assert Next(cfg, s, a).batches == s.batches;
  }

  lemma WorkerKept(cfg: Config, s: State, a: Action)
    requires WorkerOk(cfg, s) && Enabled(s, a)
    ensures WorkerOk(cfg, Next(cfg, s, a))
  {
    if a.InsertOk? || a.InsertFailed? || a.BackoffElapsed? || a.BackoffCancelled? {
      FlushStepKeepsWorker(cfg, s, a);
    } else if a.WorkerReceive? || a.WorkerChannelClosed? || a.WorkerTick? || a.WorkerCancelled? {
      SelectKeepsWorker(cfg, s, a);
    } else if a.NextSession? {
      assert Next(cfg, s, a).batches == s.batches;
    } else {
      ClaimsLeaveWorker(cfg, s, a);
    }
  }

  /** The life cycle as LifeOk sees it. */
  predicate SameLife(s: State, t: State) {
    t.session == s.session && t.stage == s.stage && t.closed == s.closed && t.panicked == s.panicked
  }

  lemma WorkerLeavesLife(cfg: Config, s: State, a: Action)
    requires Enabled(s, a)
    requires a.CancelContext? || a.WorkerReceive? || a.WorkerChannelClosed? || a.WorkerTick? || a.WorkerCancelled?
             || a.InsertOk? || a.InsertFailed? || a.BackoffElapsed? || a.BackoffCancelled?
    ensures SameLife(s, Next(cfg, s, a)) && Next(cfg, s, a).claims == s.claims
    ensures s.worker.Stopped? ==> Next(cfg, s, a).worker == s.worker
  {
  }

  lemma LifeKept(cfg: Config, s: State, a: Action)
    requires LifeOk(s) && Enabled(s, a)
    ensures LifeOk(Next(cfg, s, a))
  {
    if !a.ClaimReceive? && !a.ClaimChannelClosed? && !a.ClaimCancelled? && !a.ClaimSend? && !a.ClaimMark?
       && !a.CleanupClose? && !a.CleanupReturn? && !a.NextSession? {
      WorkerLeavesLife(cfg, s, a);
    }
  }

  /** A claim that moves without touching the channel. */
  lemma ClaimMoves(cfg: Config, s: State, p: nat, c: Claim)
    requires ClaimsOk(cfg, s) && p < |s.claims|
    requires c.messages == s.claims[p].messages
    requires s.session == 1 ==> ClaimOk(cfg, p, c, s.enqueued) && SentUpTo(s.claims[p]) <= SentUpTo(c)
    ensures ClaimsOk(cfg, SetClaim(s, p, c))
  {
  }

  /** Receiving a record: an unparsable one leaves nothing owed, any other is owed once it is sent. */
  lemma ReceiveKeepsClaim(cfg: Config, s: State, p: nat)
    requires Enabled(s, ClaimReceive(p)) && ClaimOk(cfg, p, s.claims[p], s.enqueued)
    ensures ClaimOk(cfg, p, Receive(cfg, s, p).claims[p], s.enqueued)
  {
    var c := s.claims[p];
    var c' := Receive(cfg, s, p).claims[p];
    assert SentUpTo(c) == c.received == MarkedUpTo(c);
    assert MarkedUpTo(c') == c.received;
    if c'.phase.Marking? {
      assert Owed(cfg, p, c.messages, c.received + 1) == Owed(cfg, p, c.messages, c.received);
    }
  }

  lemma MarkKeepsClaim(cfg: Config, s: State, p: nat)
    requires Enabled(s, ClaimMark(p)) && ClaimOk(cfg, p, s.claims[p], s.enqueued)
    ensures ClaimOk(cfg, p, Next(cfg, s, ClaimMark(p)).claims[p], s.enqueued)
  {
    assert MarkedUpTo(s.claims[p]) == s.claims[p].received - 1;
  }

  lemma LeavingKeepsClaim(cfg: Config, s: State, p: nat)
    requires p < |s.claims| && (s.claims[p].phase.Selecting? || s.claims[p].phase.Sending?)
    requires ClaimOk(cfg, p, s.claims[p], s.enqueued)
    ensures ClaimOk(cfg, p, s.claims[p].(phase := Exited(s.claims[p].phase.Sending?)), s.enqueued)
  {
  }

  lemma SendKeepsClaim(cfg: Config, s: State, p: nat, q: nat)
    requires Enabled(s, ClaimSend(p)) && !s.closed && q < |s.claims|
    requires ClaimOk(cfg, p, s.claims[p], s.enqueued) && ClaimOk(cfg, q, s.claims[q], s.enqueued)
    ensures ClaimOk(cfg, q, Send(s, p).claims[q], Send(s, p).enqueued)
  {
    ProjSnoc(s.enqueued, s.claims[p].phase.item, q);
  }

  /** The item sent is new: its offset is not behind its claim, as every enqueued one's is. */
  lemma SendStaysBehind(cfg: Config, s: State, p: nat)
    requires Behind(s) && NoDup(s.enqueued) && Enabled(s, ClaimSend(p)) && !s.closed
    requires ClaimOk(cfg, p, s.claims[p], s.enqueued)
    ensures Behind(Send(s, p)) && NoDup(Send(s, p).enqueued)
  {
    var x := s.claims[p].phase.item;
    assert SentUpTo(s.claims[p]) == x.offset && SentUpTo(Send(s, p).claims[p]) == x.offset + 1;
    assert x !in s.enqueued;
  }

  lemma SendKeepsClaims(cfg: Config, s: State, p: nat)
    requires ClaimsOk(cfg, s) && s.session == 1 && Enabled(s, ClaimSend(p)) && !s.closed
    ensures ClaimsOk(cfg, Send(s, p))
  {
    var t := Send(s, p);
    assert ClaimOk(cfg, p, s.claims[p], s.enqueued);
    SendStaysBehind(cfg, s, p);
    forall q: nat | q < |t.claims| ensures ClaimOk(cfg, q, t.claims[q], t.enqueued) {
      SendKeepsClaim(cfg, s, p, q);
    }
  }

  lemma ClaimStepKept(cfg: Config, s: State, p: nat, a: Action)
    requires ClaimsOk(cfg, s) && Enabled(s, a)
    requires a == ClaimReceive(p) || a == ClaimChannelClosed(p) || a == ClaimCancelled(p) || a == ClaimMark(p)
    ensures ClaimsOk(cfg, Next(cfg, s, a))
  {
    if s.session == 1 {
      OwnStepKeepsClaim(cfg, s, p, a);
    }
    ClaimMoves(cfg, s, p, Next(cfg, s, a).claims[p]);
  }

  lemma OwnStepKeepsClaim(cfg: Config, s: State, p: nat, a: Action)
    requires ClaimsOk(cfg, s) && Enabled(s, a) && s.session == 1
    requires a == ClaimReceive(p) || a == ClaimChannelClosed(p) || a == ClaimCancelled(p) || a == ClaimMark(p)
    ensures p < |Next(cfg, s, a).claims| && ClaimOk(cfg, p, Next(cfg, s, a).claims[p], s.enqueued)
  {
    assert ClaimOk(cfg, p, s.claims[p], s.enqueued);
    match a {
      case ClaimReceive(_) => ReceiveKeepsClaim(cfg, s, p);
      case ClaimMark(_) => MarkKeepsClaim(cfg, s, p);
      case _ => LeavingKeepsClaim(cfg, s, p);
    }
  }

  lemma ClaimsKept(cfg: Config, s: State, a: Action)
    requires Inv(cfg, s) && Enabled(s, a)
    ensures ClaimsOk(cfg, Next(cfg, s, a))
  {
    match a {
      case ClaimReceive(p) => ClaimStepKept(cfg, s, p, a);
      case ClaimChannelClosed(p) => ClaimStepKept(cfg, s, p, a);
      case ClaimCancelled(p) => ClaimStepKept(cfg, s, p, a);
      case ClaimMark(p) => ClaimStepKept(cfg, s, p, a);
      case ClaimSend(p) => if !s.closed { SendKeepsClaims(cfg, s, p); }
      case _ => OtherStepsLeaveClaims(cfg, s, a);
    }
  }

  lemma OtherStepsLeaveClaims(cfg: Config, s: State, a: Action)
    requires Enabled(s, a) && !a.ClaimReceive? && !a.ClaimChannelClosed? && !a.ClaimCancelled? && !a.ClaimMark?
    requires !a.ClaimSend?
    ensures Next(cfg, s, a).enqueued == s.enqueued
    ensures !a.NextSession? ==> Next(cfg, s, a).session == s.session && Next(cfg, s, a).claims == s.claims
    ensures a.NextSession? ==> Next(cfg, s, a).session == s.session + 1
  {
  }

  lemma {:induction false} InvHoldsOnRun(cfg: Config, s: State, acts: seq<Action>, t: State)
    requires Inv(cfg, s) && Run(cfg, s, acts, t)
    ensures Inv(cfg, t)
    decreases |acts|
  {
    if acts != [] {
      AccountsKept(cfg, s, acts[0]);
      WorkerKept(cfg, s, acts[0]);
      LifeKept(cfg, s, acts[0]);
      ClaimsKept(cfg, s, acts[0]);
      InvHoldsOnRun(cfg, Next(cfg, s, acts[0]), acts[1..], t);
    }
  }

  lemma ReachableInv(cfg: Config, s: State)
    requires Reachable(cfg, s)
    ensures Inv(cfg, s)
  {
    var claims, acts :| FreshClaims(claims) && Run(cfg, Init(claims), acts, s);
    InvHoldsOnRun(cfg, Init(claims), acts, s);
  }

  // ---- the ledger ----

  /** In every reachable state of every session, whatever the interleaving: the finished batches, then the
      buffer, then the channel are exactly what was enqueued, in order and without repetition; within the first
      session each partition's share is what its claim owes in offset order, marks are a prefix of the claim,
      and at most one record of a partition is enqueued but not yet marked. */
  lemma Ledger(cfg: Config, s: State)
    requires Reachable(cfg, s)
    ensures s.enqueued == Flat(s.batches) + s.buffer + s.queue
    ensures NoDup(s.enqueued)
    ensures s.session == 1 ==> forall p | 0 <= p < |s.claims| ::
              && SentUpTo(s.claims[p]) <= |s.claims[p].messages|
              && Proj(s.enqueued, p) == Owed(cfg, p, s.claims[p].messages, SentUpTo(s.claims[p]))
              && s.claims[p].marks == Iota(MarkedUpTo(s.claims[p]))
              && MarkedUpTo(s.claims[p]) <= SentUpTo(s.claims[p]) <= MarkedUpTo(s.claims[p]) + 1
  {
    ReachableInv(cfg, s);
    forall p | 0 <= p < |s.claims| && s.session == 1
      ensures ClaimOk(cfg, p, s.claims[p], s.enqueued) {
    }
  }

  /** What a claim owes rises strictly in offset, and holds exactly the records that do not fail to parse. */
  lemma OwedInOrder(cfg: Config, p: nat, messages: seq<string>, n: nat)
    requires n <= |messages|
    ensures var xs := Owed(cfg, p, messages, n);
            && (forall i, j | 0 <= i < j < |xs| :: xs[i].offset < xs[j].offset)
            && (forall x | x in xs :: x.offset < n && x == ItemOf(cfg, p, messages, x.offset))
            && (forall o: nat | o < n ::
                !ParseMessage(cfg.codec, messages[o]).Failed? <==> ItemOf(cfg, p, messages, o) in xs)
  {
    OwedRises(cfg, p, messages, n);
    forall x ensures x in Owed(cfg, p, messages, n) <==>
                     x.offset < n && !ParseMessage(cfg.codec, messages[x.offset]).Failed?
                       && x == ItemOf(cfg, p, messages, x.offset) {
      InOwed(cfg, p, messages, n, x);
    }
  }

  /** The envelope decodes and, when it is a danmaku's, so does its data. */
  predicate Readable(codec: Codec, message: string) {
    && codec.unpacket(message).Some?
    && (codec.unpacket(message).value.kind == TYPE_DANMAKU ==>
          codec.undanmaku(codec.unpacket(message).value.data).Some?)
  }

  /** A record is owed exactly when it is readable: as the decoded danmaku, or as the nil message when its envelope
      names another type. */
  lemma OwedIsReadable(cfg: Config, p: nat, messages: seq<string>, n: nat)
    requires n <= |messages|
    ensures forall o: nat | o < n ::
              (exists x :: x in Owed(cfg, p, messages, n) && x.offset == o) <==> Readable(cfg.codec, messages[o])
    ensures forall x | x in Owed(cfg, p, messages, n) ::
              && x.offset < n && Readable(cfg.codec, messages[x.offset])
              && var packet := cfg.codec.unpacket(messages[x.offset]).value;
                 x.body == if packet.kind == TYPE_DANMAKU then cfg.codec.undanmaku(packet.data) else None
  {
    OwedInOrder(cfg, p, messages, n);
    forall o: nat | o < n
      ensures (exists x :: x in Owed(cfg, p, messages, n) && x.offset == o) <==> Readable(cfg.codec, messages[o]) {
      ParseOutcome(cfg.codec, messages[o]);
      assert ItemOf(cfg, p, messages, o).offset == o;
    }
    forall x | x in Owed(cfg, p, messages, n)
      ensures Readable(cfg.codec, messages[x.offset])
      ensures var packet := cfg.codec.unpacket(messages[x.offset]).value;
              x.body == if packet.kind == TYPE_DANMAKU then cfg.codec.undanmaku(packet.data) else None {
      ParseOutcome(cfg.codec, messages[x.offset]);
    }
  }

  lemma {:induction false} OwedRises(cfg: Config, p: nat, messages: seq<string>, n: nat)
    requires n <= |messages|
    ensures forall i | 0 <= i < |Owed(cfg, p, messages, n)| :: Owed(cfg, p, messages, n)[i].offset < n
    ensures forall i, j | 0 <= i < j < |Owed(cfg, p, messages, n)| ::
              Owed(cfg, p, messages, n)[i].offset < Owed(cfg, p, messages, n)[j].offset
  {
    if n != 0 {
      OwedRises(cfg, p, messages, n - 1);
      var front, x := Owed(cfg, p, messages, n - 1), ItemOf(cfg, p, messages, n - 1);
      assert Owed(cfg, p, messages, n) == if ParseMessage(cfg.codec, messages[n - 1]).Failed? then front
             else front + [x];
    }
  }

  lemma {:induction false} InOwed(cfg: Config, p: nat, messages: seq<string>, n: nat, x: Item)
    requires n <= |messages|
    ensures x in Owed(cfg, p, messages, n) <==>
            x.offset < n && !ParseMessage(cfg.codec, messages[x.offset]).Failed?
              && x == ItemOf(cfg, p, messages, x.offset)
  {
    if n != 0 {
      InOwed(cfg, p, messages, n - 1, x);
    }
  }

  lemma {:induction false} ProjIsPart(xs: seq<Item>, p: nat, x: Item)
    ensures x in Proj(xs, p) <==> x in xs && x.partition == p
  {
    if xs != [] {
      ProjIsPart(xs[..|xs| - 1], p, x);
      assert xs == xs[..|xs| - 1] + [xs[|xs| - 1]];
    }
  }

  lemma {:induction false} InIota(n: nat, k: nat)
    ensures k in Iota(n) <==> k < n
  {
    if n != 0 {
      InIota(n - 1, k);
    }
  }

  // ---- no message is inserted twice ----

  lemma {:induction false} PersistedPart(batches: seq<Batch>)
    requires NoDup(Flat(batches))
    ensures NoDup(FlatPersisted(batches))
    ensures forall x | x in FlatPersisted(batches) :: x in Flat(batches)
  {
    if batches != [] {
      var k := |batches| - 1;
      NoDupConcat(Flat(batches[..k]), batches[k].items);
      PersistedPart(batches[..k]);
      NoDupConcat(FlatPersisted(batches[..k]), batches[k].items);
    }
  }

  /** Retries never insert a message twice, in any reachable state: the table's rows are the successful batches,
      a part of what was enqueued, without repetition; and each flush made one to three attempts, dropping its
      batch only after the third or on a cancelled context. */
  lemma InsertedAtMostOnce(cfg: Config, s: State)
    requires Reachable(cfg, s)
    ensures s.rows == FlatPersisted(s.batches) && NoDup(s.rows)
    ensures forall x | x in s.rows :: x in s.enqueued
    ensures forall i | 0 <= i < |s.batches| :: BatchOk(cfg, s.batches[i])
  {
    ReachableInv(cfg, s);
    assert s.enqueued == Flat(s.batches) + (s.buffer + s.queue);
    NoDupConcat(Flat(s.batches), s.buffer + s.queue);
    PersistedPart(s.batches);
  }
}

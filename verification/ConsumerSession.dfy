/** The Kafka-to-database pipeline as an interleaved step relation: any number of ConsumeClaim loops, the
    bounded message channel, the one database worker, and the session life cycle that starts and stops them.
    `enqueued`, `batches`, `rows` and the claims' `marks` are histories; no step reads them. */
module ConsumerSession {
  import opened Wire

  const CHANNEL_BUFFER_SIZE: nat := 2000
  const MAX_DB_RETRIES: nat := 3

  datatype Config = Config(batchSize: nat, codec: Codec)

  /** Most messages a batch can hold: the worker tests the length after appending. */
  function CapOf(batchSize: nat): nat {
    if batchSize == 0 then 1 else batchSize
  }

  function Cap(cfg: Config): nat {
    CapOf(cfg.batchSize)
  }

  /** What the channel carries.  The program's element is the body alone, nil for a skipped packet;
      partition and offset say which Kafka record it came from. */
  datatype Item = Item(partition: nat, offset: nat, body: Option<Danmaku>)

  // ---- state ----

  datatype Phase = Selecting | Sending(item: Item) | Marking | Exited(unsent: bool)

  /** One ConsumeClaim call; `received` counts the records taken from claim.Messages(). */
  datatype Claim = Claim(messages: seq<string>, received: nat, phase: Phase, marks: seq<nat>)

  datatype Exit = ByClose | ByCancel
  datatype AfterFlush = Resume | Quit(via: Exit)

  /** `tries` is the number of insert attempts made so far; `cancellable` says the flush watches the session
      context rather than a background one. */
  datatype Worker =
    | Waiting
    | Inserting(tries: nat, cancellable: bool, after: AfterFlush)
    | BackingOff(tries: nat, cancellable: bool, after: AfterFlush)
    | Stopped(via: Exit)

  datatype Outcome = Persisted | Dropped
  datatype Batch = Batch(items: seq<Item>, tries: nat, cutShort: bool, outcome: Outcome)

  datatype Stage = Running | Closing | Ended

  datatype State = State(
    session: nat, stage: Stage, cancelled: bool,
    closed: bool, panicked: bool, queue: seq<Item>,
    claims: seq<Claim>, worker: Worker, buffer: seq<Item>,
    enqueued: seq<Item>, batches: seq<Batch>, rows: seq<Item>)

  function FreshClaim(messages: seq<string>): Claim {
    Claim(messages, 0, Selecting, [])
  }

  /** A session's claims before any of them ran. */
  predicate FreshClaims(claims: seq<Claim>) {
    forall p | 0 <= p < |claims| :: claims[p] == FreshClaim(claims[p].messages)
  }

  /** A new handler right after Setup of its first session. */
  function Init(claims: seq<Claim>): State {
    State(1, Running, false, false, false, [], claims, Waiting, [], [], [], [])
  }

  // ---- steps ----

  datatype Action =
    | CancelContext
    | ClaimReceive(p: nat) | ClaimChannelClosed(p: nat) | ClaimCancelled(p: nat) | ClaimSend(p: nat) | ClaimMark(p: nat)
    | WorkerReceive | WorkerChannelClosed | WorkerTick | WorkerCancelled
    | InsertOk | InsertFailed | BackoffElapsed | BackoffCancelled
    | CleanupClose | CleanupReturn
    | NextSession(claims: seq<Claim>)

  predicate Enabled(s: State, a: Action) {
    !s.panicked &&
    match a
    case CancelContext => !s.stage.Ended?
    case ClaimReceive(p) => p < |s.claims| && s.claims[p].phase.Selecting?
      && s.claims[p].received < |s.claims[p].messages|
    case ClaimChannelClosed(p) => p < |s.claims| && s.claims[p].phase.Selecting?
    case ClaimCancelled(p) => p < |s.claims| && s.cancelled
      && (s.claims[p].phase.Selecting? || s.claims[p].phase.Sending?)
    case ClaimSend(p) => p < |s.claims| && s.claims[p].phase.Sending? && (s.closed || |s.queue| < CHANNEL_BUFFER_SIZE)
    case ClaimMark(p) => p < |s.claims| && s.claims[p].phase.Marking? && 0 < s.claims[p].received
    case WorkerReceive => s.worker.Waiting? && s.queue != []
    case WorkerChannelClosed => s.worker.Waiting? && s.closed && s.queue == []
    case WorkerTick => s.worker.Waiting?
    case WorkerCancelled => s.worker.Waiting? && s.cancelled
    case InsertOk => s.worker.Inserting?
    case InsertFailed => s.worker.Inserting?
    case BackoffElapsed => s.worker.BackingOff?
    case BackoffCancelled => s.worker.BackingOff? && s.worker.cancellable && s.cancelled
    // Sarama calls Cleanup once every ConsumeClaim of the session has returned
    case CleanupClose => s.stage == Running && forall p | 0 <= p < |s.claims| :: s.claims[p].phase.Exited?
    case CleanupReturn => s.stage == Closing && s.worker.Stopped?
    case NextSession(claims) => s.stage == Ended && FreshClaims(claims)
  }

  function ItemOf(cfg: Config, p: nat, messages: seq<string>, offset: nat): (x: Item)
    requires offset < |messages|
    ensures x.partition == p && x.offset == offset
  {
    match ParseMessage(cfg.codec, messages[offset])
    case Message(d) => Item(p, offset, Some(d))
    case _ => Item(p, offset, None)
  }

  function SetClaim(s: State, p: nat, c: Claim): State
    requires p < |s.claims|
  {
    s.(claims := s.claims[p := c])
  }

  /** A record that does not parse is marked and forgotten; every other one, the nil message included, goes to
      the channel. */
  function Receive(cfg: Config, s: State, p: nat): State
    requires Enabled(s, ClaimReceive(p))
  {
    var c := s.claims[p];
    var phase := if ParseMessage(cfg.codec, c.messages[c.received]).Failed? then Marking
                 else Sending(ItemOf(cfg, p, c.messages, c.received));
    SetClaim(s, p, c.(received := c.received + 1, phase := phase))
  }

  /** Sending on a closed channel panics. */
  function Send(s: State, p: nat): State
    requires Enabled(s, ClaimSend(p))
  {
    var c := s.claims[p];
    if s.closed then s.(panicked := true)
    else
      var x := c.phase.item;
      SetClaim(s, p, c.(phase := Marking)).(queue := s.queue + [x], enqueued := s.enqueued + [x])
  }

  /** flushBuffer returns at once on an empty batch. */
  function StartFlush(s: State, cancellable: bool, after: AfterFlush): State {
    if s.buffer == [] then s.(worker := if after.Resume? then Waiting else Stopped(after.via))
    else s.(worker := Inserting(0, cancellable, after))
  }

  /** flushBuffer returns and the worker resets its buffer or leaves. */
  function FinishFlush(s: State, tries: nat, after: AfterFlush, cutShort: bool, outcome: Outcome): State {
    s.(worker := if after.Resume? then Waiting else Stopped(after.via),
       buffer := [],
       batches := s.batches + [Batch(s.buffer, tries, cutShort, outcome)],
       rows := if outcome.Persisted? then s.rows + s.buffer else s.rows)
  }

  function Next(cfg: Config, s: State, a: Action): State
    requires Enabled(s, a)
  {
    match a
    case CancelContext => s.(cancelled := true)
    case ClaimReceive(p) => Receive(cfg, s, p)
    case ClaimChannelClosed(p) => SetClaim(s, p, s.claims[p].(phase := Exited(false)))
    case ClaimCancelled(p) => SetClaim(s, p, s.claims[p].(phase := Exited(s.claims[p].phase.Sending?)))
    case ClaimSend(p) => Send(s, p)
    case ClaimMark(p) =>
      SetClaim(s, p, s.claims[p].(phase := Selecting, marks := s.claims[p].marks + [s.claims[p].received - 1]))
    case WorkerReceive =>
      var s' := s.(queue := s.queue[1..], buffer := s.buffer + [s.queue[0]]);
      if |s'.buffer| >= cfg.batchSize then StartFlush(s', true, Resume) else s'
    case WorkerChannelClosed => StartFlush(s, true, Quit(ByClose))
    case WorkerTick => StartFlush(s, true, Resume)
    case WorkerCancelled => StartFlush(s, false, Quit(ByCancel))
    case InsertOk => FinishFlush(s, s.worker.tries + 1, s.worker.after, false, Persisted)
    case InsertFailed => s.(worker := BackingOff(s.worker.tries + 1, s.worker.cancellable, s.worker.after))
    case BackoffElapsed =>
      if s.worker.tries < MAX_DB_RETRIES then s.(worker := Inserting(s.worker.tries, s.worker.cancellable,
                                                                     s.worker.after))
      else FinishFlush(s, s.worker.tries, s.worker.after, false, Dropped)
    case BackoffCancelled => FinishFlush(s, s.worker.tries, s.worker.after, true, Dropped)
    // closing a closed channel panics
    case CleanupClose => if s.closed then s.(panicked := true) else s.(closed := true, stage := Closing)
    case CleanupReturn => s.(stage := Ended)
    // the same handler is used again: the channel stays as Cleanup left it
    case NextSession(claims) =>
      s.(session := s.session + 1, stage := Running, cancelled := false, claims := claims, worker := Waiting,
         buffer := [])
  }

  // ---- runs ----

  predicate Run(cfg: Config, s: State, acts: seq<Action>, t: State)
    decreases |acts|
  {
    if acts == [] then s == t
    else Enabled(s, acts[0]) && Run(cfg, Next(cfg, s, acts[0]), acts[1..], t)
  }

  ghost predicate Reachable(cfg: Config, s: State) {
    exists claims, acts :: FreshClaims(claims) && Run(cfg, Init(claims), acts, s)
  }

  lemma {:induction false} RunSnoc(cfg: Config, s: State, acts: seq<Action>, t: State, a: Action)
    requires Run(cfg, s, acts, t) && Enabled(t, a)
    ensures Run(cfg, s, acts + [a], Next(cfg, t, a))
    decreases |acts|
  {
    if acts == [] {
      assert Run(cfg, Next(cfg, t, a), [], Next(cfg, t, a));
    } else {
      RunSnoc(cfg, Next(cfg, s, acts[0]), acts[1..], t, a);
      assert (acts + [a])[1..] == acts[1..] + [a];
    }
  }

  lemma {:induction false} RunAppend(cfg: Config, s: State, acts: seq<Action>, t: State, more: seq<Action>, u: State)
    requires Run(cfg, s, acts, t) && Run(cfg, t, more, u)
    ensures Run(cfg, s, acts + more, u)
    decreases |acts|
  {
    if acts == [] {
      assert acts + more == more;
    } else {
      RunAppend(cfg, Next(cfg, s, acts[0]), acts[1..], t, more, u);
      assert (acts + more)[1..] == acts[1..] + more;
    }
  }

  lemma ReachableStep(cfg: Config, s: State, a: Action)
    requires Reachable(cfg, s) && Enabled(s, a)
    ensures Reachable(cfg, Next(cfg, s, a))
  {
    var claims, acts :| FreshClaims(claims) && Run(cfg, Init(claims), acts, s);
    RunSnoc(cfg, Init(claims), acts, s, a);
  }
}

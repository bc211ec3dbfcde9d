/** The database worker as the program runs it: one reused array with a length, a select loop, a retry loop.
    Each turn of the loop is a run of the session's step relation, so what is proved there holds here. */
module BatchWorker {
  import opened Wire
  import opened ConsumerSession

  /** How one insert attempt goes, and how the backoff after a failed one ends. */
  datatype Try = Succeeds | FailsThenWaits | FailsThenCancelled

  datatype Event = Received(item: Item) | ChannelClosed | Tick | ContextDone

  /** One turn of the select loop, with the database's answers to the flush it may start. */
  datatype Turn = Turn(event: Event, db: nat -> Try)

  datatype Model = Model(buffer: seq<Item>, batches: seq<Batch>, rows: seq<Item>, exit: Option<Exit>)

  // ---- what the loop computes ----

  function FlushFrom(db: nat -> Try, k: nat, cancellable: bool, items: seq<Item>): Batch
    requires k < MAX_DB_RETRIES
    decreases MAX_DB_RETRIES - k
  {
    if db(k).Succeeds? then Batch(items, k + 1, false, Persisted)
    else if db(k).FailsThenCancelled? && cancellable then Batch(items, k + 1, true, Dropped)
    else if k + 1 == MAX_DB_RETRIES then Batch(items, k + 1, false, Dropped)
    else FlushFrom(db, k + 1, cancellable, items)
  }

  function Flush(m: Model, db: nat -> Try, cancellable: bool, exit: Option<Exit>): Model {
    if m.buffer == [] then m.(exit := exit)
    else
      var b := FlushFrom(db, 0, cancellable, m.buffer);
      Model([], m.batches + [b], if b.outcome.Persisted? then m.rows + m.buffer else m.rows, exit)
  }

  function Handle(batchSize: nat, m: Model, turn: Turn): Model {
    match turn.event
    case Received(x) =>
      var m' := m.(buffer := m.buffer + [x]);
      if |m'.buffer| >= batchSize then Flush(m', turn.db, true, None) else m'
    case ChannelClosed => Flush(m, turn.db, true, Some(ByClose))
    case Tick => Flush(m, turn.db, true, None)
    case ContextDone => Flush(m, turn.db, false, Some(ByCancel))
  }

  function RunTurns(batchSize: nat, m: Model, turns: seq<Turn>): Model
    decreases |turns|
  {
    if turns == [] || m.exit.Some? then m
    else RunTurns(batchSize, Handle(batchSize, m, turns[0]), turns[1..])
  }

  // ---- the worker ----

  class DbWorker {
    const batchSize: nat
    var data: array<Item>
    var len: nat
    var batches: seq<Batch>  // finished flushes
    var rows: seq<Item>  // the table

    ghost predicate Valid()
      reads this
    {
      len <= data.Length
    }

    ghost function Contents(): seq<Item>
      reads this, data
      requires Valid()
    {
      data[..len]
    }

    /** A returned worker's buffer is gone. */
    ghost function AsModel(exit: Option<Exit>): Model
      reads this, data
      requires Valid()
    {
      Model(if exit.Some? then [] else Contents(), batches, rows, exit)
    }

    constructor (batchSize: nat)
      ensures Valid() && fresh(data) && this.batchSize == batchSize && data.Length == batchSize
      ensures AsModel(None) == Model([], [], [], None)
    {
      this.batchSize := batchSize;
      data := new Item[batchSize];
      len, batches, rows := 0, [], [];
    }

    /** Go's append: in place while there is room, into a larger copy otherwise. */
    method Append(x: Item)
      requires Valid()
      modifies this`data, this`len, data
      ensures Valid() && Contents() == old(Contents()) + [x]
      ensures if old(len) < old(data.Length) then data == old(data) else fresh(data)
    {
      if len == data.Length {
        var larger := new Item[2 * len + 1];
        forall i | 0 <= i < len {
          larger[i] := data[i];
        }
        data := larger;
      }
      data[len] := x;
      len := len + 1;
    }

    /** flushBuffer: nothing for an empty batch, else up to three attempts with a backoff after each failure. */
    method FlushBuffer(db: nat -> Try, cancellable: bool)
      requires Valid()
      modifies this`batches, this`rows
      ensures Contents() == [] ==> batches == old(batches) && rows == old(rows)
      ensures Contents() != [] ==>
                var b := FlushFrom(db, 0, cancellable, Contents());
                && batches == old(batches) + [b]
                && rows == if b.outcome.Persisted? then old(rows) + Contents() else old(rows)
    {
      if len == 0 {
        return;
      }
      var i := 0;
      while i < MAX_DB_RETRIES
        invariant 0 <= i <= MAX_DB_RETRIES
        invariant batches == old(batches) && rows == old(rows)
        invariant FlushFrom(db, 0, cancellable, Contents()) ==
                  if i < MAX_DB_RETRIES then FlushFrom(db, i, cancellable, Contents())
                  else Batch(Contents(), MAX_DB_RETRIES, false, Dropped)
      {
        var answer := db(i);
        if answer.Succeeds? {
          rows := rows + data[..len];
          batches := batches + [Batch(data[..len], i + 1, false, Persisted)];
          return;
        }
        if answer.FailsThenCancelled? && cancellable {
          batches := batches + [Batch(data[..len], i + 1, true, Dropped)];
          return;
        }
        i := i + 1;
      }
      batches := batches + [Batch(data[..len], MAX_DB_RETRIES, false, Dropped)];
    }

    /** dbWorker's loop over the events the select picks: the messages received are cut into batches at full buffers,
        ticks and the exit.  At every loop head the buffer is shorter than a batch, and with a positive batch size
        the array made at the start is the one in use to the end. */
    method Run(turns: seq<Turn>) returns (exit: Option<Exit>)
      requires Valid() && len == 0 && data.Length == batchSize
      modifies this, data
      ensures Valid() && AsModel(exit) == RunTurns(batchSize, old(AsModel(None)), turns)
      ensures BatchItems(batches) == BatchItems(old(batches)) + Cuts(CapOf(batchSize), [], turns)
      ensures exit.None? ==> Contents() == Uncut(CapOf(batchSize), [], turns)
      ensures exit == FirstExit(turns)
      ensures 1 <= batchSize ==> data == old(data)
    {
      exit := None;
      var i := 0;
      while i < |turns| && exit.None?
        invariant 0 <= i <= |turns| && Valid()
        invariant exit.None? ==> len < if batchSize == 0 then 1 else batchSize
        invariant data == old(data) || (batchSize == 0 && fresh(data))
        invariant RunTurns(batchSize, AsModel(exit), turns[i..]) == RunTurns(batchSize, old(AsModel(None)), turns)
      {
        ghost var before := AsModel(None);
        assert turns[i..][1..] == turns[i + 1..];
        var turn := turns[i];
        match turn.event {
          case Received(x) =>
            Append(x);
            if len >= batchSize {
              FlushBuffer(turn.db, true);
              len := 0;
            }
          case ChannelClosed =>
            FlushBuffer(turn.db, true);
            exit := Some(ByClose);
          case Tick =>
            if len > 0 {
              FlushBuffer(turn.db, true);
              len := 0;
            }
          case ContextDone =>
            if len > 0 {
              FlushBuffer(turn.db, false);
            }
            exit := Some(ByCancel);
        }
        assert AsModel(exit) == Handle(batchSize, before, turn);
        i := i + 1;
      }
      assert RunTurns(batchSize, AsModel(exit), turns[i..]) == AsModel(exit);
      BatchesAreCuts(batchSize, old(AsModel(None)), turns);
    }
  }

  // ---- the retry loop ----

  /** Attempt k is reached: all before it failed and no backoff was cut short. */
  predicate Reaches(db: nat -> Try, k: nat, cancellable: bool) {
    forall j: nat | j < k :: !db(j).Succeeds? && !(cancellable && db(j).FailsThenCancelled?)
  }

  /** A flush persists its batch exactly when some attempt it reaches succeeds, once, at that attempt; otherwise it
      drops it after the third failure or at the first failure whose backoff was cancelled.  At least one attempt
      is made whatever the context, and under a background context only a third failure drops. */
  lemma RetryOutcome(db: nat -> Try, cancellable: bool, items: seq<Item>)
    ensures var b := FlushFrom(db, 0, cancellable, items);
            && b.items == items
            && 1 <= b.tries <= MAX_DB_RETRIES
            && Reaches(db, b.tries - 1, cancellable)
            && (b.outcome.Persisted? <==> db(b.tries - 1).Succeeds?)
            && (b.outcome.Persisted? <==> exists k: nat | k < MAX_DB_RETRIES ::
                Reaches(db, k, cancellable) && db(k).Succeeds?)
            && (b.cutShort <==> cancellable && db(b.tries - 1).FailsThenCancelled?)
            && (b.outcome.Dropped? && !b.cutShort ==> b.tries == MAX_DB_RETRIES)
  {
    RetryFrom(db, 0, cancellable, items);
    var b := FlushFrom(db, 0, cancellable, items);
    forall k: nat | k < MAX_DB_RETRIES && Reaches(db, k, cancellable) && db(k).Succeeds?
      ensures b.tries - 1 == k {
    }
  }

  lemma {:induction false} RetryFrom(db: nat -> Try, k: nat, cancellable: bool, items: seq<Item>)
    requires k < MAX_DB_RETRIES && Reaches(db, k, cancellable)
    ensures var b := FlushFrom(db, k, cancellable, items);
            && b.items == items
            && k < b.tries <= MAX_DB_RETRIES
            && Reaches(db, b.tries - 1, cancellable)
            && (b.outcome.Persisted? <==> db(b.tries - 1).Succeeds?)
            && (b.cutShort <==> cancellable && db(b.tries - 1).FailsThenCancelled?)
            && (b.outcome.Dropped? && !b.cutShort ==> b.tries == MAX_DB_RETRIES)
    decreases MAX_DB_RETRIES - k
  {
    if Reaches(db, k + 1, cancellable) && k + 1 < MAX_DB_RETRIES {
      RetryFrom(db, k + 1, cancellable, items);
    }
  }

  // ---- batches are chunks ----

  function Chunks(xs: seq<Item>, n: nat): seq<seq<Item>>
    requires 1 <= n
    decreases |xs|
  {
    if |xs| < n then if xs == [] then [] else [xs]
    else [xs[..n]] + Chunks(xs[n..], n)
  }

  function BatchItems(batches: seq<Batch>): seq<seq<Item>> {
    seq(|batches|, i requires 0 <= i < |batches| => batches[i].items)
  }

  function ExitOf(e: Event): Option<Exit> {
    match e
    case ChannelClosed => Some(ByClose)
    case ContextDone => Some(ByCancel)
    case _ => None
  }

  /** How the loop ends, if some turn ends it. */
  function FirstExit(turns: seq<Turn>): Option<Exit> {
    if turns == [] then None
    else if ExitOf(turns[0].event).Some? then ExitOf(turns[0].event)
    else FirstExit(turns[1..])
  }

  /** The whole chunks of xs, and what is left after them. */
  function Whole(n: nat, xs: seq<Item>): seq<seq<Item>>
    requires 1 <= n
    decreases |xs|
  {
    if |xs| < n then [] else [xs[..n]] + Whole(n, xs[n..])
  }

  function Left(n: nat, xs: seq<Item>): seq<Item>
    requires 1 <= n
    decreases |xs|
  {
    if |xs| < n then xs else Left(n, xs[n..])
  }

  /** The messages the turns deliver after those in `since`, cut at every n-th message since the last cut, at every
      tick and at the exit; what follows the last cut is not part of it. */
  function Cuts(n: nat, since: seq<Item>, turns: seq<Turn>): seq<seq<Item>>
    requires 1 <= n
    decreases |turns|
  {
    if turns == [] then Whole(n, since)
    else
      match turns[0].event
      case Received(x) => Cuts(n, since + [x], turns[1..])
      case Tick => Chunks(since, n) + Cuts(n, [], turns[1..])
      case _ => Chunks(since, n)
  }

  /** What follows the last cut: nothing after a tick or an exit. */
  function Uncut(n: nat, since: seq<Item>, turns: seq<Turn>): seq<Item>
    requires 1 <= n
    decreases |turns|
  {
    if turns == [] then Left(n, since)
    else
      match turns[0].event
      case Received(x) => Uncut(n, since + [x], turns[1..])
      case Tick => Uncut(n, [], turns[1..])
      case _ => []
  }

  lemma {:induction false} FullIsCut(n: nat, full: seq<Item>, since: seq<Item>, turns: seq<Turn>)
    requires 1 <= n == |full|
    ensures Cuts(n, full + since, turns) == [full] + Cuts(n, since, turns)
    ensures Uncut(n, full + since, turns) == Uncut(n, since, turns)
    decreases |turns|
  {
    assert (full + since)[..n] == full && (full + since)[n..] == since;
    if turns != [] {
      match turns[0].event
      case Received(x) =>
        assert full + since + [x] == full + (since + [x]);
        FullIsCut(n, full, since + [x], turns[1..]);
      case _ =>
    }
  }

  /** One turn adds at most one batch: the buffer, with the message received. */
  lemma TurnCuts(batchSize: nat, m: Model, turn: Turn)
    requires m.exit.None?
    ensures var m' := Handle(batchSize, m, turn);
            && m'.exit == ExitOf(turn.event)
            && BatchItems(m'.batches) == BatchItems(m.batches) +
                 (if Flushes(batchSize, m, turn.event) then [Buffered(m, turn.event)] else [])
            && m'.buffer == if Flushes(batchSize, m, turn.event) then [] else Buffered(m, turn.event)
  {
    HandleUnfolds(batchSize, m, turn);
    RetryOutcome(turn.db, !turn.event.ContextDone?, Buffered(m, turn.event));
  }

  /** Whatever the turns, the batches are the messages received cut at full buffers, ticks and the exit, the buffer
      is what came after the last cut, and the loop ends as the first turn that ends it says. */
  lemma {:induction false} BatchesAreCuts(batchSize: nat, m: Model, turns: seq<Turn>)
    requires m.exit.None? && |m.buffer| < CapOf(batchSize)
    ensures var r := RunTurns(batchSize, m, turns);
            && BatchItems(r.batches) == BatchItems(m.batches) + Cuts(CapOf(batchSize), m.buffer, turns)
            && r.buffer == Uncut(CapOf(batchSize), m.buffer, turns)
            && r.exit == FirstExit(turns)
    decreases |turns|
  {
    if turns == [] {
      assert BatchItems(m.batches) + [] == BatchItems(m.batches);
    } else {
      var m', e := Handle(batchSize, m, turns[0]), turns[0].event;
      TurnCuts(batchSize, m, turns[0]);
      if m'.exit.None? {
        if e.Received? && |m.buffer| + 1 == CapOf(batchSize) {
          assert m.buffer + [e.item] + [] == m.buffer + [e.item];
          FullIsCut(CapOf(batchSize), m.buffer + [e.item], [], turns[1..]);
        }
        BatchesAreCuts(batchSize, m', turns[1..]);
      }
    }
  }

  /** The turns that deliver xs and then find the channel closed, whatever the database does. */
  predicate Delivers(turns: seq<Turn>, xs: seq<Item>) {
    && |turns| == |xs| + 1
    && (forall i | 0 <= i < |xs| :: turns[i].event == Received(xs[i]))
    && turns[|xs|].event == ChannelClosed
  }

  lemma {:induction false} DeliveryCuts(n: nat, since: seq<Item>, turns: seq<Turn>, xs: seq<Item>)
    requires 1 <= n && Delivers(turns, xs)
    ensures Cuts(n, since, turns) == Chunks(since + xs, n) && Uncut(n, since, turns) == []
    ensures FirstExit(turns) == Some(ByClose)
    decreases |xs|
  {
    if xs == [] {
      assert since + xs == since;
    } else {
      assert since + [xs[0]] + xs[1..] == since + xs;
      DeliveryCuts(n, since + [xs[0]], turns[1..], xs[1..]);
    }
  }

  /** With no tick and no cancellation the batches are the input cut every batchSize messages, remainder last. */
  lemma BatchesAreChunks(batchSize: nat, m: Model, turns: seq<Turn>, xs: seq<Item>)
    requires Delivers(turns, xs) && m.exit.None? && |m.buffer| < CapOf(batchSize)
    ensures var r := RunTurns(batchSize, m, turns);
            && BatchItems(r.batches) == BatchItems(m.batches) + Chunks(m.buffer + xs, CapOf(batchSize))
            && r.buffer == [] && r.exit == Some(ByClose)
  {
    BatchesAreCuts(batchSize, m, turns);
    DeliveryCuts(CapOf(batchSize), m.buffer, turns, xs);
  }

  // ---- the loop refines the step relation ----

  function WorkerPart(s: State): Model {
    Model(s.buffer, s.batches, s.rows, if s.worker.Stopped? then Some(s.worker.via) else None)
  }

  /** The session is in a state where the select can pick this event. */
  predicate CanTake(s: State, e: Event) {
    && !s.panicked && !s.stage.Ended? && s.worker.Waiting?
    && match e
       case Received(x) => s.queue != [] && s.queue[0] == x
       case ChannelClosed => s.closed && s.queue == []
       case Tick => true
       case ContextDone => s.cancelled
  }

  /** The flush as single steps; a backoff that ends by cancellation has the context cancelled under it. */
  function FlushSteps(db: nat -> Try, k: nat, cancellable: bool): seq<Action>
    requires k < MAX_DB_RETRIES
    decreases MAX_DB_RETRIES - k
  {
    if db(k).Succeeds? then [InsertOk]
    else if db(k).FailsThenCancelled? && cancellable then [InsertFailed, CancelContext, BackoffCancelled]
    else [InsertFailed, BackoffElapsed] + if k + 1 == MAX_DB_RETRIES then [] else FlushSteps(db, k + 1, cancellable)
  }

  function TurnSteps(batchSize: nat, m: Model, turn: Turn): seq<Action> {
    match turn.event
    case Received(x) => [WorkerReceive] + if |m.buffer| + 1 >= batchSize then FlushSteps(turn.db, 0, true) else []
    case ChannelClosed => [WorkerChannelClosed] + if m.buffer == [] then [] else FlushSteps(turn.db, 0, true)
    case Tick => [WorkerTick] + if m.buffer == [] then [] else FlushSteps(turn.db, 0, true)
    case ContextDone => [WorkerCancelled] + if m.buffer == [] then [] else FlushSteps(turn.db, 0, false)
  }

  /** Everything the worker does not own, except that the context may have been cancelled. */
  predicate SameOutside(s: State, t: State) {
    t == s.(worker := t.worker, buffer := t.buffer, batches := t.batches, rows := t.rows, queue := t.queue,
            cancelled := t.cancelled)
  }

  lemma RunOne(cfg: Config, s: State, a: Action)
    requires Enabled(s, a)
    ensures Run(cfg, s, [a], Next(cfg, s, a))
  {
    assert Run(cfg, Next(cfg, s, a), [a][1..], Next(cfg, s, a));
  }

  lemma RunCons(cfg: Config, s: State, a: Action, acts: seq<Action>, t: State)
    requires Enabled(s, a) && Run(cfg, Next(cfg, s, a), acts, t)
    ensures Run(cfg, s, [a] + acts, t)
  {
    assert ([a] + acts)[1..] == acts;
  }

  /** The state once the flush has come to its end as batch b. */
  function Flushed(s: State, b: Batch): State
    requires s.worker.Inserting?
  {
    FinishFlush(s, b.tries, s.worker.after, b.cutShort, b.outcome).(cancelled := s.cancelled || b.cutShort)
  }

  lemma SuccessIsRun(cfg: Config, s: State)
    requires !s.panicked && s.worker.Inserting?
    ensures Run(cfg, s, [InsertOk], Flushed(s, Batch(s.buffer, s.worker.tries + 1, false, Persisted)))
  {
    RunOne(cfg, s, InsertOk);
  }

  /** A failed attempt whose backoff is cut short by cancellation. */
  lemma CancelledIsRun(cfg: Config, s: State)
    requires !s.panicked && !s.stage.Ended? && s.worker.Inserting? && s.worker.cancellable
    ensures Run(cfg, s, [InsertFailed, CancelContext, BackoffCancelled],
                Flushed(s, Batch(s.buffer, s.worker.tries + 1, true, Dropped)))
  {
    var s1 := Next(cfg, s, InsertFailed);
    var s2 := Next(cfg, s1, CancelContext);
    var t := Next(cfg, s2, BackoffCancelled);
    RunOne(cfg, s2, BackoffCancelled);
    RunCons(cfg, s1, CancelContext, [BackoffCancelled], t);
    RunCons(cfg, s, InsertFailed, [CancelContext] + [BackoffCancelled], t);
    assert [InsertFailed] + ([CancelContext] + [BackoffCancelled]) == [InsertFailed, CancelContext, BackoffCancelled];
  }

  /** The state after a failed attempt and its backoff. */
  function Failed(s: State): State
    requires s.worker.Inserting?
  {
    var tries := s.worker.tries + 1;
    if tries < MAX_DB_RETRIES then s.(worker := Inserting(tries, s.worker.cancellable, s.worker.after))
    else FinishFlush(s, tries, s.worker.after, false, Dropped)
  }

  lemma FailedSteps(cfg: Config, s: State)
    requires !s.panicked && s.worker.Inserting?
    ensures var s1 := Next(cfg, s, InsertFailed);
            Enabled(s1, BackoffElapsed) && Next(cfg, s1, BackoffElapsed) == Failed(s)
  {
  }

  /** A failed attempt waited out, then the rest of the flush. */
  lemma FailureIsRun(cfg: Config, s: State, rest: seq<Action>, t: State)
    requires !s.panicked && s.worker.Inserting? && Run(cfg, Failed(s), rest, t)
    ensures Run(cfg, s, [InsertFailed, BackoffElapsed] + rest, t)
  {
    FailedSteps(cfg, s);
    var s1 := Next(cfg, s, InsertFailed);
    RunCons(cfg, s1, BackoffElapsed, rest, t);
    RunCons(cfg, s, InsertFailed, [BackoffElapsed] + rest, t);
    assert [InsertFailed] + ([BackoffElapsed] + rest) == [InsertFailed, BackoffElapsed] + rest;
  }

  /** The run a flush from attempt k on is claimed to be. */
  predicate FlushRuns(cfg: Config, s: State, db: nat -> Try, k: nat)
    requires k < MAX_DB_RETRIES && s.worker.Inserting?
  {
    Run(cfg, s, FlushSteps(db, k, s.worker.cancellable), Flushed(s, FlushFrom(db, k, s.worker.cancellable, s.buffer)))
  }

  lemma LastFailure(cfg: Config, s: State, db: nat -> Try, k: nat)
    requires !s.panicked && s.worker.Inserting? && s.worker.tries == k == MAX_DB_RETRIES - 1
    requires !db(k).Succeeds? && !(db(k).FailsThenCancelled? && s.worker.cancellable)
    ensures FlushRuns(cfg, s, db, k)
  {
    var t := FinishFlush(s, k + 1, s.worker.after, false, Dropped);
    assert Run(cfg, t, [], t);
    FailureIsRun(cfg, s, [], t);
    assert [InsertFailed, BackoffElapsed] + [] == FlushSteps(db, k, s.worker.cancellable);
  }

  lemma EarlierFailure(cfg: Config, s: State, db: nat -> Try, k: nat)
    requires !s.panicked && s.worker.Inserting? && s.worker.tries == k < MAX_DB_RETRIES - 1
    requires !db(k).Succeeds? && !(db(k).FailsThenCancelled? && s.worker.cancellable)
    requires FlushRuns(cfg, s.(worker := Inserting(k + 1, s.worker.cancellable, s.worker.after)), db, k + 1)
    ensures FlushRuns(cfg, s, db, k)
  {
    var t := Flushed(s, FlushFrom(db, k, s.worker.cancellable, s.buffer));
    FailureIsRun(cfg, s, FlushSteps(db, k + 1, s.worker.cancellable), t);
  }

  lemma {:induction false} FlushIsRun(cfg: Config, s: State, db: nat -> Try, k: nat)
    requires !s.panicked && !s.stage.Ended? && s.worker.Inserting? && s.worker.tries == k < MAX_DB_RETRIES
    ensures FlushRuns(cfg, s, db, k)
    decreases MAX_DB_RETRIES - k
  {
    if db(k).Succeeds? {
      SuccessIsRun(cfg, s);
    } else if db(k).FailsThenCancelled? && s.worker.cancellable {
      CancelledIsRun(cfg, s);
    } else if k + 1 == MAX_DB_RETRIES {
      LastFailure(cfg, s, db, k);
    } else {
      FlushIsRun(cfg, s.(worker := Inserting(k + 1, s.worker.cancellable, s.worker.after)), db, k + 1);
      EarlierFailure(cfg, s, db, k);
    }
  }

  function Pick(e: Event): Action {
    match e
    case Received(_) => WorkerReceive
    case ChannelClosed => WorkerChannelClosed
    case Tick => WorkerTick
    case ContextDone => WorkerCancelled
  }

  /** The buffer after the select, whether its flush runs under the session context, and where the loop goes next. */
  function Buffered(m: Model, e: Event): seq<Item> {
    if e.Received? then m.buffer + [e.item] else m.buffer
  }

  function After(e: Event): AfterFlush {
    match e
    case ChannelClosed => Quit(ByClose)
    case ContextDone => Quit(ByCancel)
    case _ => Resume
  }

  predicate Flushes(batchSize: nat, m: Model, e: Event) {
    if e.Received? then |m.buffer| + 1 >= batchSize else m.buffer != []
  }

  lemma PickStep(cfg: Config, s: State, e: Event)
    requires CanTake(s, e)
    ensures Enabled(s, Pick(e))
    ensures var s1 := Next(cfg, s, Pick(e));
            && SameOutside(s, s1) && s1.batches == s.batches && s1.rows == s.rows && s1.cancelled == s.cancelled
            && s1.queue == (if e.Received? then s.queue[1..] else s.queue)
            && s1.buffer == Buffered(WorkerPart(s), e)
            && s1.worker == if Flushes(cfg.batchSize, WorkerPart(s), e) then Inserting(0, !e.ContextDone?, After(e))
                            else if After(e).Quit? then Stopped(After(e).via) else Waiting
  {
  }

  lemma HandleUnfolds(batchSize: nat, m: Model, turn: Turn)
    requires m.exit.None?
    ensures var buffer := Buffered(m, turn.event);
            var exit := if After(turn.event).Quit? then Some(After(turn.event).via) else None;
            Handle(batchSize, m, turn) ==
            if !Flushes(batchSize, m, turn.event) then m.(buffer := buffer, exit := exit)
            else var b := FlushFrom(turn.db, 0, !turn.event.ContextDone?, buffer);
                 Model([], m.batches + [b], if b.outcome.Persisted? then m.rows + buffer else m.rows, exit)
  {
  }

  /** Where the turn leaves a session that offers its event. */
  function TurnEnd(cfg: Config, s: State, turn: Turn): State
    requires CanTake(s, turn.event)
  {
    var s1 := Next(cfg, s, Pick(turn.event));
    if s1.worker.Inserting? then Flushed(s1, FlushFrom(turn.db, 0, !turn.event.ContextDone?, s1.buffer)) else s1
  }

  /** One turn of the loop is a run of the step relation from any state that offers its event: same batches, same
      rows, same buffer, same exit, one message less in the channel when one was received, nothing else touched. */
  lemma TurnIsRun(cfg: Config, s: State, turn: Turn) returns (t: State)
    requires CanTake(s, turn.event)
    ensures t == TurnEnd(cfg, s, turn) && Run(cfg, s, TurnSteps(cfg.batchSize, WorkerPart(s), turn), t)
    ensures WorkerPart(t) == Handle(cfg.batchSize, WorkerPart(s), turn)
    ensures SameOutside(s, t) && (t.worker.Waiting? || t.worker.Stopped?)
    ensures t.queue == if turn.event.Received? then s.queue[1..] else s.queue
  {
    var e := turn.event;
    PickStep(cfg, s, e);
    HandleUnfolds(cfg.batchSize, WorkerPart(s), turn);
    var s1 := Next(cfg, s, Pick(e));
    var rest := [];
    if Flushes(cfg.batchSize, WorkerPart(s), e) {
      FlushIsRun(cfg, s1, turn.db, 0);
      t := Flushed(s1, FlushFrom(turn.db, 0, !e.ContextDone?, s1.buffer));
      RetryFrom(turn.db, 0, !e.ContextDone?, s1.buffer);
      rest := FlushSteps(turn.db, 0, !e.ContextDone?);
    } else {
      t := s1;
    }
    RunCons(cfg, s, Pick(e), rest, t);
    assert [Pick(e)] + rest == TurnSteps(cfg.batchSize, WorkerPart(s), turn);
  }

  // ---- the whole loop ----

  /** A step of the claims, of the consumer group or of Cleanup: none of the worker's. */
  predicate Outside(a: Action) {
    a.CancelContext? || a.ClaimReceive? || a.ClaimChannelClosed? || a.ClaimCancelled? || a.ClaimSend? || a.ClaimMark?
      || a.CleanupClose?
  }

  /** What the rest of the session does while the worker waits in its select, and the state the worker then finds. */
  datatype Wait = Wait(acts: seq<Action>, found: State)

  /** In each wait only others step, and at its end the session offers the turn's event. */
  predicate Offers(cfg: Config, s: State, waits: seq<Wait>, turns: seq<Turn>)
    requires |waits| == |turns|
    decreases |turns|
  {
    turns != [] ==>
      && Run(cfg, s, waits[0].acts, waits[0].found)
      && (forall k | 0 <= k < |waits[0].acts| :: Outside(waits[0].acts[k]))
      && CanTake(waits[0].found, turns[0].event)
      && (ExitOf(turns[0].event).None? ==>
            Offers(cfg, TurnEnd(cfg, waits[0].found, turns[0]), waits[1..], turns[1..]))
  }

  /** The loop's turns up to the exit, each after what the others did while it waited. */
  function LoopSteps(cfg: Config, waits: seq<Wait>, turns: seq<Turn>): seq<Action>
    requires |waits| == |turns|
    decreases |turns|
  {
    if turns == [] then []
    else
      waits[0].acts + TurnSteps(cfg.batchSize, WorkerPart(waits[0].found), turns[0]) +
      if ExitOf(turns[0].event).Some? then [] else LoopSteps(cfg, waits[1..], turns[1..])
  }

  lemma {:induction false} OthersLeaveWorker(cfg: Config, s: State, acts: seq<Action>, t: State)
    requires Run(cfg, s, acts, t) && forall k | 0 <= k < |acts| :: Outside(acts[k])
    ensures t.worker == s.worker && WorkerPart(t) == WorkerPart(s)
    decreases |acts|
  {
    if acts != [] {
      assert Outside(acts[0]);
      OthersLeaveWorker(cfg, Next(cfg, s, acts[0]), acts[1..], t);
    }
  }

  /** The whole loop is a run of the session, with any steps of the others between its turns: what dbWorker computes
      from its turns is the worker's part of the state that run ends in. */
  lemma {:induction false} LoopIsRun(cfg: Config, s: State, waits: seq<Wait>, turns: seq<Turn>) returns (t: State)
    requires |waits| == |turns| && !s.worker.Stopped? && Offers(cfg, s, waits, turns)
    ensures Run(cfg, s, LoopSteps(cfg, waits, turns), t)
    ensures WorkerPart(t) == RunTurns(cfg.batchSize, WorkerPart(s), turns)
    ensures turns != [] ==> t.worker.Waiting? || t.worker.Stopped?
    decreases |turns|
  {
    if turns == [] {
      return s;
    }
    var found := waits[0].found;
    OthersLeaveWorker(cfg, s, waits[0].acts, found);
    t := TurnIsRun(cfg, found, turns[0]);
    var steps := TurnSteps(cfg.batchSize, WorkerPart(found), turns[0]);
    RunAppend(cfg, s, waits[0].acts, found, steps, t);
    if ExitOf(turns[0].event).Some? {
      assert waits[0].acts + steps + [] == waits[0].acts + steps;
    } else {
      var u := LoopIsRun(cfg, t, waits[1..], turns[1..]);
      RunAppend(cfg, s, waits[0].acts + steps, t, LoopSteps(cfg, waits[1..], turns[1..]), u);
      t := u;
    }
  }
}

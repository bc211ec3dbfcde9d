/** What every step of the local fan-out keeps: who owns each backing array, what each slice holds, who was tried,
    and where every snapshotted client went. */
module FanoutSafety {
  import opened Wire
  import opened Fanout

  // ---- ownership ----

  datatype Holder = InPool(slice: Slice) | ByCaller(i: nat) | InQueue(k: nat) | ByWorker(w: nat)

  /** The slice a holder owns, if any. */
  function SliceOf(f: Fanout, h: Holder): Option<Slice> {
    match h
    case InPool(slice) => if slice in f.pool then Some(slice) else None
    case ByCaller(i) =>
      if i < |f.callers| && (f.callers[i].Filling? || f.callers[i].Unlocked?) then Some(f.callers[i].slice) else None
    case InQueue(k) => if k < |f.jobs| then Some(f.jobs[k].slice) else None
    case ByWorker(w) => if w < |f.workers| && f.workers[w].Sending? then Some(f.workers[w].job.slice) else None
  }

  /** The handoff a holder carries, if any. */
  function IdOf(f: Fanout, h: Holder): Option<nat> {
    match h
    case InPool(_) => None
    case ByCaller(i) =>
      if i < |f.callers| && (HoldsReadLock(f.callers[i]) || f.callers[i].Unlocked?) then Some(f.callers[i].id) else None
    case InQueue(k) => if k < |f.jobs| then Some(f.jobs[k].id) else None
    case ByWorker(w) => if w < |f.workers| && f.workers[w].Sending? then Some(f.workers[w].job.id) else None
  }

  predicate InHeap(heap: seq<seq<Cell>>, slice: Slice) {
    slice.addr < |heap| && slice.len <= |heap[slice.addr]|
  }

  /** Every backing array that is not garbage has exactly one owner: the pool, once, or one broadcaster, one queued
      job or one worker. */
  ghost predicate Owned(f: Fanout) {
    && (forall slice | slice in f.pool :: f.pool[slice] == 1)
    && (forall h | SliceOf(f, h).Some? :: InHeap(f.heap, SliceOf(f, h).value))
    && (forall h1, h2 | SliceOf(f, h1).Some? && SliceOf(f, h2).Some?
                        && SliceOf(f, h1).value.addr == SliceOf(f, h2).value.addr :: h1 == h2)
  }

  /** Every handoff in progress is carried by exactly one holder. */
  ghost predicate Carried(f: Fanout) {
    && (forall h | IdOf(f, h).Some? :: IdOf(f, h).value < |f.log| && f.log[IdOf(f, h).value].fate.Pending?)
    && (forall h1, h2 | IdOf(f, h1).Some? && IdOf(f, h1) == IdOf(f, h2) :: h1 == h2)
  }

  /** Where a holder's slice and handoff were before the step. */
  function Before(f: Fanout, a: Action, h: Holder): Holder {
    match a
    case GetPooled(i, from) => if h == ByCaller(i) then InPool(from) else h
    case Dispatch(i) =>
      if i < |f.callers| && f.callers[i].Unlocked? && (h == InQueue(|f.jobs|) || h == InPool(f.callers[i].slice))
      then ByCaller(i) else h
    case WorkerTakes(w) => if h == ByWorker(w) then InQueue(0) else if h.InQueue? then InQueue(h.k + 1) else h
    case WorkerReturns(w) =>
      if w < |f.workers| && f.workers[w].Sending? && h == InPool(f.workers[w].job.slice) then ByWorker(w) else h
    case _ => h
  }

  /** The holder whose array the step made. */
  predicate Allocates(f: Fanout, a: Action, h: Holder) {
    match a
    case GetNew(i) => h == ByCaller(i)
    case Append(i, _) => h == ByCaller(i) && i < |f.callers| && f.callers[i].Filling?
                         && f.callers[i].slice.addr < |f.heap|
                           && f.callers[i].slice.len >= |f.heap[f.callers[i].slice.addr]|
    case _ => false
  }

  predicate OfWorker(a: Action) {
    a.WorkerTakes? || a.WorkerSends? || a.WorkerReturns?
  }

  /** The array h owns after the step is new, or was owned before it by the corresponding holder. */
  ghost predicate SliceMoved(rooms: map<string, set<Client>>, f: Fanout, a: Action, h: Holder)
    requires Enabled(rooms, f, a)
  {
    var f', h0 := Next(rooms, f, a), Before(f, a, h);
    SliceOf(f', h).Some? ==>
      && InHeap(f'.heap, SliceOf(f', h).value)
      && if Allocates(f, a, h) then SliceOf(f', h).value.addr == |f.heap|
         else SliceOf(f, h0).Some? && SliceOf(f, h0).value.addr == SliceOf(f', h).value.addr
  }

  lemma GetPooledMoves(rooms: map<string, set<Client>>, f: Fanout, a: Action, h: Holder)
    requires Enabled(rooms, f, a) && a.GetPooled?
    requires SliceOf(f, Before(f, a, h)).Some? ==> InHeap(f.heap, SliceOf(f, Before(f, a, h)).value)
    ensures SliceMoved(rooms, f, a, h)
  {
  }

  lemma GetNewMoves(rooms: map<string, set<Client>>, f: Fanout, a: Action, h: Holder)
    requires Enabled(rooms, f, a) && a.GetNew?
    requires SliceOf(f, Before(f, a, h)).Some? ==> InHeap(f.heap, SliceOf(f, Before(f, a, h)).value)
    ensures SliceMoved(rooms, f, a, h)
  {
  }

  lemma AppendMoves(rooms: map<string, set<Client>>, f: Fanout, a: Action, h: Holder)
    requires Enabled(rooms, f, a) && a.Append?
    requires SliceOf(f, h).Some? ==> InHeap(f.heap, SliceOf(f, h).value)
    ensures SliceMoved(rooms, f, a, h)
  {
    var f' := AppendNext(f, a.i, a.newCap);
    assert h != ByCaller(a.i) ==> SliceOf(f', h) == SliceOf(f, h);
    assert forall k | 0 <= k < |f.heap| :: |f'.heap[k]| == |f.heap[k]|;
  }

  lemma DispatchMoves(rooms: map<string, set<Client>>, f: Fanout, a: Action, h: Holder)
    requires Enabled(rooms, f, a) && a.Dispatch?
    requires SliceOf(f, Before(f, a, h)).Some? ==> InHeap(f.heap, SliceOf(f, Before(f, a, h)).value)
    ensures SliceMoved(rooms, f, a, h)
  {
    if |f.jobs| < BROADCAST_JOB_CHAN_SIZE {
      QueuedMoves(rooms, f, a, h);
    } else {
      DroppedMoves(rooms, f, a, h);
    }
  }

  lemma QueuedMoves(rooms: map<string, set<Client>>, f: Fanout, a: Action, h: Holder)
    requires Enabled(rooms, f, a) && a.Dispatch? && |f.jobs| < BROADCAST_JOB_CHAN_SIZE
    requires SliceOf(f, Before(f, a, h)).Some? ==> InHeap(f.heap, SliceOf(f, Before(f, a, h)).value)
    ensures SliceMoved(rooms, f, a, h)
  {
  }

  lemma DroppedMoves(rooms: map<string, set<Client>>, f: Fanout, a: Action, h: Holder)
    requires Enabled(rooms, f, a) && a.Dispatch? && |f.jobs| >= BROADCAST_JOB_CHAN_SIZE
    requires SliceOf(f, Before(f, a, h)).Some? ==> InHeap(f.heap, SliceOf(f, Before(f, a, h)).value)
    ensures SliceMoved(rooms, f, a, h)
  {
  }

  lemma TakeMoves(rooms: map<string, set<Client>>, f: Fanout, w: nat, h: Holder)
    requires Enabled(rooms, f, WorkerTakes(w))
    requires SliceOf(f, Before(f, WorkerTakes(w), h)).Some?
             ==> InHeap(f.heap, SliceOf(f, Before(f, WorkerTakes(w), h)).value)
    ensures SliceMoved(rooms, f, WorkerTakes(w), h)
  {
  }

  lemma SendMoves(rooms: map<string, set<Client>>, f: Fanout, w: nat, h: Holder)
    requires Enabled(rooms, f, WorkerSends(w))
    requires SliceOf(f, h).Some? ==> InHeap(f.heap, SliceOf(f, h).value)
    ensures SliceMoved(rooms, f, WorkerSends(w), h)
  {
  }

  lemma ReturnMoves(rooms: map<string, set<Client>>, f: Fanout, w: nat, h: Holder)
    requires Enabled(rooms, f, WorkerReturns(w))
    requires SliceOf(f, Before(f, WorkerReturns(w), h)).Some?
             ==> InHeap(f.heap, SliceOf(f, Before(f, WorkerReturns(w), h)).value)
    ensures SliceMoved(rooms, f, WorkerReturns(w), h)
  {
  }

  lemma OthersStay(rooms: map<string, set<Client>>, f: Fanout, a: Action, h: Holder)
    requires Enabled(rooms, f, a) && !a.GetPooled? && !a.GetNew? && !a.Append? && !a.Dispatch? && !OfWorker(a)
    requires SliceOf(f, Before(f, a, h)).Some? ==> InHeap(f.heap, SliceOf(f, Before(f, a, h)).value)
    ensures SliceMoved(rooms, f, a, h)
  {
    if a.PoolForgets? || a.ClientReads? || a.Spawn? || a.Start? {
      OutsideStays(rooms, f, a, h);
    } else {
      CallerStays(rooms, f, a, h);
    }
  }

  lemma OutsideStays(rooms: map<string, set<Client>>, f: Fanout, a: Action, h: Holder)
    requires Enabled(rooms, f, a) && (a.PoolForgets? || a.ClientReads? || a.Spawn? || a.Start?)
    requires SliceOf(f, h).Some? ==> InHeap(f.heap, SliceOf(f, h).value)
    ensures SliceMoved(rooms, f, a, h)
  {
  }

  lemma CallerStays(rooms: map<string, set<Client>>, f: Fanout, a: Action, h: Holder)
    requires Enabled(rooms, f, a) && (a.Lock? || a.Miss? || a.Unlock?)
    requires SliceOf(f, h).Some? ==> InHeap(f.heap, SliceOf(f, h).value)
    ensures SliceMoved(rooms, f, a, h)
  {
  }

  lemma SlicesMove(rooms: map<string, set<Client>>, f: Fanout, a: Action, h: Holder)
    requires Enabled(rooms, f, a) && Owned(f)
    ensures SliceMoved(rooms, f, a, h)
  {
    match a {
      case GetPooled(_, _) => GetPooledMoves(rooms, f, a, h);
      case GetNew(_) => GetNewMoves(rooms, f, a, h);
      case Append(_, _) => AppendMoves(rooms, f, a, h);
      case Dispatch(_) => DispatchMoves(rooms, f, a, h);
      case WorkerTakes(w) => TakeMoves(rooms, f, w, h);
      case WorkerSends(w) => SendMoves(rooms, f, w, h);
      case WorkerReturns(w) => ReturnMoves(rooms, f, w, h);
      case _ => OthersStay(rooms, f, a, h);
    }
  }

  lemma GetMovesApart(rooms: map<string, set<Client>>, f: Fanout, i: nat, from: Slice, h1: Holder, h2: Holder)
    requires var a := GetPooled(i, from); Enabled(rooms, f, a) && Before(f, a, h1) == Before(f, a, h2)
    requires f.pool[from] == 1
    requires SliceOf(Next(rooms, f, GetPooled(i, from)), h1).Some?
             && SliceOf(Next(rooms, f, GetPooled(i, from)), h2).Some?
    ensures h1 == h2
  {
    assert SliceOf(Next(rooms, f, GetPooled(i, from)), InPool(from)).None?;
  }

  lemma DispatchMovesApart(rooms: map<string, set<Client>>, f: Fanout, i: nat, h1: Holder, h2: Holder)
    requires var a := Dispatch(i); Enabled(rooms, f, a) && Before(f, a, h1) == Before(f, a, h2)
    requires f.callers[i].slice !in f.pool
    requires SliceOf(Next(rooms, f, Dispatch(i)), h1).Some? && SliceOf(Next(rooms, f, Dispatch(i)), h2).Some?
    ensures h1 == h2
  {
    assert SliceOf(Next(rooms, f, Dispatch(i)), ByCaller(i)).None?;
  }

  lemma ReturnMovesApart(rooms: map<string, set<Client>>, f: Fanout, w: nat, h1: Holder, h2: Holder)
    requires var a := WorkerReturns(w); Enabled(rooms, f, a) && Before(f, a, h1) == Before(f, a, h2)
    requires SliceOf(Next(rooms, f, WorkerReturns(w)), h1).Some? && SliceOf(Next(rooms, f, WorkerReturns(w)), h2).Some?
    ensures h1 == h2
  {
    assert SliceOf(Next(rooms, f, WorkerReturns(w)), ByWorker(w)).None?;
  }

  lemma TakeMovesApart(rooms: map<string, set<Client>>, f: Fanout, w: nat, h1: Holder, h2: Holder)
    requires var a := WorkerTakes(w); Enabled(rooms, f, a) && Before(f, a, h1) == Before(f, a, h2)
    requires SliceOf(Next(rooms, f, WorkerTakes(w)), h1).Some? && SliceOf(Next(rooms, f, WorkerTakes(w)), h2).Some?
    ensures h1 == h2
  {
  }

  /** No two holders' slices come from the same holder. */
  lemma HoldersMoveApart(rooms: map<string, set<Client>>, f: Fanout, a: Action, h1: Holder, h2: Holder)
    requires Owned(f) && Enabled(rooms, f, a) && Before(f, a, h1) == Before(f, a, h2)
    requires SliceOf(Next(rooms, f, a), h1).Some? && SliceOf(Next(rooms, f, a), h2).Some?
    ensures h1 == h2
  {
    OutOfPool(f);
    match a {
      case GetPooled(i, from) => GetMovesApart(rooms, f, i, from, h1, h2);
      case Dispatch(i) => DispatchMovesApart(rooms, f, i, h1, h2);
      case WorkerTakes(w) => TakeMovesApart(rooms, f, w, h1, h2);
      case WorkerReturns(w) => ReturnMovesApart(rooms, f, w, h1, h2);
      case _ =>
    }
  }

  lemma OutOfPool(f: Fanout)
    requires Owned(f)
    ensures forall i | 0 <= i < |f.callers| && f.callers[i].Unlocked? :: f.callers[i].slice !in f.pool
    ensures forall w | 0 <= w < |f.workers| && f.workers[w].Sending? :: f.workers[w].job.slice !in f.pool
  {
    forall i | 0 <= i < |f.callers| && f.callers[i].Unlocked? ensures f.callers[i].slice !in f.pool {
      assert SliceOf(f, ByCaller(i)) == Some(f.callers[i].slice);
      assert SliceOf(f, InPool(f.callers[i].slice)).None?;
    }
    forall w | 0 <= w < |f.workers| && f.workers[w].Sending? ensures f.workers[w].job.slice !in f.pool {
      assert SliceOf(f, ByWorker(w)) == Some(f.workers[w].job.slice);
      assert SliceOf(f, InPool(f.workers[w].job.slice)).None?;
    }
  }

  /** A step adds to the pool at most the slice of the holder it releases. */
  lemma PoolMoves(rooms: map<string, set<Client>>, f: Fanout, a: Action)
    requires Enabled(rooms, f, a)
    ensures var pool' := Next(rooms, f, a).pool;
            match a
            case Dispatch(i) => pool' == f.pool || pool' == f.pool + multiset{f.callers[i].slice}
            case WorkerReturns(w) => pool' == f.pool + multiset{f.workers[w].job.slice}
            case GetPooled(_, from) => pool' == f.pool - multiset{from}
            case PoolForgets(slice) => pool' == f.pool - multiset{slice}
            case _ => pool' == f.pool
  {
  }

  lemma PoolHoldsOnce(rooms: map<string, set<Client>>, f: Fanout, a: Action)
    requires Owned(f) && Enabled(rooms, f, a)
    ensures forall slice | slice in Next(rooms, f, a).pool :: Next(rooms, f, a).pool[slice] == 1
  {
    OutOfPool(f);
    PoolMoves(rooms, f, a);
  }

  lemma OwnedKept(rooms: map<string, set<Client>>, f: Fanout, a: Action)
    requires Owned(f) && Enabled(rooms, f, a)
    ensures Owned(Next(rooms, f, a))
  {
    var f' := Next(rooms, f, a);
    PoolHoldsOnce(rooms, f, a);
    forall h ensures SliceMoved(rooms, f, a, h) {
      SlicesMove(rooms, f, a, h);
    }
    forall h | SliceOf(f', h).Some? ensures InHeap(f'.heap, SliceOf(f', h).value) {
      assert SliceMoved(rooms, f, a, h);
    }
    forall h1, h2 | SliceOf(f', h1).Some? && SliceOf(f', h2).Some?
      && SliceOf(f', h1).value.addr == SliceOf(f', h2).value.addr
      ensures h1 == h2 {
      assert SliceMoved(rooms, f, a, h1) && SliceMoved(rooms, f, a, h2);
      if !Allocates(f, a, h1) && !Allocates(f, a, h2) {
        assert Before(f, a, h1) == Before(f, a, h2);
        HoldersMoveApart(rooms, f, a, h1, h2);
      }
    }
  }

  // ---- handoffs ----

  function CarrierBefore(f: Fanout, a: Action, h: Holder): Holder {
    if a.GetPooled? then h else Before(f, a, h)
  }

  /** The handoff h carries after the step is new, or was carried before it by the corresponding holder. */
  ghost predicate IdMoved(rooms: map<string, set<Client>>, f: Fanout, a: Action, h: Holder)
    requires Enabled(rooms, f, a)
  {
    var id := IdOf(Next(rooms, f, a), h);
    id.Some? ==> if a.Lock? && h == ByCaller(a.i) then id == Some(|f.log|) else IdOf(f, CarrierBefore(f, a, h)) == id
  }

  lemma CallerIdsMove(rooms: map<string, set<Client>>, f: Fanout, a: Action, h: Holder)
    requires Enabled(rooms, f, a) && !a.Dispatch? && !OfWorker(a) && !a.Append?
    ensures IdMoved(rooms, f, a, h)
  {
  }

  lemma AppendIdsMove(rooms: map<string, set<Client>>, f: Fanout, a: Action, h: Holder)
    requires Enabled(rooms, f, a) && a.Append?
    ensures IdMoved(rooms, f, a, h)
  {
  }

  lemma DispatchIdsMove(rooms: map<string, set<Client>>, f: Fanout, i: nat, h: Holder)
    requires Enabled(rooms, f, Dispatch(i))
    ensures IdMoved(rooms, f, Dispatch(i), h)
  {
  }

  lemma TakeIdsMove(rooms: map<string, set<Client>>, f: Fanout, w: nat, h: Holder)
    requires Enabled(rooms, f, WorkerTakes(w))
    ensures IdMoved(rooms, f, WorkerTakes(w), h)
  {
  }

  lemma WorkIdsMove(rooms: map<string, set<Client>>, f: Fanout, a: Action, h: Holder)
    requires Enabled(rooms, f, a) && (a.WorkerSends? || a.WorkerReturns?)
    ensures IdMoved(rooms, f, a, h)
  {
  }

  lemma IdsMove(rooms: map<string, set<Client>>, f: Fanout, a: Action, h: Holder)
    requires Enabled(rooms, f, a)
    ensures IdMoved(rooms, f, a, h)
  {
    match a {
      case Append(_, _) => AppendIdsMove(rooms, f, a, h);
      case Dispatch(i) => DispatchIdsMove(rooms, f, i, h);
      case WorkerTakes(w) => TakeIdsMove(rooms, f, w, h);
      case WorkerSends(_) => WorkIdsMove(rooms, f, a, h);
      case WorkerReturns(_) => WorkIdsMove(rooms, f, a, h);
      case _ => CallerIdsMove(rooms, f, a, h);
    }
  }

  lemma CarriersMoveApart(rooms: map<string, set<Client>>, f: Fanout, a: Action, h1: Holder, h2: Holder)
    requires Enabled(rooms, f, a) && CarrierBefore(f, a, h1) == CarrierBefore(f, a, h2)
    requires IdOf(Next(rooms, f, a), h1).Some? && IdOf(Next(rooms, f, a), h2).Some?
    ensures h1 == h2
  {
    match a {
      case Dispatch(i) =>
        assert Next(rooms, f, a).callers[i] == Free;
      case WorkerTakes(w) =>
        assert Next(rooms, f, a).jobs == f.jobs[1..];
      case WorkerReturns(w) =>
        assert h1 != InPool(f.workers[w].job.slice) && h2 != InPool(f.workers[w].job.slice);
      case _ =>
        assert CarrierBefore(f, a, h1) == h1 && CarrierBefore(f, a, h2) == h2;
    }
  }

  /** The handoff a step settles, if any. */
  function Settled(f: Fanout, a: Action): Option<nat> {
    match a
    case Dispatch(i) =>
      if i < |f.callers| && f.callers[i].Unlocked? && |f.jobs| >= BROADCAST_JOB_CHAN_SIZE then Some(f.callers[i].id)
        else None
    case WorkerReturns(w) => if w < |f.workers| && f.workers[w].Sending? then Some(f.workers[w].job.id) else None
    case _ => None
  }

  /** The log grows by a lock, changes one fate by a settling step, and is otherwise as it was. */
  ghost predicate LogMoved(rooms: map<string, set<Client>>, f: Fanout, a: Action, log': seq<Handoff>) {
    log' ==
    if a.Lock? && a.i < |f.callers| && f.callers[a.i].Called? && f.callers[a.i].room in rooms
    then f.log + [Handoff(f.callers[a.i].room, f.callers[a.i].payload, rooms[f.callers[a.i].room], a.order, Pending)]
    else if Settled(f, a).Some? then Settle(f.log, Settled(f, a).value, if a.Dispatch? then DroppedWhole else Finished)
    else f.log
  }

  lemma LogMoves(rooms: map<string, set<Client>>, f: Fanout, a: Action)
    requires Enabled(rooms, f, a)
    ensures LogMoved(rooms, f, a, Next(rooms, f, a).log)
  {
  }

  lemma SettledIsReleased(rooms: map<string, set<Client>>, f: Fanout, a: Action, h: Holder)
    requires Carried(f) && Enabled(rooms, f, a) && Settled(f, a).Some?
    ensures IdOf(Next(rooms, f, a), h) != Settled(f, a)
  {
    IdsMove(rooms, f, a, h);
    var h0 := if a.Dispatch? then ByCaller(a.i) else ByWorker(a.w);
    assert IdOf(f, h0) == Settled(f, a);
  }

  lemma CarriedKept(rooms: map<string, set<Client>>, f: Fanout, a: Action)
    requires Carried(f) && Enabled(rooms, f, a)
    ensures Carried(Next(rooms, f, a))
  {
    var f' := Next(rooms, f, a);
    LogMoves(rooms, f, a);
    forall h ensures IdMoved(rooms, f, a, h) {
      IdsMove(rooms, f, a, h);
    }
    forall h | IdOf(f', h).Some? ensures IdOf(f', h).value < |f'.log| && f'.log[IdOf(f', h).value].fate.Pending? {
      assert IdMoved(rooms, f, a, h);
      if Settled(f, a).Some? {
        SettledIsReleased(rooms, f, a, h);
      }
    }
    forall h1, h2 | IdOf(f', h1).Some? && IdOf(f', h1) == IdOf(f', h2) ensures h1 == h2 {
      assert IdMoved(rooms, f, a, h1) && IdMoved(rooms, f, a, h2);
      if CarrierBefore(f, a, h1) == CarrierBefore(f, a, h2) {
        CarriersMoveApart(rooms, f, a, h1, h2);
      }
    }
  }

  // ---- no handoff is lost ----

  /** Every unsettled handoff still has a carrier. */
  ghost predicate NoneLost(f: Fanout) {
    forall id: nat | id < |f.log| && f.log[id].fate.Pending? :: exists h :: IdOf(f, h) == Some(id)
  }

  /** Where a holder's handoff is after the step. */
  function CarrierAfter(f: Fanout, a: Action, h: Holder): Holder {
    match a
    case Dispatch(i) => if h == ByCaller(i) then InQueue(|f.jobs|) else h
    case WorkerTakes(w) =>
      if h == InQueue(0) then ByWorker(w) else if h.InQueue? && 0 < h.k then InQueue(h.k - 1) else h
    case _ => h
  }

  ghost predicate IdStays(rooms: map<string, set<Client>>, f: Fanout, a: Action, h: Holder)
    requires Enabled(rooms, f, a)
  {
    IdOf(f, h).Some? && IdOf(f, h) != Settled(f, a) ==> IdOf(Next(rooms, f, a), CarrierAfter(f, a, h)) == IdOf(f, h)
  }

  lemma CallerIdsStay(rooms: map<string, set<Client>>, f: Fanout, a: Action, h: Holder)
    requires Enabled(rooms, f, a) && !a.Dispatch? && !OfWorker(a) && !a.Append?
    ensures IdStays(rooms, f, a, h)
  {
  }

  lemma AppendIdsStay(rooms: map<string, set<Client>>, f: Fanout, a: Action, h: Holder)
    requires Enabled(rooms, f, a) && a.Append?
    ensures IdStays(rooms, f, a, h)
  {
  }

  lemma DispatchIdsStay(rooms: map<string, set<Client>>, f: Fanout, i: nat, h: Holder)
    requires Enabled(rooms, f, Dispatch(i))
    ensures IdStays(rooms, f, Dispatch(i), h)
  {
  }

  lemma TakeIdsStay(rooms: map<string, set<Client>>, f: Fanout, w: nat, h: Holder)
    requires Enabled(rooms, f, WorkerTakes(w))
    ensures IdStays(rooms, f, WorkerTakes(w), h)
  {
  }

  lemma WorkIdsStay(rooms: map<string, set<Client>>, f: Fanout, a: Action, h: Holder)
    requires Enabled(rooms, f, a) && (a.WorkerSends? || a.WorkerReturns?)
    ensures IdStays(rooms, f, a, h)
  {
  }

  lemma IdsStay(rooms: map<string, set<Client>>, f: Fanout, a: Action, h: Holder)
    requires Enabled(rooms, f, a)
    ensures IdStays(rooms, f, a, h)
  {
    match a {
      case Append(_, _) => AppendIdsStay(rooms, f, a, h);
      case Dispatch(i) => DispatchIdsStay(rooms, f, i, h);
      case WorkerTakes(w) => TakeIdsStay(rooms, f, w, h);
      case WorkerSends(_) => WorkIdsStay(rooms, f, a, h);
      case WorkerReturns(_) => WorkIdsStay(rooms, f, a, h);
      case _ => CallerIdsStay(rooms, f, a, h);
    }
  }

  lemma LockCarries(rooms: map<string, set<Client>>, f: Fanout, i: nat, order: seq<Client>)
    requires Enabled(rooms, f, Lock(i, order))
    ensures IdOf(Next(rooms, f, Lock(i, order)), ByCaller(i)) == Some(|f.log|)
  {
  }

  lemma NoneLostKept(rooms: map<string, set<Client>>, f: Fanout, a: Action)
    requires NoneLost(f) && Enabled(rooms, f, a)
    ensures NoneLost(Next(rooms, f, a))
  {
    var f' := Next(rooms, f, a);
    LogMoves(rooms, f, a);
    forall id: nat | id < |f'.log| && f'.log[id].fate.Pending? ensures exists h :: IdOf(f', h) == Some(id) {
      if id < |f.log| {
        assert Some(id) != Settled(f, a) && f.log[id].fate.Pending?;
        var h :| IdOf(f, h) == Some(id);
        IdsStay(rooms, f, a, h);
        assert IdOf(f', CarrierAfter(f, a, h)) == Some(id);
      } else {
        LockCarries(rooms, f, a.i, a.order);
      }
    }
  }
}

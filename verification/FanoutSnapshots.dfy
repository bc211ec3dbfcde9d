/** What the owned slices hold: the room as it was under the read lock, whatever the recycled array held before. */
module FanoutSnapshots {
  import opened Wire
  import opened Seqs
  import opened Fanout
  import opened FanoutSafety

  /** The slice's elements are exactly xs; what lies beyond its length is not constrained. */
  ghost predicate Stored(heap: seq<seq<Cell>>, slice: Slice, xs: seq<Client>) {
    && InHeap(heap, slice) && slice.len == |xs|
    && forall k | 0 <= k < |xs| :: heap[slice.addr][k] == Ref(xs[k])
  }

  ghost predicate CallerOk(rooms: map<string, set<Client>>, heap: seq<seq<Cell>>, log: seq<Handoff>, c: Caller) {
    match c
    case Locked(room, payload, id, todo) =>
      && id < |log| && log[id].room == room && log[id].payload == payload
      && room in rooms && log[id].members == rooms[room]
      && todo == log[id].order
    case Filling(room, payload, id, todo, slice) =>
      && id < |log| && log[id].room == room && log[id].payload == payload
      && room in rooms && log[id].members == rooms[room]
      && slice.len <= |log[id].order| && todo == log[id].order[slice.len..]
      && Stored(heap, slice, log[id].order[..slice.len])
    case Unlocked(payload, id, slice) =>
      && id < |log| && log[id].payload == payload && Stored(heap, slice, log[id].order)
    case _ => true
  }

  ghost predicate JobOk(heap: seq<seq<Cell>>, log: seq<Handoff>, job: Job) {
    job.id < |log| && log[job.id].payload == job.payload && Stored(heap, job.slice, log[job.id].order)
  }

  ghost predicate WorkerOk(heap: seq<seq<Cell>>, log: seq<Handoff>, w: Worker) {
    w.Sending? ==> JobOk(heap, log, w.job) && w.next <= w.job.slice.len
  }

  ghost predicate Content(rooms: map<string, set<Client>>, f: Fanout) {
    && (forall i | 0 <= i < |f.callers| :: CallerOk(rooms, f.heap, f.log, f.callers[i]))
    && (forall k | 0 <= k < |f.jobs| :: JobOk(f.heap, f.log, f.jobs[k]))
    && (forall w | 0 <= w < |f.workers| :: WorkerOk(f.heap, f.log, f.workers[w]))
    && (forall id | 0 <= id < |f.log| :: Enumerates(f.log[id].order, f.log[id].members))
    && !f.nilDereference
  }

  /** The log keeps what a handoff's carriers rely on: everything but its fate. */
  ghost predicate LogKept(log: seq<Handoff>, log': seq<Handoff>) {
    && |log| <= |log'|
    && forall id | 0 <= id < |log| :: log'[id] == log[id].(fate := log'[id].fate)
  }

  /** The heap keeps every array but the one at addr. */
  ghost predicate HeapKept(heap: seq<seq<Cell>>, heap': seq<seq<Cell>>, addr: nat) {
    && |heap| <= |heap'|
    && forall k | 0 <= k < |heap| && k != addr :: heap'[k] == heap[k]
  }

  /** Carriers other than the one at addr stay as they were. */
  lemma CarriersStay(rooms: map<string, set<Client>>, f: Fanout, heap': seq<seq<Cell>>, log': seq<Handoff>, addr: nat)
    requires Content(rooms, f) && HeapKept(f.heap, heap', addr) && LogKept(f.log, log')
    ensures forall i | 0 <= i < |f.callers| && (f.callers[i].Filling? || f.callers[i].Unlocked?
                                                ==> f.callers[i].slice.addr != addr) ::
              CallerOk(rooms, heap', log', f.callers[i])
    ensures forall k | 0 <= k < |f.jobs| && f.jobs[k].slice.addr != addr :: JobOk(heap', log', f.jobs[k])
    ensures forall w | 0 <= w < |f.workers| && (f.workers[w].Sending? ==> f.workers[w].job.slice.addr != addr) ::
              WorkerOk(heap', log', f.workers[w])
  {
    forall i | 0 <= i < |f.callers| && (f.callers[i].Filling? || f.callers[i].Unlocked?
                                        ==> f.callers[i].slice.addr != addr)
      ensures CallerOk(rooms, heap', log', f.callers[i]) {
      assert CallerOk(rooms, f.heap, f.log, f.callers[i]);
    }
  }

  /** No one but caller i owns the array caller i fills. */
  lemma FillerIsAlone(f: Fanout, i: nat)
    requires Owned(f) && i < |f.callers| && f.callers[i].Filling?
    ensures InHeap(f.heap, f.callers[i].slice)
    ensures forall j | 0 <= j < |f.callers| && j != i && (f.callers[j].Filling? || f.callers[j].Unlocked?) ::
              f.callers[j].slice.addr != f.callers[i].slice.addr
    ensures forall k | 0 <= k < |f.jobs| :: f.jobs[k].slice.addr != f.callers[i].slice.addr
    ensures forall w | 0 <= w < |f.workers| && f.workers[w].Sending? ::
              f.workers[w].job.slice.addr != f.callers[i].slice.addr
  {
    var mine := SliceOf(f, ByCaller(i));
    assert mine == Some(f.callers[i].slice);
    forall j | 0 <= j < |f.callers| && j != i && (f.callers[j].Filling? || f.callers[j].Unlocked?)
      ensures f.callers[j].slice.addr != f.callers[i].slice.addr {
      assert SliceOf(f, ByCaller(j)) == Some(f.callers[j].slice) && ByCaller(j) != ByCaller(i);
    }
    forall k | 0 <= k < |f.jobs| ensures f.jobs[k].slice.addr != f.callers[i].slice.addr {
      assert SliceOf(f, InQueue(k)) == Some(f.jobs[k].slice) && InQueue(k) != ByCaller(i);
    }
    forall w | 0 <= w < |f.workers| && f.workers[w].Sending?
      ensures f.workers[w].job.slice.addr != f.callers[i].slice.addr {
      assert SliceOf(f, ByWorker(w)) == Some(f.workers[w].job.slice) && ByWorker(w) != ByCaller(i);
    }
  }

  // ---- one lemma per kind of step ----

  lemma LockKeepsContent(rooms: map<string, set<Client>>, f: Fanout, i: nat, order: seq<Client>)
    requires Content(rooms, f) && Enabled(rooms, f, Lock(i, order))
    ensures Content(rooms, Next(rooms, f, Lock(i, order)))
  {
    var f' := Next(rooms, f, Lock(i, order));
    CarriersStay(rooms, f, f.heap, f'.log, |f.heap|);
  }

  lemma GetKeepsContent(rooms: map<string, set<Client>>, f: Fanout, a: Action)
    requires Content(rooms, f) && Owned(f) && Enabled(rooms, f, a) && (a.GetPooled? || a.GetNew?)
    ensures Content(rooms, Next(rooms, f, a))
  {
    var f' := Next(rooms, f, a);
    if a.GetPooled? {
      assert SliceOf(f, InPool(a.from)) == Some(a.from);
    }
    CarriersStay(rooms, f, f'.heap, f.log, |f.heap|);
    var c := f.callers[a.i];
    assert CallerOk(rooms, f.heap, f.log, c);
    assert c.todo == f.log[c.id].order[0..];
    assert CallerOk(rooms, f'.heap, f.log, f'.callers[a.i]);
  }

  lemma AppendKeepsContent(rooms: map<string, set<Client>>, f: Fanout, i: nat, newCap: nat)
    requires Content(rooms, f) && Owned(f) && Enabled(rooms, f, Append(i, newCap))
    ensures Content(rooms, Next(rooms, f, Append(i, newCap)))
  {
    var f' := AppendNext(f, i, newCap);
    var c, c' := f.callers[i], f'.callers[i];
    FillerIsAlone(f, i);
    CarriersStay(rooms, f, f'.heap, f.log, c.slice.addr);
    assert CallerOk(rooms, f.heap, f.log, c);
    var order := f.log[c.id].order;
    assert c.todo[0] == order[c.slice.len] && c.todo[1..] == order[c.slice.len + 1..];
    assert CallerOk(rooms, f'.heap, f.log, c');
  }

  lemma UnlockKeepsContent(rooms: map<string, set<Client>>, f: Fanout, i: nat)
    requires Content(rooms, f) && Enabled(rooms, f, Unlock(i))
    ensures Content(rooms, Next(rooms, f, Unlock(i)))
  {
    var c := f.callers[i];
    assert CallerOk(rooms, f.heap, f.log, c);
    var order := f.log[c.id].order;
    assert order[..c.slice.len] == order;
  }

  lemma DispatchKeepsContent(rooms: map<string, set<Client>>, f: Fanout, i: nat)
    requires Content(rooms, f) && Enabled(rooms, f, Dispatch(i))
    ensures Content(rooms, Next(rooms, f, Dispatch(i)))
  {
    var f' := DispatchJob(f, i);
    assert CallerOk(rooms, f.heap, f.log, f.callers[i]);
    CarriersStay(rooms, f, f.heap, f'.log, |f.heap|);
    assert JobOk(f.heap, f'.log, Job(f.callers[i].slice, f.callers[i].payload, f.callers[i].id));
  }

  lemma SendKeepsContent(rooms: map<string, set<Client>>, f: Fanout, w: nat)
    requires Content(rooms, f) && Enabled(rooms, f, WorkerSends(w))
    ensures Content(rooms, Next(rooms, f, WorkerSends(w)))
  {
    assert WorkerOk(f.heap, f.log, f.workers[w]);
  }

  lemma ReturnKeepsContent(rooms: map<string, set<Client>>, f: Fanout, w: nat)
    requires Content(rooms, f) && Enabled(rooms, f, WorkerReturns(w))
    ensures Content(rooms, Next(rooms, f, WorkerReturns(w)))
  {
    CarriersStay(rooms, f, f.heap, Next(rooms, f, WorkerReturns(w)).log, |f.heap|);
  }

  lemma TakeKeepsContent(rooms: map<string, set<Client>>, f: Fanout, w: nat)
    requires Content(rooms, f) && Enabled(rooms, f, WorkerTakes(w))
    ensures Content(rooms, Next(rooms, f, WorkerTakes(w)))
  {
    assert JobOk(f.heap, f.log, f.jobs[0]);
  }

  lemma ContentKept(rooms: map<string, set<Client>>, f: Fanout, a: Action)
    requires Content(rooms, f) && Owned(f) && Enabled(rooms, f, a)
    ensures Content(rooms, Next(rooms, f, a))
  {
    match a {
      case Lock(i, order) => LockKeepsContent(rooms, f, i, order);
      case GetPooled(_, _) => GetKeepsContent(rooms, f, a);
      case GetNew(_) => GetKeepsContent(rooms, f, a);
      case Append(i, newCap) => AppendKeepsContent(rooms, f, i, newCap);
      case Unlock(i) => UnlockKeepsContent(rooms, f, i);
      case Dispatch(i) => DispatchKeepsContent(rooms, f, i);
      case WorkerTakes(w) => TakeKeepsContent(rooms, f, w);
      case WorkerSends(w) => SendKeepsContent(rooms, f, w);
      case WorkerReturns(w) => ReturnKeepsContent(rooms, f, w);
      case _ =>
    }
  }

  /** Membership can only change while no one holds the read lock, and then no snapshot depends on it. */
  lemma RoomsMayChange(rooms: map<string, set<Client>>, rooms': map<string, set<Client>>, f: Fanout)
    requires Content(rooms, f) && NoReaders(f)
    ensures Content(rooms', f)
  {
    forall i | 0 <= i < |f.callers| ensures CallerOk(rooms', f.heap, f.log, f.callers[i]) {
      assert CallerOk(rooms, f.heap, f.log, f.callers[i]) && !HoldsReadLock(f.callers[i]);
    }
  }
}

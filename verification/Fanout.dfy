/** Local fan-out on one server, at lock and channel granularity: broadcasters copy a room's members into a slice
    from the pool under the read lock and hand it to a bounded job queue, workers try each client's bounded Send
    channel once and return the slice.  Slices are an address into a heap of backing arrays and a length; a pooled
    slice keeps its stale contents, append may move to a larger array, and the pool may forget at any time.
    `log`, `attempts` and the counters are histories; no step reads them. */
module Fanout {
  import opened Seqs

  const INIT_CLIENT_POOL_CAP: nat := 500
  const BROADCAST_JOB_CHAN_SIZE: nat := 1000
  const WORKER_COUNT: nat := 100
  const SEND_CHAN_SIZE: nat := 4096

  /** A connection; the fields are the ones NewClient fixes. */
  datatype Client = Client(server: nat, conn: nat, userId: nat, room: string)

  /** What is broadcast: post number `post` as forwarded by the server's subscription `via`, or room statistics. */
  datatype Payload = Forwarded(via: nat, post: nat) | Stats(online: nat, likes: nat)

  // ---- state ----

  datatype Cell = Nil | Ref(c: Client)

  /** A slice's capacity is its array's length. */
  datatype Slice = Slice(addr: nat, len: nat)

  /** A goroutine in broadcastToLocalClients; from Locked to Filling it holds the read lock.  `id` is its handoff's
      place in the log. */
  datatype Caller =
    | Free
    | Called(room: string, payload: Payload)
    | Locked(room: string, payload: Payload, id: nat, todo: seq<Client>)
    | Filling(room: string, payload: Payload, id: nat, todo: seq<Client>, slice: Slice)
    | Unlocked(payload: Payload, id: nat, slice: Slice)

  datatype Job = Job(slice: Slice, payload: Payload, id: nat)
  datatype Worker = Idle | Sending(job: Job, next: nat)

  datatype Fate = Pending | DroppedWhole | Finished

  /** `members` is the room at the moment of the read lock, `order` the range loop's order over it. */
  datatype Handoff = Handoff(room: string, payload: Payload, members: set<Client>, order: seq<Client>, fate: Fate)
  datatype Attempt = Attempt(id: nat, client: Client, payload: Payload, queued: bool)

  datatype Fanout = Fanout(
    heap: seq<seq<Cell>>, pool: multiset<Slice>, callers: seq<Caller>, jobs: seq<Job>, workers: seq<Worker>,
    sends: map<Client, seq<Payload>>, nilDereference: bool,
    log: seq<Handoff>, attempts: seq<Attempt>, snapshotted: nat, queued: nat, skipped: nat, dropped: nat)

  function Init(callers: seq<Caller>): Fanout {
    Fanout([], multiset{}, callers, [], seq(WORKER_COUNT, _ => Idle), map[], false, [], [], 0, 0, 0, 0)
  }

  /** A client's Send channel, oldest first. */
  function SendOf(f: Fanout, c: Client): seq<Payload> {
    if c in f.sends then f.sends[c] else []
  }

  predicate HoldsReadLock(c: Caller) {
    c.Locked? || c.Filling?
  }

  predicate NoReaders(f: Fanout) {
    forall i | 0 <= i < |f.callers| :: !HoldsReadLock(f.callers[i])
  }

  // ---- steps ----

  datatype Action =
    | Spawn
    | Start(i: nat, room: string, payload: Payload)
    | Lock(i: nat, order: seq<Client>) | Miss(i: nat)
    | GetPooled(i: nat, from: Slice) | GetNew(i: nat)
    | Append(i: nat, newCap: nat) | Unlock(i: nat) | Dispatch(i: nat)
    | PoolForgets(slice: Slice)
    | WorkerTakes(w: nat) | WorkerSends(w: nat) | WorkerReturns(w: nat)
    | ClientReads(c: Client)

  predicate Enabled(rooms: map<string, set<Client>>, f: Fanout, a: Action) {
    !f.nilDereference &&
    match a
    case Spawn => true
    case Start(i, _, _) => i < |f.callers| && f.callers[i].Free?
    case Lock(i, order) => i < |f.callers| && f.callers[i].Called? && f.callers[i].room in rooms
                           && Enumerates(order, rooms[f.callers[i].room])
    case Miss(i) => i < |f.callers| && f.callers[i].Called? && f.callers[i].room !in rooms
    case GetPooled(i, from) => i < |f.callers| && f.callers[i].Locked? && from in f.pool
    case GetNew(i) => i < |f.callers| && f.callers[i].Locked?
    case Append(i, newCap) => i < |f.callers| && f.callers[i].Filling? && f.callers[i].todo != []
                              && f.callers[i].slice.addr < |f.heap| && f.callers[i].slice.len < newCap
    case Unlock(i) => i < |f.callers| && f.callers[i].Filling? && f.callers[i].todo == []
    case Dispatch(i) => i < |f.callers| && f.callers[i].Unlocked?
    case PoolForgets(slice) => slice in f.pool
    case WorkerTakes(w) => w < |f.workers| && f.workers[w].Idle? && f.jobs != []
    case WorkerSends(w) => w < |f.workers| && f.workers[w].Sending? && f.workers[w].next < f.workers[w].job.slice.len
                           && f.workers[w].job.slice.addr < |f.heap|
    case WorkerReturns(w) => w < |f.workers| && f.workers[w].Sending? && f.workers[w].next == f.workers[w].job.slice.len
    case ClientReads(c) => SendOf(f, c) != []
  }

  function SetCaller(f: Fanout, i: nat, c: Caller): Fanout
    requires i < |f.callers|
  {
    f.(callers := f.callers[i := c])
  }

  /** RLock, then the room is found: the snapshot's contents are settled here. */
  function TakeLock(f: Fanout, i: nat, order: seq<Client>, members: set<Client>): Fanout
    requires i < |f.callers| && f.callers[i].Called?
  {
    var c := f.callers[i];
    SetCaller(f, i, Locked(c.room, c.payload, |f.log|, order))
    .(log := f.log + [Handoff(c.room, c.payload, members, order, Pending)], snapshotted := f.snapshotted + |order|)
  }

  /** append: in place below the capacity, else into a larger copy; the old array is garbage. */
  function AppendNext(f: Fanout, i: nat, newCap: nat): Fanout
    requires i < |f.callers| && f.callers[i].Filling? && f.callers[i].todo != []
    requires f.callers[i].slice.addr < |f.heap| && f.callers[i].slice.len < newCap
  {
    var c := f.callers[i];
    var Slice(addr, len) := c.slice;
    var item := Ref(c.todo[0]);
    if len < |f.heap[addr]| then
      SetCaller(f, i, c.(todo := c.todo[1..],
                         slice := Slice(addr, len + 1))).(heap := f.heap[addr := f.heap[addr][len := item]])
    else
      var larger := f.heap[addr] + [item] + seq(if newCap > |f.heap[addr]| + 1 then newCap - |f.heap[addr]| - 1
                                                else 0, _ => Nil);
      SetCaller(f, i, c.(todo := c.todo[1..], slice := Slice(|f.heap|, len + 1))).(heap := f.heap + [larger])
  }

  /** Non-blocking send to the job queue; a full queue drops the job and returns the slice at once. */
  function DispatchJob(f: Fanout, i: nat): Fanout
    requires i < |f.callers| && f.callers[i].Unlocked?
  {
    var c := f.callers[i];
    var f' := SetCaller(f, i, Free);
    if |f.jobs| < BROADCAST_JOB_CHAN_SIZE then f'.(jobs := f.jobs + [Job(c.slice, c.payload, c.id)])
    else f'.(pool := f.pool + multiset{c.slice}, dropped := f.dropped + c.slice.len,
             log := Settle(f.log, c.id, DroppedWhole))
  }

  function Settle(log: seq<Handoff>, id: nat, fate: Fate): seq<Handoff> {
    if id < |log| then log[id := log[id].(fate := fate)] else log
  }

  /** safeSend: one non-blocking send. */
  function SafeSend(f: Fanout, w: nat): Fanout
    requires w < |f.workers| && f.workers[w].Sending? && f.workers[w].job.slice.addr < |f.heap|
  {
    var Sending(job, next) := f.workers[w];
    var backing := f.heap[job.slice.addr];
    if |backing| <= next || backing[next].Nil? then f.(nilDereference := true)
    else
      var c := backing[next].c;
      var f' := f.(workers := f.workers[w := Sending(job, next + 1)]);
      if |SendOf(f, c)| < SEND_CHAN_SIZE
      then f'.(sends := f.sends[c := SendOf(f, c) + [job.payload]],
               attempts := f.attempts + [Attempt(job.id, c, job.payload, true)],
               queued := f.queued + 1)
      else f'.(attempts := f.attempts + [Attempt(job.id, c, job.payload, false)], skipped := f.skipped + 1)
  }

  function Next(rooms: map<string, set<Client>>, f: Fanout, a: Action): Fanout
    requires Enabled(rooms, f, a)
  {
    match a
    case Spawn => f.(callers := f.callers + [Free])
    case Start(i, room, payload) => SetCaller(f, i, Called(room, payload))
    case Lock(i, order) => TakeLock(f, i, order, rooms[f.callers[i].room])
    case Miss(i) => SetCaller(f, i, Free)
    case GetPooled(i, from) =>
      var c := f.callers[i];
      SetCaller(f, i, Filling(c.room, c.payload, c.id, c.todo, Slice(from.addr, 0))).(pool := f.pool - multiset{from})
    case GetNew(i) =>
      var c := f.callers[i];
      SetCaller(f, i, Filling(c.room, c.payload, c.id, c.todo, Slice(|f.heap|, 0)))
      .(heap := f.heap + [seq(INIT_CLIENT_POOL_CAP, _ => Nil)])
    case Append(i, newCap) => AppendNext(f, i, newCap)
    case Unlock(i) => SetCaller(f, i, Unlocked(f.callers[i].payload, f.callers[i].id, f.callers[i].slice))
    case Dispatch(i) => DispatchJob(f, i)
    case PoolForgets(slice) => f.(pool := f.pool - multiset{slice})
    case WorkerTakes(w) => f.(workers := f.workers[w := Sending(f.jobs[0], 0)], jobs := f.jobs[1..])
    case WorkerSends(w) => SafeSend(f, w)
    case WorkerReturns(w) =>
      var job := f.workers[w].job;
      f.(workers := f.workers[w := Idle], pool := f.pool + multiset{job.slice}, log := Settle(f.log, job.id, Finished))
    case ClientReads(c) => f.(sends := f.sends[c := SendOf(f, c)[1..]])
  }
}

/** Likes over any number of servers: local uint64 totals, ticks that swap them out and overlap freely, increments in
    flight, and one signed 64-bit Redis counter per room.  `accepted` and `actions` are histories, as are the lists of
    abandoned batches and failed increments. */
module Likes {
  import opened Wire
  import opened Seqs
  import opened Machine

  type Tallies = map<string, nat>

  // ---- state ----

  datatype Incr = Incr(room: string, count: nat)

  /** A stats goroutine: the batch it swapped out, the rooms it found afterwards, and how many it has visited.
      A visited room's likes are no longer in the batch. */
  datatype Tick = Tick(batch: Tallies, rooms: Option<seq<string>>, next: nat)

  datatype State = State(
    locals: seq<Tallies>, ticks: seq<Tick>, flying: seq<Incr>, counter: map<string, int>,
    abandoned: seq<Tallies>, failed: seq<Incr>, accepted: Tallies, actions: Tallies)

  function Get(m: Tallies, room: string): nat {
    if room in m then m[room] else 0
  }

  function Counter(s: State, room: string): int {
    if room in s.counter then s.counter[room] else 0
  }

  function Init(servers: nat): State {
    State(seq(servers, _ => map[]), [], [], map[], [], [], map[], map[])
  }

  // ---- steps ----

  /** The handler's count: one when the data does not decode or says zero. */
  function Counted(decoded: Option<nat>): nat {
    match decoded
    case None => 1
    case Some(n) => if n == 0 then 1 else n
  }

  function AddLike(local: Tallies, room: string, count: nat): Tallies {
    local[room := Plus64(Get(local, room), count)]
  }

  datatype Action =
    | Like(i: nat, room: string, decoded: Option<nat>)
    | Swap(i: nat) | Snapshot(t: nat, rooms: seq<string>) | Visit(t: nat) | End(t: nat)
    | Lands(k: nat) | Fails(k: nat)

  predicate Enabled(s: State, a: Action) {
    match a
    case Like(i, _, decoded) => i < |s.locals| && (decoded.Some? ==> decoded.value < TWO_64)
    case Swap(i) => i < |s.locals|
    // a map's keys: no room twice
    case Snapshot(t, rooms) => t < |s.ticks| && s.ticks[t].rooms.None? && forall i, j | 0 <= i < j < |rooms| ::
        rooms[i] != rooms[j]
    case Visit(t) => t < |s.ticks| && s.ticks[t].rooms.Some? && s.ticks[t].next < |s.ticks[t].rooms.value|
    case End(t) => t < |s.ticks| && s.ticks[t].rooms.Some? && s.ticks[t].next == |s.ticks[t].rooms.value|
    case Lands(k) => k < |s.flying|
    case Fails(k) => k < |s.flying|
  }

  function Without<T>(xs: seq<T>, k: nat): seq<T>
    requires k < |xs|
  {
    xs[..k] + xs[k + 1..]
  }

  /** Redis refuses an increment that would overflow. */
  function Overflows(s: State, x: Incr): bool {
    !(-TWO_63 <= Counter(s, x.room) + ToInt64(x.count) < TWO_63)
  }

  function FailIncr(s: State, k: nat): State
    requires k < |s.flying|
  {
    s.(flying := Without(s.flying, k), failed := s.failed + [s.flying[k]])
  }

  function VisitRoom(s: State, t: nat): State
    requires Enabled(s, Visit(t))
  {
    var tick := s.ticks[t];
    var room := tick.rooms.value[tick.next];
    if Get(tick.batch, room) > 0 then
      s.(ticks := s.ticks[t := tick.(batch := tick.batch - {room}, next := tick.next + 1)],
         flying := s.flying + [Incr(room, tick.batch[room])])
    else s.(ticks := s.ticks[t := tick.(next := tick.next + 1)])
  }

  function Next(s: State, a: Action): State
    requires Enabled(s, a)
  {
    match a
    case Like(i, room, decoded) =>
      var n := Counted(decoded);
      s.(locals := s.locals[i := AddLike(s.locals[i], room, n)],
         accepted := s.accepted[room := Get(s.accepted, room) + n],
         actions := s.actions[room := Get(s.actions, room) + 1])
    case Swap(i) => s.(locals := s.locals[i := map[]], ticks := s.ticks + [Tick(s.locals[i], None, 0)])
    case Snapshot(t, rooms) => s.(ticks := s.ticks[t := s.ticks[t].(rooms := Some(rooms))])
    case Visit(t) => VisitRoom(s, t)
    // what is left of the batch is garbage
    case End(t) => s.(ticks := Without(s.ticks, t), abandoned := s.abandoned + [s.ticks[t].batch])
    case Lands(k) =>
      var x := s.flying[k];
      if Overflows(s, x) then FailIncr(s, k)
      else s.(flying := Without(s.flying, k), counter := s.counter[x.room := Counter(s, x.room) + ToInt64(x.count)])
    case Fails(k) => FailIncr(s, k)
  }

  predicate Run(s: State, acts: seq<Action>, t: State)
    decreases |acts|
  {
    if acts == [] then s == t else Enabled(s, acts[0]) && Run(Next(s, acts[0]), acts[1..], t)
  }

  ghost predicate Reachable(s: State) {
    exists n: nat, acts :: Run(Init(n), acts, s)
  }

  // ---- where a room's likes are ----

  function InTallies(room: string): Tallies -> nat {
    (m: Tallies) => Get(m, room)
  }

  function InTick(room: string): Tick -> nat {
    (t: Tick) => Get(t.batch, room)
  }

  function InIncr(room: string): Incr -> nat {
    (x: Incr) => if x.room == room then x.count else 0
  }

  function Discarded(s: State, room: string): nat {
    Sum(s.abandoned, InTallies(room)) + Sum(s.failed, InIncr(room))
  }

  /** Local totals, held batches, increments in flight, the Redis counter and what was discarded. */
  function Accounted(s: State, room: string): int {
    Sum(s.locals, InTallies(room)) + Sum(s.ticks, InTick(room)) + Sum(s.flying, InIncr(room)) + Counter(s, room)
    + Discarded(s, room)
  }
}

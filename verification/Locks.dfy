/** Who waits for whom in one server: the manager loop, the client goroutines, and the subscription and stats
    goroutines, over the rooms' RWMutex, the likes mutex, the unbuffered Register and Unregister channels and the
    bounded Broadcast channel.  Calls into Kafka and Redis are assumed to return.  The job queue, the Send channels and
    the pool are left out of it: every use of them is non-blocking. */
module Locks {
  import Hub

  // ---- state ----

  /** The manager: in its select; in a register or unregister event, before and inside the write lock; in a stats
      packet's fan-out, before and inside the read lock with `left` clients to copy; or calling Kafka and Redis. */
  datatype MgrPhase = Select | NeedLock | HasLock | NeedRLock | HasRLock(left: nat) | CallsOut

  /** A client's goroutine: registering, reading, pushing a danmaku, counting a like, unregistering. */
  datatype PumpPhase = WantRegister | Reading | WantBroadcast | WantLikes | HasLikes | WantUnregister | Finished

  /** A subscription or stats goroutine; `Away` is its channel or Redis business. */
  datatype ReaderPhase = Away | NeedLikes | HoldsLikes | WantRLock | HoldsRLock(left: nat)

  datatype State = State(mgr: MgrPhase, pumps: seq<PumpPhase>, readers: seq<ReaderPhase>, queued: nat)

  datatype Proc = Mgr | Pump(i: nat) | Reader(i: nat)

  function Init(): State {
    State(Select, [], [], 0)
  }

  predicate WriterAnnounced(s: State) {
    s.mgr.NeedLock? || s.mgr.HasLock?
  }

  predicate ReadLocked(s: State) {
    exists i | 0 <= i < |s.readers| :: s.readers[i].HoldsRLock?
  }

  predicate LikesLocked(s: State) {
    || (exists i | 0 <= i < |s.pumps| :: s.pumps[i].HasLikes?)
    || (exists i | 0 <= i < |s.readers| :: s.readers[i].HoldsLikes?)
  }

  // ---- steps ----

  datatype Action =
    | Connect | SpawnReader
    | PumpReads(i: nat, next: PumpPhase) | PumpMoves(i: nat)
    | ReaderWants(i: nat, likes: bool) | ReaderMoves(i: nat, size: nat)
    | MgrTakes(stats: bool) | MgrMoves(size: nat)

  predicate PumpReady(s: State, i: nat)
    requires i < |s.pumps|
  {
    match s.pumps[i]
    case WantRegister => s.mgr.Select?
    case WantUnregister => s.mgr.Select?
    case WantBroadcast => s.queued < Hub.BROADCAST_CHAN_SIZE
    case WantLikes => !LikesLocked(s)
    case HasLikes => true
    case Reading => false
    case Finished => false
  }

  /** A reader is admitted only while no writer holds or awaits the lock. */
  predicate ReaderReady(s: State, i: nat)
    requires i < |s.readers|
  {
    match s.readers[i]
    case NeedLikes => !LikesLocked(s)
    case WantRLock => !WriterAnnounced(s)
    case HoldsLikes => true
    case HoldsRLock(_) => true
    case Away => false
  }

  predicate Enabled(s: State, a: Action) {
    match a
    case Connect => true
    case SpawnReader => true
    case PumpReads(i, next) => i < |s.pumps| && s.pumps[i].Reading?
                               && (next.Reading? || next.WantBroadcast? || next.WantLikes? || next.WantUnregister?)
    case PumpMoves(i) => i < |s.pumps| && PumpReady(s, i)
    case ReaderWants(i, _) => i < |s.readers| && s.readers[i].Away?
    case ReaderMoves(i, _) => i < |s.readers| && ReaderReady(s, i)
    case MgrTakes(_) => s.mgr.Select? && 0 < s.queued
    case MgrMoves(_) => !s.mgr.Select? && (s.mgr.NeedLock? ==> !ReadLocked(s))
  }

  function PumpNext(s: State, i: nat): State
    requires i < |s.pumps| && PumpReady(s, i)
  {
    match s.pumps[i]
    case WantRegister => s.(pumps := s.pumps[i := Reading], mgr := NeedLock)
    case WantUnregister => s.(pumps := s.pumps[i := Finished], mgr := NeedLock)
    case WantBroadcast => s.(pumps := s.pumps[i := Reading], queued := s.queued + 1)
    case WantLikes => s.(pumps := s.pumps[i := HasLikes])
    case _ => s.(pumps := s.pumps[i := Reading])
  }

  function ReaderNext(s: State, i: nat, size: nat): State
    requires i < |s.readers|
  {
    var next := match s.readers[i]
      case NeedLikes => HoldsLikes
      case WantRLock => HoldsRLock(size)
      case HoldsRLock(left) => if left == 0 then Away else HoldsRLock(left - 1)
      case _ => Away;
    s.(readers := s.readers[i := next])
  }

  function MgrNext(s: State, size: nat): State {
    var next := match s.mgr
      case NeedLock => HasLock
      case NeedRLock => HasRLock(size)
      case HasRLock(left) => if left == 0 then Select else HasRLock(left - 1)
      case _ => Select;
    s.(mgr := next)
  }

  function Next(s: State, a: Action): State
    requires Enabled(s, a)
  {
    match a
    case Connect => s.(pumps := s.pumps + [WantRegister])
    case SpawnReader => s.(readers := s.readers + [Away])
    case PumpReads(i, next) => s.(pumps := s.pumps[i := next])
    case PumpMoves(i) => PumpNext(s, i)
    case ReaderWants(i, likes) => s.(readers := s.readers[i := if likes then NeedLikes else WantRLock])
    case ReaderMoves(i, size) => ReaderNext(s, i, size)
    case MgrTakes(stats) => s.(queued := s.queued - 1, mgr := if stats then NeedRLock else CallsOut)
    case MgrMoves(size) => MgrNext(s, size)
  }

  predicate Run(s: State, acts: seq<Action>, t: State)
    decreases |acts|
  {
    if acts == [] then s == t else Enabled(s, acts[0]) && Run(Next(s, acts[0]), acts[1..], t)
  }

  ghost predicate Reachable(s: State) {
    exists acts :: Run(Init(), acts, s)
  }

  lemma {:induction false} RunConcat(s: State, acts: seq<Action>, t: State, more: seq<Action>, u: State)
    requires Run(s, acts, t) && Run(t, more, u)
    ensures Run(s, acts + more, u)
    decreases |acts|
  {
    if acts == [] {
      assert acts + more == more;
    } else {
      RunConcat(Next(s, acts[0]), acts[1..], t, more, u);
      assert (acts + more)[1..] == acts[1..] + more;
    }
  }

  // ---- exclusion ----

  ghost predicate RoomsExclusive(s: State) {
    (s.mgr.HasLock? ==> !ReadLocked(s)) && s.queued <= Hub.BROADCAST_CHAN_SIZE
  }

  ghost predicate LikesExclusive(pumps: seq<PumpPhase>, readers: seq<ReaderPhase>) {
    && (forall i, j | 0 <= i < j < |pumps| && pumps[i].HasLikes? :: !pumps[j].HasLikes?)
    && (forall i, j | 0 <= i < j < |readers| && readers[i].HoldsLikes? :: !readers[j].HoldsLikes?)
    && (forall i, j | 0 <= i < |pumps| && 0 <= j < |readers| && pumps[i].HasLikes? :: !readers[j].HoldsLikes?)
  }

  ghost predicate Inv(s: State) {
    RoomsExclusive(s) && LikesExclusive(s.pumps, s.readers)
  }

  lemma StepKeepsRooms(s: State, a: Action)
    requires RoomsExclusive(s) && Enabled(s, a)
    ensures RoomsExclusive(Next(s, a))
  {
  }

  /** One pump moves: into the likes mutex only when it is free. */
  lemma PumpKeepsLikes(s: State, i: nat, phase: PumpPhase)
    requires LikesExclusive(s.pumps, s.readers) && i < |s.pumps| && (phase.HasLikes? ==> !LikesLocked(s))
    ensures LikesExclusive(s.pumps[i := phase], s.readers)
  {
  }

  lemma ReaderKeepsLikes(s: State, i: nat, phase: ReaderPhase)
    requires LikesExclusive(s.pumps, s.readers) && i < |s.readers| && (phase.HoldsLikes? ==> !LikesLocked(s))
    ensures LikesExclusive(s.pumps, s.readers[i := phase])
  {
  }

  lemma StepKeeps(s: State, a: Action)
    requires Inv(s) && Enabled(s, a)
    ensures Inv(Next(s, a))
  {
    StepKeepsRooms(s, a);
    match a {
      case PumpReads(i, next) => PumpKeepsLikes(s, i, next);
      case PumpMoves(i) => PumpKeepsLikes(s, i, PumpNext(s, i).pumps[i]);
      case ReaderWants(i, likes) => ReaderKeepsLikes(s, i, if likes then NeedLikes else WantRLock);
      case ReaderMoves(i, size) => ReaderKeepsLikes(s, i, ReaderNext(s, i, size).readers[i]);
      case _ =>
    }
  }

  lemma {:induction false} RunKeeps(s: State, acts: seq<Action>, t: State)
    requires Inv(s) && Run(s, acts, t)
    ensures Inv(t)
    decreases |acts|
  {
    if acts != [] {
      StepKeeps(s, acts[0]);
      RunKeeps(Next(s, acts[0]), acts[1..], t);
    }
  }

  /** The locks exclude: no reader of the rooms beside the writer, at most one holder of the likes mutex, and the
      Broadcast channel within its capacity. */
  lemma LocksExclude(s: State)
    requires Reachable(s)
    ensures Inv(s)
  {
    var acts :| Run(Init(), acts, s);
    RunKeeps(Init(), acts, s);
  }

  // ---- who waits for whom ----

  predicate IsProc(s: State, p: Proc) {
    match p
    case Mgr => true
    case Pump(i) => i < |s.pumps|
    case Reader(i) => i < |s.readers|
  }

  predicate HoldsLikesMutex(s: State, p: Proc) {
    match p
    case Mgr => false
    case Pump(i) => i < |s.pumps| && s.pumps[i].HasLikes?
    case Reader(i) => i < |s.readers| && s.readers[i].HoldsLikes?
  }

  /** p cannot go on until q does something. */
  predicate WaitsFor(s: State, p: Proc, q: Proc) {
    match p
    case Mgr => s.mgr.NeedLock? && q.Reader? && q.i < |s.readers| && s.readers[q.i].HoldsRLock?
    case Pump(i) =>
      i < |s.pumps| &&
      (match s.pumps[i]
       case WantRegister => q.Mgr? && !s.mgr.Select?
       case WantUnregister => q.Mgr? && !s.mgr.Select?
       case WantBroadcast => q.Mgr? && s.queued >= Hub.BROADCAST_CHAN_SIZE
       case WantLikes => HoldsLikesMutex(s, q)
       case _ => false)
    case Reader(i) =>
      i < |s.readers| &&
      (match s.readers[i]
       case NeedLikes => HoldsLikesMutex(s, q)
       case WantRLock => q.Mgr? && WriterAnnounced(s)
       case _ => false)
  }

  /** A process that wants to move and cannot. */
  predicate Blocked(s: State, p: Proc) {
    match p
    case Mgr => s.mgr.NeedLock? && ReadLocked(s)
    case Pump(i) => i < |s.pumps| && !s.pumps[i].Reading? && !s.pumps[i].Finished? && !PumpReady(s, i)
    case Reader(i) => i < |s.readers| && !s.readers[i].Away? && !ReaderReady(s, i)
  }

  /** Holders of a lock never wait, the manager waits for them only, everyone else for either. */
  function Rank(s: State, p: Proc): nat {
    match p
    case Mgr => 1
    case Pump(i) => if i < |s.pumps| && s.pumps[i].HasLikes? then 0 else 2
    case Reader(i) =>
      if i < |s.readers| && (s.readers[i].HoldsLikes? || s.readers[i].HoldsRLock?) then 0 else 2
  }

  /** A process is blocked exactly when it waits for some other process. */
  lemma BlockedIffWaiting(s: State, p: Proc)
    requires IsProc(s, p)
    ensures Blocked(s, p) <==> exists q :: IsProc(s, q) && WaitsFor(s, p, q)
  {
    if Blocked(s, p) {
      match p {
        case Mgr =>
          var i :| 0 <= i < |s.readers| && s.readers[i].HoldsRLock?;
          assert WaitsFor(s, p, Reader(i));
        case Pump(i) =>
          if s.pumps[i].WantLikes? {
            LikesHolder(s, p);
          } else {
            assert WaitsFor(s, p, Mgr);
          }
        case Reader(i) =>
          if s.readers[i].NeedLikes? {
            LikesHolder(s, p);
          } else {
            assert WaitsFor(s, p, Mgr);
          }
      }
    }
  }

  lemma LikesHolder(s: State, p: Proc)
    requires IsProc(s, p) && LikesLocked(s)
    requires (p.Pump? && s.pumps[p.i].WantLikes?) || (p.Reader? && s.readers[p.i].NeedLikes?)
    ensures exists q :: IsProc(s, q) && WaitsFor(s, p, q)
  {
    if i :| 0 <= i < |s.pumps| && s.pumps[i].HasLikes? {
      assert WaitsFor(s, p, Pump(i));
    } else {
      var i :| 0 <= i < |s.readers| && s.readers[i].HoldsLikes?;
      assert WaitsFor(s, p, Reader(i));
    }
  }

  /** A chain of waiting processes. */
  ghost predicate Chain(s: State, ps: seq<Proc>) {
    forall k | 0 <= k < |ps| - 1 :: WaitsFor(s, ps[k], ps[k + 1])
  }

  /** Along a chain the rank falls, so no chain comes back to where it started and none has more than two links. */
  lemma NoCircularWait(s: State, ps: seq<Proc>)
    requires Chain(s, ps) && 2 <= |ps|
    ensures Rank(s, ps[|ps| - 1]) < Rank(s, ps[0])
    ensures ps[0] != ps[|ps| - 1] && |ps| <= 3
  {
    ChainFalls(s, ps);
  }

  lemma {:induction false} ChainFalls(s: State, ps: seq<Proc>)
    requires Chain(s, ps) && 1 <= |ps|
    ensures Rank(s, ps[|ps| - 1]) + |ps| - 1 <= Rank(s, ps[0])
  {
    if 2 <= |ps| {
      var front := ps[..|ps| - 1];
      assert forall k | 0 <= k < |front| :: front[k] == ps[k];
      assert Chain(s, front);
      ChainFalls(s, front);
      assert WaitsFor(s, ps[|ps| - 2], ps[|ps| - 2 + 1]);
    }
  }

  // ---- everyone can be served ----

  lemma RunOne(s: State, a: Action)
    requires Enabled(s, a)
    ensures Run(s, [a], Next(s, a))
  {
    assert [a][1..] == [];
  }

  /** Nothing moved but readers inside the read lock, which left it. */
  predicate OnlyReadersLeft(s: State, t: State) {
    && t == s.(readers := t.readers) && |t.readers| == |s.readers|
    && forall i | 0 <= i < |s.readers| ::
        t.readers[i] == s.readers[i] || (s.readers[i].HoldsRLock? && t.readers[i].Away?)
  }

  lemma {:induction false} ReaderLeaves(s: State, i: nat) returns (acts: seq<Action>, t: State)
    requires i < |s.readers| && s.readers[i].HoldsRLock?
    ensures Run(s, acts, t) && t == s.(readers := s.readers[i := Away])
    decreases s.readers[i].left
  {
    var s1 := Next(s, ReaderMoves(i, 0));
    RunOne(s, ReaderMoves(i, 0));
    if s.readers[i].left == 0 {
      acts, t := [ReaderMoves(i, 0)], s1;
    } else {
      var more;
      more, t := ReaderLeaves(s1, i);
      RunConcat(s, [ReaderMoves(i, 0)], s1, more, t);
      acts := [ReaderMoves(i, 0)] + more;
      assert s1.readers[i := Away] == s.readers[i := Away];
    }
  }

  /** The first n readers leave the read lock. */
  lemma {:induction false} ReadersLeave(s: State, n: nat) returns (acts: seq<Action>, t: State)
    requires n <= |s.readers|
    ensures Run(s, acts, t) && OnlyReadersLeft(s, t)
    ensures forall i | 0 <= i < n :: !t.readers[i].HoldsRLock?
  {
    if n == 0 {
      acts, t := [], s;
    } else {
      acts, t := ReadersLeave(s, n - 1);
      if t.readers[n - 1].HoldsRLock? {
        var more, u := ReaderLeaves(t, n - 1);
        RunConcat(s, acts, t, more, u);
        acts, t := acts + more, u;
      }
    }
  }

  /** The manager inside the read lock copies what is left and leaves. */
  lemma {:induction false} MgrLeavesRLock(s: State) returns (acts: seq<Action>, t: State)
    requires s.mgr.HasRLock?
    ensures Run(s, acts, t) && t == s.(mgr := Select)
    decreases s.mgr.left
  {
    var s1 := Next(s, MgrMoves(0));
    RunOne(s, MgrMoves(0));
    if s.mgr.left == 0 {
      acts, t := [MgrMoves(0)], s1;
    } else {
      var more;
      more, t := MgrLeavesRLock(s1);
      RunConcat(s, [MgrMoves(0)], s1, more, t);
      acts := [MgrMoves(0)] + more;
    }
  }

  /** From any state the manager can get back to its select, moving no one but readers out of the read lock. */
  lemma MgrCanSelect(s: State) returns (acts: seq<Action>, t: State)
    ensures Run(s, acts, t) && t.mgr.Select? && OnlyReadersLeft(s.(mgr := Select), t)
  {
    match s.mgr {
      case Select => acts, t := [], s;
      case HasRLock(_) => acts, t := MgrLeavesRLock(s);
      case NeedRLock =>
        var s1 := Next(s, MgrMoves(0));
        RunOne(s, MgrMoves(0));
        acts, t := MgrLeavesRLock(s1);
        RunConcat(s, [MgrMoves(0)], s1, acts, t);
        acts := [MgrMoves(0)] + acts;
      case NeedLock =>
        var s1;
        acts, s1 := ReadersLeave(s, |s.readers|);
        var s2 := Next(s1, MgrMoves(0));
        RunOne(s1, MgrMoves(0));
        RunConcat(s, acts, s1, [MgrMoves(0)], s2);
        t := Next(s2, MgrMoves(0));
        RunOne(s2, MgrMoves(0));
        RunConcat(s, acts + [MgrMoves(0)], s2, [MgrMoves(0)], t);
        acts := acts + [MgrMoves(0)] + [MgrMoves(0)];
      case _ =>
        t := Next(s, MgrMoves(0));
        RunOne(s, MgrMoves(0));
        acts := [MgrMoves(0)];
    }
  }

  /** p still wants what it wanted. */
  predicate SameWant(s: State, t: State, p: Proc) {
    match p
    case Mgr => t.mgr == s.mgr
    case Pump(i) => i < |s.pumps| && i < |t.pumps| && t.pumps[i] == s.pumps[i]
    case Reader(i) => i < |s.readers| && i < |t.readers| && t.readers[i] == s.readers[i]
  }

  /** The holder of the likes mutex gives it up, and there was no other. */
  lemma LikesFreed(s: State) returns (a: Action)
    requires Inv(s) && LikesLocked(s)
    ensures Enabled(s, a) && !LikesLocked(Next(s, a))
    ensures forall p | IsProc(s, p) && !HoldsLikesMutex(s, p) :: SameWant(s, Next(s, a), p)
  {
    if i :| 0 <= i < |s.pumps| && s.pumps[i].HasLikes? {
      a := PumpMoves(i);
    } else {
      var i :| 0 <= i < |s.readers| && s.readers[i].HoldsLikes?;
      a := ReaderMoves(i, 0);
    }
  }

  /** In every reachable state every blocked process can be served: some run, in which Kafka and Redis calls return,
      leads to a state where it wants the same and is no longer blocked. */
  lemma EveryoneCanBeServed(s: State, p: Proc) returns (acts: seq<Action>, t: State)
    requires Reachable(s) && IsProc(s, p) && Blocked(s, p)
    ensures Run(s, acts, t) && SameWant(s, t, p) && !Blocked(t, p)
  {
    LocksExclude(s);
    if p.Mgr? {
      acts, t := ReadersLeave(s, |s.readers|);
    } else if (p.Pump? && s.pumps[p.i].WantLikes?) || (p.Reader? && s.readers[p.i].NeedLikes?) {
      var a := LikesFreed(s);
      RunOne(s, a);
      acts, t := [a], Next(s, a);
    } else {
      acts, t := MgrCanSelect(s);
      if p.Pump? && s.pumps[p.i].WantBroadcast? {
        var u := Next(t, MgrTakes(false));
        RunOne(t, MgrTakes(false));
        RunConcat(s, acts, t, [MgrTakes(false)], u);
        acts, t := acts + [MgrTakes(false)], u;
      }
    }
  }
}

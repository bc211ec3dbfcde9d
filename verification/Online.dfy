/** Online counts across servers: each server's value lives under its own key with an expiry, a registry set names the
    servers of a room, and readers go through both with separate commands while writers and late removals interleave.
    Time is abstract.  `writes`, `reporting` and `removed` are histories; no step reads them but to enable a SADD. */
module Online {
  import opened Wire
  import opened Seqs
  import opened Machine

  /** One server's presence in one room. */
  datatype At = At(room: string, server: string)

  datatype Entry = Entry(value: nat, expiry: nat)
  datatype Write = Write(value: nat, time: nat)

  /** A removal asked for by a reader that found no value at `seenAt`; `known` is the server's latest write then. */
  datatype Removal = Removal(at: At, seenAt: nat, known: Option<Write>)

  /** A reader between its SMEMBERS and its MGET. */
  datatype Reader = Reader(room: string, members: seq<string>)

  datatype State = State(
    now: nat, keys: map<At, Entry>, registry: set<At>,
    readers: seq<Reader>, removals: seq<Removal>,
    writes: map<At, Write>, reporting: set<At>, removed: map<At, Removal>)

  function Init(): State {
    State(0, map[], {}, [], [], map[], {}, map[])
  }

  predicate Live(s: State, at: At) {
    at in s.keys && s.now < s.keys[at].expiry
  }

  /** What MGET returns for one key. */
  function Reply(s: State, at: At): Option<nat> {
    if Live(s, at) then Some(s.keys[at].value) else None
  }

  function Known(s: State, at: At): Option<Write> {
    if at in s.writes then Some(s.writes[at]) else None
  }

  function MembersOf(s: State, room: string): set<string> {
    set at | at in s.registry && at.room == room :: at.server
  }

  // ---- what a reader computes from its replies ----

  /** A server's contribution: its live value, nothing for an expired key. */
  function Count(s: State, room: string): string -> nat {
    (server: string) => if Live(s, At(room, server)) then s.keys[At(room, server)].value else 0
  }

  function Total(s: State, room: string, members: seq<string>): nat {
    Sum(members, Count(s, room)) % TWO_64
  }

  /** A removal for each member without a value. */
  function Stale(s: State, room: string, members: seq<string>): seq<Removal> {
    if members == [] then []
    else
      var at := At(room, members[0]);
      (if Live(s, at) then [] else [Removal(at, s.now, Known(s, at))]) + Stale(s, room, members[1..])
  }

  /** Whom the removals are about. */
  function Names(xs: seq<Removal>): seq<string> {
    seq(|xs|, i requires 0 <= i < |xs| => xs[i].at.server)
  }

  lemma {:induction false} StaleSnoc(s: State, room: string, members: seq<string>, server: string)
    ensures Stale(s, room, members + [server])
            == Stale(s, room, members)
               + if Live(s, At(room, server)) then []
                 else [Removal(At(room, server), s.now, Known(s, At(room, server)))]
  {
    if members == [] {
      assert [] + [server] == [server] && [server][1..] == [];
    } else {
      StaleSnoc(s, room, members[1..], server);
      assert (members + [server])[1..] == members[1..] + [server];
    }
  }

  // ---- steps ----

  datatype Action =
    | Advance(dt: nat)
    | SetCount(at: At, value: nat) | SAdd(at: At)
    | SMembers(room: string, members: seq<string>) | MGet(i: nat)
    | SRemLands(j: nat) | SRemLost(j: nat)

  predicate Enabled(s: State, a: Action) {
    match a
    case Advance(_) => true
    case SetCount(_, _) => true
    // the pipeline's second command, at any time after some first one
    case SAdd(at) => at in s.writes
    case SMembers(room, members) => Enumerates(members, MembersOf(s, room))
    case MGet(i) => i < |s.readers|
    case SRemLands(j) => j < |s.removals|
    case SRemLost(j) => j < |s.removals|
  }

  function Next(ttl: nat, s: State, a: Action): State
    requires Enabled(s, a)
  {
    match a
    case Advance(dt) => s.(now := s.now + dt)
    case SetCount(at, value) =>
      s.(keys := s.keys[at := Entry(value, s.now + ttl)], writes := s.writes[at := Write(value, s.now)],
         reporting := s.reporting + {at})
    case SAdd(at) => s.(registry := s.registry + {at}, reporting := s.reporting - {at}, removed := s.removed - {at})
    case SMembers(room, members) => s.(readers := s.readers + [Reader(room, members)])
    case MGet(i) =>
      var r := s.readers[i];
      s.(readers := s.readers[..i] + s.readers[i + 1..], removals := s.removals + Stale(s, r.room, r.members))
    case SRemLands(j) =>
      var x := s.removals[j];
      s.(removals := s.removals[..j] + s.removals[j + 1..], registry := s.registry - {x.at},
         removed := s.removed[x.at := x])
    // its context ends when the reader returns
    case SRemLost(j) => s.(removals := s.removals[..j] + s.removals[j + 1..])
  }

  /** The removals an MGet step asks for. */
  function Asked(ttl: nat, s: State, i: nat): seq<Removal>
    requires Enabled(s, MGet(i))
  {
    var removals := Next(ttl, s, MGet(i)).removals;
    if |s.removals| <= |removals| then removals[|s.removals|..] else []
  }

  predicate Run(ttl: nat, s: State, acts: seq<Action>, t: State)
    decreases |acts|
  {
    if acts == [] then s == t else Enabled(s, acts[0]) && Run(ttl, Next(ttl, s, acts[0]), acts[1..], t)
  }

  ghost predicate Reachable(ttl: nat, s: State) {
    exists acts :: Run(ttl, Init(), acts, s)
  }

  // ---- the invariant ----

  /** Every key holds its server's latest write and expires ttl after it. */
  ghost predicate KeysOk(ttl: nat, s: State) {
    && s.keys.Keys == s.writes.Keys
    && (forall at | at in s.keys ::
        s.keys[at] == Entry(s.writes[at].value, s.writes[at].time + ttl) && s.writes[at].time <= s.now)
  }

  /** A removal was asked for with the key expired. */
  ghost predicate RemovalOk(ttl: nat, s: State, x: Removal) {
    x.seenAt <= s.now && x.known.Some? && x.known.value.time + ttl <= x.seenAt && x.at in s.writes
  }

  ghost predicate RegistryOk(ttl: nat, s: State) {
    && (forall j | 0 <= j < |s.removals| :: RemovalOk(ttl, s, s.removals[j]))
    && (forall at | at in s.removed :: at !in s.registry && s.removed[at].at == at && RemovalOk(ttl, s, s.removed[at]))
    && (forall at | at in s.writes && at !in s.registry :: at in s.reporting || at in s.removed)
    && (forall at | at in s.registry :: at in s.writes)
    && (forall i | 0 <= i < |s.readers| :: NoDup(s.readers[i].members) && Written(s, s.readers[i]))
  }

  /** Every server a reader found registered has reported at some time. */
  predicate Written(s: State, r: Reader) {
    forall server | server in r.members :: At(r.room, server) in s.writes
  }

  ghost predicate Inv(ttl: nat, s: State) {
    KeysOk(ttl, s) && RegistryOk(ttl, s)
  }

  lemma {:induction false} StaleOk(ttl: nat, s: State, room: string, members: seq<string>)
    requires KeysOk(ttl, s) && Written(s, Reader(room, members))
    ensures forall x | x in Stale(s, room, members) ::
              x.at.room == room && x.at.server in members && x.seenAt == s.now && x.known == Known(s, x.at)
                && RemovalOk(ttl, s, x)
  {
    if members != [] {
      StaleOk(ttl, s, room, members[1..]);
    }
  }

  lemma StepKeepsKeys(ttl: nat, s: State, a: Action)
    requires KeysOk(ttl, s) && Enabled(s, a)
    ensures KeysOk(ttl, Next(ttl, s, a))
  {
  }

  lemma WritesKeepRegistry(ttl: nat, s: State, a: Action)
    requires RegistryOk(ttl, s) && Enabled(s, a) && (a.Advance? || a.SetCount? || a.SAdd?)
    ensures RegistryOk(ttl, Next(ttl, s, a))
  {
  }

  lemma ReadsKeepRegistry(ttl: nat, s: State, a: Action)
    requires Inv(ttl, s) && Enabled(s, a) && (a.SMembers? || a.MGet?)
    ensures RegistryOk(ttl, Next(ttl, s, a))
  {
    if a.MGet? {
      StaleOk(ttl, s, s.readers[a.i].room, s.readers[a.i].members);
    } else {
      forall server | server in a.members ensures At(a.room, server) in s.writes {
        assert server in MembersOf(s, a.room);
      }
    }
  }

  lemma RemovalsKeepRegistry(ttl: nat, s: State, a: Action)
    requires RegistryOk(ttl, s) && Enabled(s, a) && (a.SRemLands? || a.SRemLost?)
    ensures RegistryOk(ttl, Next(ttl, s, a))
  {
  }

  lemma StepKeeps(ttl: nat, s: State, a: Action)
    requires Inv(ttl, s) && Enabled(s, a)
    ensures Inv(ttl, Next(ttl, s, a))
  {
    StepKeepsKeys(ttl, s, a);
    if a.Advance? || a.SetCount? || a.SAdd? {
      WritesKeepRegistry(ttl, s, a);
    } else if a.SMembers? || a.MGet? {
      ReadsKeepRegistry(ttl, s, a);
    } else {
      RemovalsKeepRegistry(ttl, s, a);
    }
  }

  lemma {:induction false} RunKeeps(ttl: nat, s: State, acts: seq<Action>, t: State)
    requires Inv(ttl, s) && Run(ttl, s, acts, t)
    ensures Inv(ttl, t)
    decreases |acts|
  {
    if acts != [] {
      StepKeeps(ttl, s, acts[0]);
      RunKeeps(ttl, Next(ttl, s, acts[0]), acts[1..], t);
    }
  }

  lemma ReachableInv(ttl: nat, s: State)
    requires Reachable(ttl, s)
    ensures Inv(ttl, s)
  {
    var acts :| Run(ttl, Init(), acts, s);
    RunKeeps(ttl, Init(), acts, s);
  }
}

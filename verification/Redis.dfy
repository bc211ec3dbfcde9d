/** The shared store by its string keys, and the functions that read and write it, one command at a time.  Each is
    proved against the step relations of the online counts and of the likes; that no write disturbs another key is
    what the key templates are for. */
module Redis {
  import opened Wire
  import opened Seqs
  import opened Machine
  import Keys
  import Online
  import OnlineTheorems
  import Likes
  import LikesLedger

  /** A stored value with its expiry, if it has one. */
  datatype Value = Value(n: int, expiry: Option<nat>)

  function ParseUint(n: int): Option<nat> {
    if 0 <= n < TWO_64 then Some(n) else None
  }

  class Store {
    var now: nat
    var strings: map<string, Value>
    var sets: map<string, set<string>>

    constructor ()
      ensures now == 0 && strings == map[] && sets == map[]
    {
      now, strings, sets := 0, map[], map[];
    }

    function Lookup(key: string): Option<int>
      reads this
    {
      if key in strings && (strings[key].expiry.None? || now < strings[key].expiry.value) then Some(strings[key].n)
        else None
    }

    function Members(key: string): set<string>
      reads this
    {
      if key in sets then sets[key] else {}
    }

    method Set(key: string, n: int, ttl: nat)
      modifies this`strings
      ensures strings == old(strings)[key := Value(n, Some(now + ttl))]
    {
      strings := strings[key := Value(n, Some(now + ttl))];
    }

    method SAdd(key: string, member: string)
      modifies this`sets
      ensures sets == old(sets)[key := old(Members(key)) + {member}]
    {
      sets := sets[key := Members(key) + {member}];
    }

    method SRem(key: string, member: string)
      modifies this`sets
      ensures sets == old(sets)[key := old(Members(key)) - {member}]
    {
      sets := sets[key := Members(key) - {member}];
    }

    method SMembers(key: string) returns (members: seq<string>)
      ensures Enumerates(members, Members(key))
    {
      members := [];
      var todo := Members(key);
      while todo != {}
        invariant todo <= Members(key)
        invariant Enumerates(members, Members(key) - todo)
        decreases todo
      {
        var x :| x in todo;
        members, todo := members + [x], todo - {x};
      }
    }

    method MGet(keys: seq<string>) returns (values: seq<Option<int>>)
      ensures |values| == |keys| && forall i | 0 <= i < |keys| :: values[i] == Lookup(keys[i])
    {
      values := [];
      for i := 0 to |keys|
        invariant |values| == i && forall j | 0 <= j < i :: values[j] == Lookup(keys[j])
      {
        values := values + [Lookup(keys[i])];
      }
    }

    /** INCRBY fails, changing nothing, when the result would leave 64 bits. */
    method IncrBy(key: string, delta: int) returns (ok: bool)
      modifies this`strings
      ensures var n := (if old(Lookup(key)).Some? then old(Lookup(key)).value else 0) + delta;
              ok == (-TWO_63 <= n < TWO_63)
              && strings == if ok then old(strings)[key := Value(n, if old(Lookup(key)).Some?
                                                                 then old(strings[key].expiry) else None)]
                            else old(strings)
    {
      var current := Lookup(key);
      var n := (if current.Some? then current.value else 0) + delta;
      ok := -TWO_63 <= n < TWO_63;
      if ok {
        strings := strings[key := Value(n, if current.Some? then strings[key].expiry else None)];
      }
    }

    // ---- what the store means ----

    /** The store holds the online counts of s, under the rendered keys. */
    ghost predicate HoldsOnline(s: Online.State)
      reads this
    {
      && now == s.now
      && (forall at: Online.At | Keys.GoodServer(at.server) ::
            && (at in s.keys <==> Keys.OnlineKey(at.room, at.server) in strings)
            && (at in s.keys ==> s.keys[at].value < TWO_64
                                 && strings[Keys.OnlineKey(at.room, at.server)]
                                   == Value(s.keys[at].value, Some(s.keys[at].expiry))))
      && (forall room :: Members(Keys.RegistryKey(room)) == Online.MembersOf(s, room))
      && (forall at | at in s.registry :: Keys.GoodServer(at.server))
    }

    /** The store holds the like counters of s. */
    ghost predicate HoldsLikes(s: Likes.State)
      reads this
    {
      forall room ::
        if Keys.LikesKey(room) in strings
        then strings[Keys.LikesKey(room)] == Value(Likes.Counter(s, room), None)
        else Likes.Counter(s, room) == 0
    }
  }

  // ---- online counts ----

  /** One report as the store's step relation sees it, by how many of the pipeline's commands ran. */
  ghost function Report(ttl: nat, s: Online.State, at: Online.At, count: nat, ran: nat): Online.State {
    if ran == 0 then s
    else
      var s1 := Online.Next(ttl, s, Online.SetCount(at, count));
      if ran == 1 then s1 else Online.Next(ttl, s1, Online.SAdd(at))
  }

  /** The report's SET. */
  method SetOnline(store: Store, roomId: string, serverId: string, count: nat, ttl: nat,
                   ghost s: Online.State, ghost likes: Likes.State)
    requires Keys.GoodServer(serverId) && count < TWO_64
    requires store.HoldsOnline(s) && store.HoldsLikes(likes)
    modifies store`strings
    ensures store.HoldsOnline(Online.Next(ttl, s, Online.SetCount(Online.At(roomId, serverId), count)))
            && store.HoldsLikes(likes)
    ensures store.strings == old(store.strings)[Keys.OnlineKey(roomId, serverId) := Value(count, Some(store.now + ttl))]
  {
    ghost var at := Online.At(roomId, serverId);
    KeysApart(at);
    store.Set(Keys.OnlineKey(roomId, serverId), count, ttl);
    ghost var s1 := Online.Next(ttl, s, Online.SetCount(at, count));
    assert forall room :: Online.MembersOf(s1, room) == Online.MembersOf(s, room);
  }

  /** The report's SADD. */
  method AddServer(store: Store, roomId: string, serverId: string, ghost ttl: nat, ghost s: Online.State,
                   ghost likes: Likes.State)
    requires Keys.GoodServer(serverId) && Online.At(roomId, serverId) in s.writes
    requires store.HoldsOnline(s) && store.HoldsLikes(likes)
    modifies store`sets
    ensures store.HoldsOnline(Online.Next(ttl, s, Online.SAdd(Online.At(roomId, serverId)))) && store.HoldsLikes(likes)
    ensures store.sets
         == old(store.sets)[Keys.RegistryKey(roomId) := old(store.Members(Keys.RegistryKey(roomId))) + {serverId}]
  {
    ghost var at := Online.At(roomId, serverId);
    RegistryKeysApart(roomId);
    store.SAdd(Keys.RegistryKey(roomId), serverId);
    ghost var s1 := Online.Next(ttl, s, Online.SAdd(at));
    forall room ensures store.Members(Keys.RegistryKey(room)) == Online.MembersOf(s1, room) {
      AddedMember(s, s1, at, room);
    }
  }

  /** UpdateServerOnline: a SET and a SADD in one pipeline, of which a broken connection may run only the first or
      neither.  The SET leaves the count under the server's key, expiring ttl from now; the SADD puts the server in the
      room's registry, where it stays.  No other server's value, no other room and no like counter changes. */
  method UpdateServerOnline(store: Store, roomId: string, serverId: string, count: nat, ttl: nat, ran: nat,
                            ghost s: Online.State, ghost likes: Likes.State)
    requires Keys.GoodServer(serverId) && count < TWO_64
    requires store.HoldsOnline(s) && store.HoldsLikes(likes)
    modifies store`strings, store`sets
    ensures store.HoldsOnline(Report(ttl, s, Online.At(roomId, serverId), count, ran)) && store.HoldsLikes(likes)
    ensures store.strings
         == if ran == 0 then old(store.strings)
            else old(store.strings)[Keys.OnlineKey(roomId, serverId) := Value(count, Some(store.now + ttl))]
    ensures store.sets
         == if ran <= 1 then old(store.sets)
            else old(store.sets)[Keys.RegistryKey(roomId) := old(store.Members(Keys.RegistryKey(roomId))) + {serverId}]
  {
    ghost var at := Online.At(roomId, serverId);
    if ran == 0 {
      return;
    }
    SetOnline(store, roomId, serverId, count, ttl, s, likes);
    ghost var s1 := Online.Next(ttl, s, Online.SetCount(at, count));
    if ran == 1 {
      return;
    }
    AddServer(store, roomId, serverId, ttl, s1, likes);
  }

  lemma ReportKeeps(ttl: nat, s: Online.State, at: Online.At, count: nat)
    requires Online.Inv(ttl, s) && OnlineTheorems.Unthreatened(s, at)
    ensures var r := Report(ttl, s, at, count, 2);
            && Online.Inv(ttl, r) && OnlineTheorems.Unthreatened(r, at) && at in r.registry
            && at in r.keys && r.keys[at] == Online.Entry(count, s.now + ttl)
  {
    Online.StepKeeps(ttl, s, Online.SetCount(at, count));
    Online.StepKeeps(ttl, Online.Next(ttl, s, Online.SetCount(at, count)), Online.SAdd(at));
  }

  /** Until it expires, the report stands. */
  lemma ReportLasts(ttl: nat, s: Online.State, at: Online.At, count: nat, acts: seq<Online.Action>, t: Online.State,
                    more: seq<Online.Action>, u: Online.State)
    requires Online.Inv(ttl, s) && OnlineTheorems.Unthreatened(s, at)
    requires Online.Run(ttl, Report(ttl, s, at, count, 2), acts, t) && Online.Run(ttl, t, more, u)
    requires OnlineTheorems.NoReport(acts, at) && OnlineTheorems.NoReport(more, at) && u.now < s.now + ttl
    ensures at in t.registry && Online.Live(u, at) && u.keys[at].value == count
  {
    ReportKeeps(ttl, s, at, count);
    OnlineTheorems.TimePasses(ttl, t, more, u);
    OnlineTheorems.StaysWithoutReport(ttl, Report(ttl, s, at, count, 2), acts, t, at);
    OnlineTheorems.StaysWithoutReport(ttl, t, more, u, at);
  }

  /** A total with one live member's value set apart. */
  lemma AddedOnce(s: Online.State, at: Online.At, members: seq<string>) returns (others: seq<string>)
    requires NoDup(members) && at.server in members && Online.Live(s, at)
    ensures NoDup(others) && forall x :: x in others <==> x in members && x != at.server
    ensures Online.Total(s, at.room, members)
         == (s.keys[at].value + Sum(others, Online.Count(s, at.room))) % TWO_64
  {
    var k: nat :| k < |members| && members[k] == at.server;
    others := members[..k] + members[k + 1..];
    OnlineTheorems.OthersAre(members, k);
    SumWithout(members, k, Online.Count(s, at.room));
    assert Online.At(at.room, at.server) == at;
  }

  /** A complete report is counted: whatever other servers, readers and removals do, a reader whose two commands both
      come within ttl of it finds the server registered and adds its count once.  The server is not to report again in
      between, and no removal naming it may be on its way. */
  lemma CompleteReportIsCounted(ttl: nat, s: Online.State, at: Online.At, count: nat, acts: seq<Online.Action>,
                                t: Online.State, more: seq<Online.Action>, u: Online.State, members: seq<string>)
    returns (others: seq<string>)
    requires Online.Inv(ttl, s) && OnlineTheorems.Unthreatened(s, at)
    requires Online.Run(ttl, Report(ttl, s, at, count, 2), acts, t) && Online.Run(ttl, t, more, u)
    requires OnlineTheorems.NoReport(acts, at) && OnlineTheorems.NoReport(more, at) && u.now < s.now + ttl
    requires Online.Enabled(t, Online.SMembers(at.room, members))
    ensures at.server in members
    ensures NoDup(others) && forall x :: x in others <==> x in members && x != at.server
    ensures Online.Total(u, at.room, members) == (count + Sum(others, Online.Count(u, at.room))) % TWO_64
  {
    ReportLasts(ttl, s, at, count, acts, t, more, u);
    OnlineTheorems.RegisteredIsRead(t, at, members);
    others := AddedOnce(u, at, members);
  }

  lemma AddedMember(s: Online.State, s': Online.State, at: Online.At, room: string)
    requires s'.registry == s.registry + {at}
    ensures Online.MembersOf(s', room) == Online.MembersOf(s, room) + if room == at.room then {at.server} else {}
  {
    forall x ensures x in Online.MembersOf(s', room) <==> Online.At(room, x) in s'.registry {
    }
    forall x ensures x in Online.MembersOf(s, room) <==> Online.At(room, x) in s.registry {
    }
  }

  /** No other good key is this server's key. */
  lemma KeysApart(at: Online.At)
    requires Keys.GoodServer(at.server)
    ensures forall other: Online.At | Keys.GoodServer(other.server) && other != at ::
              Keys.OnlineKey(other.room, other.server) != Keys.OnlineKey(at.room, at.server)
    ensures forall room :: Keys.LikesKey(room) != Keys.OnlineKey(at.room, at.server)
  {
    forall other: Online.At | Keys.GoodServer(other.server) && other != at
      ensures Keys.OnlineKey(other.room, other.server) != Keys.OnlineKey(at.room, at.server) {
      if Keys.Render(Keys.Online(other.room, other.server)) == Keys.Render(Keys.Online(at.room, at.server)) {
        Keys.KeysAreInjective(Keys.Online(other.room, other.server), Keys.Online(at.room, at.server));
      }
    }
    forall room ensures Keys.LikesKey(room) != Keys.OnlineKey(at.room, at.server) {
      if Keys.Render(Keys.Likes(room)) == Keys.Render(Keys.Online(at.room, at.server)) {
        Keys.KeysAreInjective(Keys.Likes(room), Keys.Online(at.room, at.server));
      }
    }
  }

  lemma RegistryKeysApart(room: string)
    ensures forall other | other != room :: Keys.RegistryKey(other) != Keys.RegistryKey(room)
  {
    forall other | other != room ensures Keys.RegistryKey(other) != Keys.RegistryKey(room) {
      if Keys.Render(Keys.Registry(other)) == Keys.Render(Keys.Registry(room)) {
        Keys.KeysAreInjective(Keys.Registry(other), Keys.Registry(room));
      }
    }
  }

  lemma LikesKeysApart(room: string)
    ensures forall other | other != room :: Keys.LikesKey(other) != Keys.LikesKey(room)
    ensures forall at: Online.At | Keys.GoodServer(at.server) ::
              Keys.OnlineKey(at.room, at.server) != Keys.LikesKey(room)
  {
    forall other | other != room ensures Keys.LikesKey(other) != Keys.LikesKey(room) {
      if Keys.Render(Keys.Likes(other)) == Keys.Render(Keys.Likes(room)) {
        Keys.KeysAreInjective(Keys.Likes(other), Keys.Likes(room));
      }
    }
    forall at: Online.At | Keys.GoodServer(at.server)
      ensures Keys.OnlineKey(at.room, at.server) != Keys.LikesKey(room) {
      KeysApart(at);
    }
  }

  /** Which of the two commands errs. */
  datatype Fault = NoFault | MembersFail | ValuesFail

  /** GetTotalOnline: an error or an empty registry gives zero; otherwise the uint64 total of the members' live values,
      and a removal request for each member without one.  Other commands may run between its two: `first` and `second`
      are the store as the SMEMBERS and the MGET find it, holding s1 and s2.  In the step relation they are the SMembers
      step of s1 and, when s2 comes later and has that reader at place i, its MGet step: the removals requested are the
      ones this step puts on their way. */
  method GetTotalOnline(first: Store, second: Store, roomId: string, fault: Fault, ghost s1: Online.State,
                        ghost s2: Online.State,
                        ghost ttl: nat, ghost i: nat)
    returns (total: nat, stale: seq<string>, members: seq<string>)
    requires first.HoldsOnline(s1) && second.HoldsOnline(s2)
    ensures Enumerates(members, Online.MembersOf(s1, roomId))
    ensures fault.NoFault? ==>
              total == Online.Total(s2, roomId, members) && stale == Online.Names(Online.Stale(s2, roomId, members))
    ensures fault.NoFault? && i < |s2.readers| && s2.readers[i] == Online.Reader(roomId, members) ==>
              stale == Online.Names(Online.Asked(ttl, s2, i))
    ensures !fault.NoFault? ==> total == 0 && stale == []
  {
    if i < |s2.readers| {
      MGetAsks(ttl, s2, i);
    }
    total, stale := 0, [];
    members := SMembersOnline(first, roomId, s1);
    if fault.MembersFail? {
      return;
    }
    if members == [] {
      NoMembers(s2, roomId);
      return;
    }
    var values := MGetOnline(first, second, roomId, members, s1, s2);
    if fault.ValuesFail? {
      return;
    }
    total, stale := SumReplies(members, values, roomId, s2);
  }

  lemma NoMembers(s: Online.State, room: string)
    ensures Online.Total(s, room, []) == 0 && Online.Names(Online.Stale(s, room, [])) == []
  {
  }

  method SMembersOnline(store: Store, roomId: string, ghost s: Online.State) returns (members: seq<string>)
    requires store.HoldsOnline(s)
    ensures Enumerates(members, Online.MembersOf(s, roomId))
  {
    members := store.SMembers(Keys.RegistryKey(roomId));
  }

  /** The keys of the members found, and the MGET. */
  method MGetOnline(ghost first: Store, second: Store, roomId: string, members: seq<string>,
                    ghost s1: Online.State, ghost s2: Online.State)
    returns (values: seq<Option<int>>)
    requires first.HoldsOnline(s1) && second.HoldsOnline(s2) && Enumerates(members, Online.MembersOf(s1, roomId))
    ensures |values| == |members| && forall i | 0 <= i < |members| ::
              Answers(values[i], s2, Online.At(roomId, members[i]))
  {
    RepliesOf(first, second, s1, s2, roomId, members);
    var keys := seq(|members|, i requires 0 <= i < |members| => Keys.OnlineKey(roomId, members[i]));
    values := second.MGet(keys);
  }

  /** The MGet step of a reader keeps the removals on their way and asks for one for each member without a live value.
      */
  lemma MGetAsks(ttl: nat, s: Online.State, i: nat)
    requires Online.Enabled(s, Online.MGet(i))
    ensures Online.Next(ttl, s, Online.MGet(i)).removals == s.removals + Online.Asked(ttl, s, i)
    ensures Online.Asked(ttl, s, i) == Online.Stale(s, s.readers[i].room, s.readers[i].members)
  {
  }

  /** One of the goroutines GetTotalOnline leaves behind: the SREM of the removal it was started for. */
  method RemoveServer(store: Store, roomId: string, serverId: string, ghost ttl: nat, ghost s: Online.State,
                      ghost j: nat,
                      ghost likes: Likes.State)
    requires j < |s.removals| && s.removals[j].at == Online.At(roomId, serverId)
    requires store.HoldsOnline(s) && store.HoldsLikes(likes)
    modifies store`sets
    ensures store.HoldsOnline(Online.Next(ttl, s, Online.SRemLands(j))) && store.HoldsLikes(likes)
  {
    ghost var at := Online.At(roomId, serverId);
    RegistryKeysApart(roomId);
    store.SRem(Keys.RegistryKey(roomId), serverId);
    ghost var s1 := Online.Next(ttl, s, Online.SRemLands(j));
    forall room ensures store.Members(Keys.RegistryKey(room)) == Online.MembersOf(s1, room) {
      RemovedMember(s, s1, at, room);
    }
  }

  lemma RemovedMember(s: Online.State, s': Online.State, at: Online.At, room: string)
    requires s'.registry == s.registry - {at}
    ensures Online.MembersOf(s', room) == Online.MembersOf(s, room) - if room == at.room then {at.server} else {}
  {
    forall x ensures x in Online.MembersOf(s', room) <==> Online.At(room, x) in s'.registry {
    }
    forall x ensures x in Online.MembersOf(s, room) <==> Online.At(room, x) in s.registry {
    }
  }

  /** The reply is the live value of the key, or nil when there is none. */
  ghost predicate Answers(reply: Option<int>, s: Online.State, at: Online.At) {
    && (reply.None? <==> !Online.Live(s, at))
    && (reply.Some? ==> at in s.keys && reply.value == s.keys[at].value && s.keys[at].value < TWO_64)
  }

  /** GetTotalOnline's loop over the replies. */
  method SumReplies(members: seq<string>, values: seq<Option<int>>, ghost room: string, ghost s: Online.State)
    returns (total: nat, stale: seq<string>)
    requires |values| == |members|
    requires forall i | 0 <= i < |members| :: Answers(values[i], s, Online.At(room, members[i]))
    ensures total == Online.Total(s, room, members) && stale == Online.Names(Online.Stale(s, room, members))
  {
    total, stale := 0, [];
    for i := 0 to |values|
      invariant total == Online.Total(s, room, members[..i])
      invariant stale == Online.Names(Online.Stale(s, room, members[..i]))
    {
      NextReply(s, room, members, i);
      if values[i].None? {
        stale := stale + [members[i]];
      } else {
        var parsed := ParseUint(values[i].value);
        if parsed.Some? {
          total := (total + parsed.value) % TWO_64;
        }
      }
    }
    assert members[..|members|] == members;
  }

  /** What one more reply adds to the total and to the stale names. */
  lemma NextReply(s: Online.State, room: string, members: seq<string>, i: nat)
    requires i < |members|
    ensures var at := Online.At(room, members[i]);
            var live := Online.Live(s, at);
            && Online.Total(s, room, members[..i + 1]) ==
               (if live then (Online.Total(s, room, members[..i]) + s.keys[at].value) % TWO_64
                else Online.Total(s, room, members[..i]))
            && Online.Names(Online.Stale(s, room, members[..i + 1])) ==
               Online.Names(Online.Stale(s, room, members[..i])) + if live then [] else [members[i]]
  {
    assert members[..i + 1] == members[..i] + [members[i]];
    Online.StaleSnoc(s, room, members[..i], members[i]);
    SumSnoc(members[..i], members[i], Online.Count(s, room));
    var sum := Sum(members[..i], Online.Count(s, room));
    AddModulo(sum, sum, Online.Count(s, room)(members[i]));
  }

  /** What MGET finds for a member registered earlier. */
  lemma ReplyOf(first: Store, second: Store, s1: Online.State, s2: Online.State, room: string,
                                   members: seq<string>, i: nat)
    requires first.HoldsOnline(s1) && second.HoldsOnline(s2)
    requires Enumerates(members, Online.MembersOf(s1, room)) && i < |members|
    ensures Answers(second.Lookup(Keys.OnlineKey(room, members[i])), s2, Online.At(room, members[i]))
  {
    assert members[i] in Online.MembersOf(s1, room);
    assert Online.At(room, members[i]) in s1.registry;
  }

  lemma RepliesOf(first: Store, second: Store, s1: Online.State, s2: Online.State, room: string,
                                     members: seq<string>)
    requires first.HoldsOnline(s1) && second.HoldsOnline(s2) && Enumerates(members, Online.MembersOf(s1, room))
    ensures forall i | 0 <= i < |members| ::
              Answers(second.Lookup(Keys.OnlineKey(room, members[i])), s2, Online.At(room, members[i]))
  {
    forall i: nat | i < |members|
      ensures Answers(second.Lookup(Keys.OnlineKey(room, members[i])), s2, Online.At(room, members[i])) {
      ReplyOf(first, second, s1, s2, room, members, i);
    }
  }

  // ---- likes ----

  /** IncrRoomLikes: the cast, one INCRBY, and nothing else; what the step relation's landing increment does. */
  method IncrRoomLikes(store: Store, roomId: string, count: nat, ghost likes: Likes.State, ghost k: nat,
                       ghost s: Online.State)
    requires count < TWO_64
    requires k < |likes.flying| && likes.flying[k] == Likes.Incr(roomId, count)
    requires store.HoldsLikes(likes) && store.HoldsOnline(s)
    modifies store`strings
    ensures store.HoldsLikes(Likes.Next(likes, Likes.Lands(k))) && store.HoldsOnline(s)
  {
    LikesKeysApart(roomId);
    var delta := if count < TWO_63 then count else count - TWO_64;
    assert delta == ToInt64(count);
    var ok := store.IncrBy(Keys.LikesKey(roomId), delta);
  }

  /** GetRoomLikes: zero on an error, for a missing key and for a counter that does not parse as unsigned. */
  method GetRoomLikes(store: Store, roomId: string, fails: bool, ghost likes: Likes.State) returns (count: nat)
    requires store.HoldsLikes(likes)
    ensures count == if fails then 0 else LikesLedger.Shown(Likes.Counter(likes, roomId))
  {
    if fails {
      return 0;
    }
    var found := store.Lookup(Keys.LikesKey(roomId));
    if found.None? {
      return 0;
    }
    var parsed := ParseUint(found.value);
    count := if parsed.Some? then parsed.value else 0;
  }
}

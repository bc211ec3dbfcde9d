/** What a reader's total means, when a server is missing from the registry, and how long a value is counted. */
module OnlineTheorems {
  import opened Seqs
  import opened Machine
  import opened Online

  // ---- totals ----

  lemma {:induction false} ZeroSum(xs: seq<string>, weight: string -> nat)
    ensures Sum(xs, weight) == 0 <==> forall x | x in xs :: weight(x) == 0
  {
    if xs != [] {
      ZeroSum(xs[1..], weight);
      assert forall x :: x in xs <==> x == xs[0] || x in xs[1..];
    }
  }

  /** Summing over distinct names whose weight, if any, is in `all` gives at most the sum over `all`, and the same
      exactly when no weighty name of `all` is left out. */
  lemma {:induction false} SumOverPart(xs: seq<string>, all: seq<string>, weight: string -> nat)
    requires NoDup(xs) && NoDup(all)
    requires forall x | x in xs && weight(x) > 0 :: x in all
    ensures Sum(xs, weight) <= Sum(all, weight)
    ensures Sum(xs, weight) == Sum(all, weight) <==> forall y | y in all && weight(y) > 0 :: y in xs
  {
    if xs == [] {
      ZeroSum(all, weight);
    } else {
      var x, rest := xs[0], xs[1..];
      assert forall y :: y in xs <==> y == x || y in rest;
      assert x !in rest;
      if x in all {
        var k :| 0 <= k < |all| && all[k] == x;
        var others := all[..k] + all[k + 1..];
        SumWithout(all, k, weight);
        OthersAre(all, k);
        SumOverPart(rest, others, weight);
      } else {
        SumOverPart(rest, all, weight);
      }
    }
  }

  lemma OthersAre(all: seq<string>, k: nat)
    requires k < |all| && NoDup(all)
    ensures NoDup(all[..k] + all[k + 1..])
    ensures forall y :: y in all[..k] + all[k + 1..] <==> y in all && y != all[k]
  {
    var others := all[..k] + all[k + 1..];
    forall y ensures y in others <==> y in all && y != all[k] {
      if y in all && y != all[k] {
        var j :| 0 <= j < |all| && all[j] == y;
        assert y == if j < k then others[j] else others[j - 1];
      }
    }
  }

  function LiveServers(s: State, room: string): set<string> {
    set at | at in s.keys && at.room == room && Live(s, at) :: at.server
  }

  lemma Reduced(n: nat)
    ensures n % TWO_64 <= n && (n < TWO_64 ==> n % TWO_64 == n)
  {
  }

  lemma CountedAreLive(s: State, room: string, all: seq<string>, x: string)
    requires Enumerates(all, LiveServers(s, room)) && Count(s, room)(x) > 0
    ensures x in all
  {
    assert At(room, x) in s.keys && x in LiveServers(s, room);
  }

  /** A reader at its MGET counts each server at most once and only unexpired values: the total never exceeds the sum
      over all live servers of the room, and, where uint64 can hold that sum, equals it exactly when the members it
      read contain every live server with someone online. */
  lemma ReaderCountsLive(ttl: nat, s: State, i: nat, all: seq<string>)
    requires Reachable(ttl, s) && i < |s.readers|
    requires Enumerates(all, LiveServers(s, s.readers[i].room))
    ensures var Reader(room, members) := s.readers[i];
            var live := Sum(all, Count(s, room));
            && Total(s, room, members) <= live
            && (live < TWO_64 ==>
                  (Total(s, room, members) == live <==> forall x | x in all && Count(s, room)(x) > 0 :: x in members))
  {
    var room, members := s.readers[i].room, s.readers[i].members;
    assert NoDup(members) by { ReachableInv(ttl, s); }
    forall x | x in members && Count(s, room)(x) > 0 ensures x in all {
      CountedAreLive(s, room, all, x);
    }
    SumOverPart(members, all, Count(s, room));
    Reduced(Sum(members, Count(s, room)));
  }

  /** The removals a reader asks for name exactly its members without a live value. */
  lemma {:induction false} StaleNames(s: State, room: string, members: seq<string>, server: string)
    ensures (exists x :: x in Stale(s, room, members) && x.at == At(room, server))
            <==> server in members && !Live(s, At(room, server))
  {
    if members != [] {
      StaleNames(s, room, members[1..], server);
      var first := Removal(At(room, members[0]), s.now, Known(s, At(room, members[0])));
      assert !Live(s, first.at) ==> first in Stale(s, room, members);
      assert forall x ::
               x in Stale(s, room, members)
               <==> (!Live(s, first.at) && x == first) || x in Stale(s, room, members[1..]);
    }
  }

  // ---- the registry ----

  /** A live server is missing from the registry only after a SET whose SADD has not run since, or after a removal
      asked for by a reader that had seen its key expired: that removal is late, for the server wrote again after
      the write the reader had found expired.  With no SADD outstanding it is missing exactly when it was so removed. */
  lemma WhyALiveServerIsMissing(ttl: nat, s: State, at: At)
    requires Reachable(ttl, s) && Live(s, at)
    ensures at !in s.registry ==> at in s.reporting || at in s.removed
    ensures at !in s.reporting ==> (at !in s.registry <==> at in s.removed)
    ensures at in s.removed ==>
              at in s.writes
              && var x := s.removed[at];
                 x.at == at && x.seenAt <= s.now
                 && x.known.Some? && x.known.value.time + ttl <= x.seenAt && x.known.value != s.writes[at]
  {
    ReachableInv(ttl, s);
    assert RegistryOk(ttl, s) && KeysOk(ttl, s);
  }

  /** The late removal happens: a server reports, falls silent until its key expires, reports again completely, and is
      then taken out by a reader that looked in between.  It is live and unregistered with no command of its own
      outstanding. */
  lemma LateRemoval(ttl: nat, at: At, value: nat) returns (s: State)
    ensures Reachable(ttl, s)
    ensures 0 < ttl ==> Live(s, at) && at !in s.registry && at !in s.reporting
  {
    var s1 := ExpiresAndIsSeen(ttl, at, value);
    var s2 := Reported(ttl, s1, at, value);
    ReachableStep(ttl, s2, SRemLands(0));
    s := Next(ttl, s2, SRemLands(0));
  }

  /** A server reports once and falls silent; a reader finds its key expired and asks for its removal. */
  lemma ExpiresAndIsSeen(ttl: nat, at: At, value: nat) returns (s: State)
    ensures Reachable(ttl, s) && |s.removals| == 1 && s.removals[0].at == at
  {
    var s0 := Init();
    assert Run(ttl, s0, [], s0);
    var s1 := Reported(ttl, s0, at, value);
    ReachableStep(ttl, s1, Advance(ttl));
    var s2 := Next(ttl, s1, Advance(ttl));
    s := ExpiredIsRead(ttl, s2, at);
  }

  lemma ExpiredIsRead(ttl: nat, s: State, at: At) returns (t: State)
    requires Reachable(ttl, s) && s.registry == {at} && !Live(s, at) && s.readers == [] && s.removals == []
    ensures Reachable(ttl, t) && |t.removals| == 1 && t.removals[0].at == at
  {
    assert MembersOf(s, at.room) == {at.server};
    ReachableStep(ttl, s, SMembers(at.room, [at.server]));
    var s1 := Next(ttl, s, SMembers(at.room, [at.server]));
    ReachableStep(ttl, s1, MGet(0));
    t := Next(ttl, s1, MGet(0));
    assert Stale(s1, at.room, [at.server]) == [Removal(at, s1.now, Known(s1, at))] by {
      assert [at.server][1..] == [];
    }
  }

  /** A complete report: the SET and then the SADD. */
  lemma Reported(ttl: nat, s: State, at: At, value: nat) returns (t: State)
    requires Reachable(ttl, s)
    ensures Reachable(ttl, t)
    ensures t == s.(keys := s.keys[at := Entry(value, s.now + ttl)], writes := s.writes[at := Write(value, s.now)],
                    registry := s.registry + {at}, reporting := s.reporting - {at}, removed := s.removed - {at})
  {
    ReachableStep(ttl, s, SetCount(at, value));
    var s1 := Next(ttl, s, SetCount(at, value));
    ReachableStep(ttl, s1, SAdd(at));
    t := Next(ttl, s1, SAdd(at));
    assert s.reporting + {at} - {at} == s.reporting - {at};
  }

  lemma {:induction false} RunSnoc(ttl: nat, s: State, acts: seq<Action>, t: State, a: Action)
    requires Run(ttl, s, acts, t) && Enabled(t, a)
    ensures Run(ttl, s, acts + [a], Next(ttl, t, a))
    decreases |acts|
  {
    if acts == [] {
      assert ([] + [a])[1..] == [];
    } else {
      RunSnoc(ttl, Next(ttl, s, acts[0]), acts[1..], t, a);
      assert (acts + [a])[1..] == acts[1..] + [a];
    }
  }

  lemma ReachableStep(ttl: nat, s: State, a: Action)
    requires Reachable(ttl, s) && Enabled(s, a)
    ensures Reachable(ttl, Next(ttl, s, a))
  {
    var acts :| Run(ttl, Init(), acts, s);
    RunSnoc(ttl, Init(), acts, s, a);
  }

  // ---- heartbeats ----

  const SECOND := 1_000_000_000

  /** The stats ticker's expiry for interval I. */
  function ReportTTL(interval: nat): nat {
    2 * interval + SECOND
  }

  /** For any interval, a value is counted exactly as long as the server's latest write for the room is younger than
      the expiry, and what is counted is that write: a crashed server stops counting within that time, seven seconds
      for the three of the program. */
  lemma CountedIsLatestWrite(interval: nat, s: State, at: At)
    requires Reachable(ReportTTL(interval), s)
    ensures Live(s, at) <==> at in s.writes && s.now < s.writes[at].time + ReportTTL(interval)
    ensures Reply(s, at).Some? ==> Reply(s, at).value == s.writes[at].value
    ensures interval == 3_000_000_000 ==> (Live(s, at) <==> at in s.writes && s.now < s.writes[at].time + 7_000_000_000)
  {
    ReachableInv(ReportTTL(interval), s);
  }

  /** The schedule alone: with the server's latest report `since` ago at its start, no two successive reports, nor the
      last one and any later moment, are more than `gap` apart. */
  predicate OnTime(acts: seq<Action>, at: At, since: nat, gap: nat)
    decreases |acts|
  {
    && since <= gap
    && (acts != [] ==>
          match acts[0]
          case Advance(dt) => OnTime(acts[1..], at, since + dt, gap)
          case SetCount(who, _) => OnTime(acts[1..], at, if who == at then 0 else since, gap)
          case _ => OnTime(acts[1..], at, since, gap))
  }

  /** How long ago the server's latest report was. */
  function Since(s: State, at: At): nat
    requires at in s.writes && s.writes[at].time <= s.now
  {
    s.now - s.writes[at].time
  }

  /** Time since the report after one more step. */
  function SinceNext(since: nat, a: Action, at: At): nat {
    match a
    case Advance(dt) => since + dt
    case SetCount(who, _) => if who == at then 0 else since
    case _ => since
  }

  lemma SinceMoves(ttl: nat, s: State, a: Action, at: At)
    requires Enabled(s, a) && KeysOk(ttl, s) && at in s.writes
    ensures var s' := Next(ttl, s, a);
            at in s'.writes && s'.writes[at].time <= s'.now && Since(s', at) == SinceNext(Since(s, at), a, at)
  {
  }

  /** No removal naming the server is on its way. */
  predicate Unthreatened(s: State, at: At) {
    forall j | 0 <= j < |s.removals| :: s.removals[j].at != at
  }

  /** A live server that is registered and not threatened stays so through any step: no reader asks for its removal. */
  lemma LiveStaysRegistered(ttl: nat, s: State, a: Action, at: At)
    requires Inv(ttl, s) && Enabled(s, a) && Live(s, at) && at in s.registry && Unthreatened(s, at)
    ensures at in Next(ttl, s, a).registry && Unthreatened(Next(ttl, s, a), at)
  {
    if a.MGet? {
      StaleAreNotLive(s, s.readers[a.i].room, s.readers[a.i].members);
    }
  }

  lemma {:induction false} StaleAreNotLive(s: State, room: string, members: seq<string>)
    ensures forall x | x in Stale(s, room, members) :: !Live(s, x.at)
  {
    if members != [] {
      StaleAreNotLive(s, room, members[1..]);
    }
  }

  lemma {:induction false} TimePasses(ttl: nat, s: State, acts: seq<Action>, t: State)
    requires Run(ttl, s, acts, t)
    ensures s.now <= t.now
    decreases |acts|
  {
    if acts != [] {
      TimePasses(ttl, Next(ttl, s, acts[0]), acts[1..], t);
    }
  }

  /** The server does not write its count. */
  predicate NoReport(acts: seq<Action>, at: At) {
    forall k | 0 <= k < |acts| :: !(acts[k].SetCount? && acts[k].at == at)
  }

  /** Until it expires, the last report of a registered, unthreatened server stays what it was, and so does the
      registration. */
  lemma {:induction false} StaysWithoutReport(ttl: nat, s: State, acts: seq<Action>, t: State, at: At)
    requires Inv(ttl, s) && Run(ttl, s, acts, t) && NoReport(acts, at)
    requires at in s.keys && t.now < s.keys[at].expiry && at in s.registry && Unthreatened(s, at)
    ensures Inv(ttl, t) && at in t.keys && t.keys[at] == s.keys[at] && at in t.registry && Unthreatened(t, at)
    decreases |acts|
  {
    if acts != [] {
      TimePasses(ttl, s, acts, t);
      var s' := Next(ttl, s, acts[0]);
      LiveStaysRegistered(ttl, s, acts[0], at);
      StepKeeps(ttl, s, acts[0]);
      assert s'.keys[at] == s.keys[at];
      StaysWithoutReport(ttl, s', acts[1..], t, at);
    }
  }

  /** A server that is registered, not threatened and reports on time, one missed tick included, is both live and
      registered at every moment of the run. */
  lemma {:induction false} PunctualServersStay(interval: nat, s: State, acts: seq<Action>, k: nat, t: State, at: At)
    requires Reachable(ReportTTL(interval), s) && at in s.writes && s.writes[at].time <= s.now
    requires at in s.registry && Unthreatened(s, at)
    requires OnTime(acts, at, Since(s, at), 2 * interval)
    requires k <= |acts| && Run(ReportTTL(interval), s, acts[..k], t)
    ensures Live(t, at) && at in t.registry && Unthreatened(t, at)
    decreases k
  {
    var ttl := ReportTTL(interval);
    CountedIsLatestWrite(interval, s, at);
    if k != 0 {
      ReachableInv(ttl, s);
      SinceMoves(ttl, s, acts[0], at);
      LiveStaysRegistered(ttl, s, acts[0], at);
      ReachableStep(ttl, s, acts[0]);
      assert acts[..k][1..] == acts[1..][..k - 1];
      PunctualServersStay(interval, Next(ttl, s, acts[0]), acts[1..], k - 1, t, at);
    }
  }

  lemma {:induction false} RunSplits(ttl: nat, s: State, acts: seq<Action>, t: State, more: seq<Action>, u: State)
    requires Run(ttl, s, acts, t) && Run(ttl, t, more, u)
    ensures Run(ttl, s, acts + more, u)
    decreases |acts|
  {
    if acts == [] {
      assert acts + more == more;
    } else {
      RunSplits(ttl, Next(ttl, s, acts[0]), acts[1..], t, more, u);
      assert (acts + more)[1..] == acts[1..] + more;
    }
  }

  /** So every reader counts it: whoever does its SMEMBERS at one moment of the run and its MGET at a later one reads
      the server's name once, and adds the value of its latest report. */
  lemma PunctualServersAreCounted(interval: nat, s: State, acts: seq<Action>, j: nat, t: State, k: nat, u: State,
                                  at: At,
                                  members: seq<string>)
    requires Reachable(ReportTTL(interval), s) && at in s.writes && s.writes[at].time <= s.now
    requires at in s.registry && Unthreatened(s, at)
    requires OnTime(acts, at, Since(s, at), 2 * interval)
    requires j <= k <= |acts| && Run(ReportTTL(interval), s, acts[..j], t) && Run(ReportTTL(interval), t, acts[j..k], u)
    requires Enabled(t, SMembers(at.room, members))
    ensures at.server in members && NoDup(members)
    ensures at in u.writes && Count(u, at.room)(at.server) == u.writes[at].value
    ensures Removal(at, u.now, Known(u, at)) !in Stale(u, at.room, members)
  {
    PunctualServersStay(interval, s, acts, j, t, at);
    RegisteredIsRead(t, at, members);
    RunOfParts(ReportTTL(interval), s, acts, j, t, k, u);
    PunctualServersStay(interval, s, acts, k, u, at);
    RunReaches(ReportTTL(interval), s, acts[..k], u);
    LiveIsCounted(interval, u, at, members);
  }

  lemma RunOfParts(ttl: nat, s: State, acts: seq<Action>, j: nat, t: State, k: nat, u: State)
    requires j <= k <= |acts| && Run(ttl, s, acts[..j], t) && Run(ttl, t, acts[j..k], u)
    ensures Run(ttl, s, acts[..k], u)
  {
    RunSplits(ttl, s, acts[..j], t, acts[j..k], u);
    assert acts[..j] + acts[j..k] == acts[..k];
  }

  lemma RegisteredIsRead(s: State, at: At, members: seq<string>)
    requires at in s.registry && Enabled(s, SMembers(at.room, members))
    ensures at.server in members && NoDup(members)
  {
    assert at.server in MembersOf(s, at.room);
  }

  lemma LiveIsCounted(interval: nat, s: State, at: At, members: seq<string>)
    requires Reachable(ReportTTL(interval), s) && Live(s, at)
    ensures at in s.writes && Count(s, at.room)(at.server) == s.writes[at].value
    ensures Removal(at, s.now, Known(s, at)) !in Stale(s, at.room, members)
  {
    CountedIsLatestWrite(interval, s, at);
    StaleAreNotLive(s, at.room, members);
  }

  lemma RunReaches(ttl: nat, s: State, acts: seq<Action>, t: State)
    requires Reachable(ttl, s) && Run(ttl, s, acts, t)
    ensures Reachable(ttl, t)
  {
    var before :| Run(ttl, Init(), before, s);
    RunSplits(ttl, Init(), before, s, acts, t);
  }

  /** Some on-time run takes the server, still live, out of the registry. */
  ghost predicate CanBeLost(interval: nat, s: State, at: At)
    requires at in s.writes && s.writes[at].time <= s.now
  {
    exists acts, t ::
        OnTime(acts, at, Since(s, at), 2 * interval) && Run(ReportTTL(interval), s, acts, t) && Live(t, at)
                      && at !in t.registry
  }

  /** "A live, reporting server is registered and counted" fails exactly through a removal already on its way: from a
      state where the server is registered and within two intervals of its report, some on-time run loses it if and only
      if an outstanding removal names it. */
  lemma LostIffThreatened(interval: nat, s: State, at: At)
    requires Reachable(ReportTTL(interval), s) && at in s.registry
    requires at in s.writes && s.writes[at].time <= s.now && Since(s, at) <= 2 * interval
    ensures CanBeLost(interval, s, at) <==> !Unthreatened(s, at)
  {
    var ttl := ReportTTL(interval);
    if Unthreatened(s, at) {
      forall acts, t | OnTime(acts, at, Since(s, at), 2 * interval) && Run(ttl, s, acts, t) ensures at in t.registry {
        assert acts[..|acts|] == acts;
        PunctualServersStay(interval, s, acts, |acts|, t, at);
      }
    } else {
      var j :| 0 <= j < |s.removals| && s.removals[j].at == at;
      var t := Next(ttl, s, SRemLands(j));
      var acts := [SRemLands(j)];
      assert acts[1..] == [] && Run(ttl, t, [], t);
      assert Run(ttl, s, acts, t);
      CountedIsLatestWrite(interval, s, at);
      assert OnTime(acts, at, Since(s, at), 2 * interval);
      assert Live(t, at) && at !in t.registry;
    }
  }
}

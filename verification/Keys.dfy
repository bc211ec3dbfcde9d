/** The Redis key templates, over all strings: when two of them can produce the same key. */
module Keys {

  const PREFIX := "room:"
  const PUBSUB := ":pubsub"
  const LIKES := ":likes"
  const ONLINE := ":online:"
  const SERVERS := ":servers"

  function PubSubChannel(room: string): string { PREFIX + room + PUBSUB }
  function LikesKey(room: string): string { PREFIX + room + LIKES }
  function OnlineKey(room: string, server: string): string { PREFIX + room + ONLINE + server }
  function RegistryKey(room: string): string { PREFIX + room + SERVERS }

  /** The keys the servers store values under. */
  datatype Key = Likes(room: string) | Online(room: string, server: string) | Registry(room: string)

  function Render(k: Key): string {
    match k
    case Likes(room) => LikesKey(room)
    case Online(room, server) => OnlineKey(room, server)
    case Registry(room) => RegistryKey(room)
  }

  predicate ColonFree(s: string) {
    ':' !in s
  }

  /** A server id no family's suffix can be mistaken for. */
  predicate GoodServer(server: string) {
    ColonFree(server) && server != "likes" && server != "servers"
  }

  predicate GoodKey(k: Key) {
    k.Online? ==> GoodServer(k.server)
  }

  lemma SameEnds(a: string, b: string, t: string)
    requires a + t == b + t
    ensures a == b
  {
    assert |a| == |b|;
    assert a == (a + t)[..|a|] && b == (b + t)[..|b|];
  }

  lemma SameStarts(t: string, a: string, b: string)
    requires t + a == t + b
    ensures a == b
  {
    assert a == (t + a)[|t|..] && b == (t + b)[|t|..];
  }

  lemma ColonInside(a: string, x: string, b: string, y: string)
    requires |a| < |b| && a + ":" + x == b + ":" + y
    ensures !ColonFree(x)
  {
    assert x[|b| - |a| - 1] == (a + ":" + x)[|b|];
    assert (b + ":" + y)[|b|] == ':';
  }

  /** What follows the last colon is determined: two colon-free tails of the same string are equal. */
  lemma LastColonSplits(a: string, x: string, b: string, y: string)
    requires ColonFree(x) && ColonFree(y) && a + ":" + x == b + ":" + y
    ensures a == b && x == y
  {
    if |a| < |b| { ColonInside(a, x, b, y); }
    if |b| < |a| { ColonInside(b, y, a, x); }
    assert a + ":" + x == a + (":" + x) && b + ":" + y == b + (":" + y);
    SameLengthSplits(a, ":" + x, b, ":" + y);
    SameStarts(":", x, y);
  }

  lemma SameLengthSplits(a: string, x: string, b: string, y: string)
    requires |a| == |b| && (a + x == b + y)
    ensures a == b && x == y
  {
    assert a == (a + x)[..|a|] && b == (b + y)[..|b|];
    SameStarts(a, x, y);
  }

  /** A key as what precedes its last colon and what follows it. */
  function Head(k: Key): string {
    match k
    case Likes(room) => PREFIX + room
    case Online(room, _) => PREFIX + room + ":online"
    case Registry(room) => PREFIX + room
  }

  function Tail(k: Key): string {
    match k
    case Likes(_) => "likes"
    case Online(_, server) => server
    case Registry(_) => "servers"
  }

  lemma RenderSplits(k: Key)
    ensures Render(k) == Head(k) + ":" + Tail(k)
  {
    match k {
      case Likes(room) => assert LIKES == ":" + "likes";
      case Online(room, server) =>
        assert ONLINE == ":online" + ":";
        assert PREFIX + room + ONLINE + server == PREFIX + room + ":online" + ":" + server;
      case Registry(room) => assert SERVERS == ":" + "servers";
    }
  }

  /** Distinct keys are stored apart, even when room names contain ':' or ':online:', as long as server ids have
      no colon and are not "likes" or "servers". */
  lemma KeysAreInjective(k1: Key, k2: Key)
    requires GoodKey(k1) && GoodKey(k2) && Render(k1) == Render(k2)
    ensures k1 == k2
  {
    RenderSplits(k1);
    RenderSplits(k2);
    LastColonSplits(Head(k1), Tail(k1), Head(k2), Tail(k2));
    match k1 {
      case Likes(r1) => SameStarts(PREFIX, r1, k2.room);
      case Registry(r1) => SameStarts(PREFIX, r1, k2.room);
      case Online(r1, _) =>
        SameEnds(PREFIX + r1, PREFIX + k2.room, ":online");
        SameStarts(PREFIX, r1, k2.room);
    }
  }

  /** The condition on colon-free server ids is exact: one of them is kept apart from every other family's keys
      exactly when it is neither "likes" nor "servers". */
  lemma ServerIdsKeptApart(server: string)
    requires ColonFree(server)
    ensures GoodServer(server) <==>
            forall room, k: Key | !k.Online? :: OnlineKey(room, server) != Render(k)
  {
    if GoodServer(server) {
      forall room, k: Key | !k.Online? ensures OnlineKey(room, server) != Render(k) {
        if Render(Online(room, server)) == Render(k) {
          KeysAreInjective(Online(room, server), k);
        }
      }
    } else {
      var room := "a";
      var k := if server == "likes" then Likes("a:online") else Registry("a:online");
      assert OnlineKey(room, server) == "room:a:online:" + server == Render(k);
    }
  }

  /** Server id s reads as the end of some room name, the template's middle, and t. */
  predicate Shadows(s: string, t: string) {
    s == "online:" + t || (|ONLINE + t| <= |s| && s[|s| - |ONLINE + t|..] == ONLINE + t)
  }

  predicate MiddleAt(key: string, p: nat) {
    p + |ONLINE| <= |key| && key[p..p + |ONLINE|] == ONLINE
  }

  /** Where two equal keys have the template's middle. */
  lemma EqualKeysAlign(r1: string, s1: string, r2: string, s2: string)
    requires OnlineKey(r1, s1) == OnlineKey(r2, s2) && |s2| <= |s1|
    ensures |r2| == |r1| + |s1| - |s2| && s1[|s1| - |s2|..] == s2
    ensures MiddleAt(r1 + ONLINE + s1, |r2|)
  {
    assert OnlineKey(r1, s1) == PREFIX + (r1 + ONLINE + s1) && OnlineKey(r2, s2) == PREFIX + (r2 + ONLINE + s2);
    SameStarts(PREFIX, r1 + ONLINE + s1, r2 + ONLINE + s2);
    var key := r1 + ONLINE + s1;
    assert s2 == (r2 + ONLINE + s2)[|key| - |s2|..];
    assert s1[|s1| - |s2|..] == key[|key| - |s2|..];
  }

  /** The middle overlaps itself only by a colon. */
  lemma OverlapIsColon(key: string, p: nat, d: nat)
    requires MiddleAt(key, p) && MiddleAt(key, p + d) && 0 < d < |ONLINE|
    ensures d == 7
  {
    assert key[p..p + |ONLINE|][d] == key[p + d..p + d + |ONLINE|][0];
  }

  /** So the longer id of two equal keys shadows the shorter. */
  lemma LongerShadows(r1: string, s1: string, r2: string, s2: string)
    requires OnlineKey(r1, s1) == OnlineKey(r2, s2) && |s2| < |s1|
    ensures Shadows(s1, s2)
  {
    EqualKeysAlign(r1, s1, r2, s2);
    var key, d := r1 + ONLINE + s1, |s1| - |s2|;
    assert MiddleAt(key, |r1|);
    assert s1 == key[|r1| + |ONLINE|..] && s1 == s1[..d] + s2;
    if d < |ONLINE| {
      OverlapIsColon(key, |r1|, d);
      assert s1[..d] == key[|r2|..|r2| + |ONLINE|][1..];
    } else {
      var e := d - |ONLINE|;
      assert s1[e..d] == key[|r2|..|r2| + |ONLINE|];
      assert s1[e..] == s1[e..d] + s1[d..];
    }
  }

  lemma ShadowsCollide(s: string, t: string) returns (r1: string, r2: string)
    requires Shadows(s, t)
    ensures r1 != r2 && OnlineKey(r1, s) == OnlineKey(r2, t)
  {
    r1 := "";
    if s == "online:" + t {
      r2 := ":online";
      assert ONLINE + "online:" == ":online" + ONLINE;
      assert ONLINE + ("online:" + t) == (ONLINE + "online:") + t;
      assert PREFIX + "" + ONLINE + s == PREFIX + (ONLINE + s)
             && PREFIX + r2 + ONLINE + t == PREFIX + (r2 + ONLINE + t);
    } else {
      var w := s[..|s| - |ONLINE + t|];
      r2 := ONLINE + w;
      assert s == w + (ONLINE + t);
      assert ONLINE + (w + (ONLINE + t)) == ONLINE + w + ONLINE + t;
      assert PREFIX + "" + ONLINE + s == PREFIX + (ONLINE + s)
             && PREFIX + r2 + ONLINE + t == PREFIX + (r2 + ONLINE + t);
    }
  }

  /** For any two server ids, colons or not: some rooms make them share a key, or one id with itself in two rooms, if
      and only if one id shadows the other. */
  lemma OnlineKeysCollideIff(s1: string, s2: string)
    ensures (exists r1, r2 :: (r1 != r2 || s1 != s2) && OnlineKey(r1, s1) == OnlineKey(r2, s2))
            <==> Shadows(s1, s2) || Shadows(s2, s1)
  {
    if r1, r2 :| (r1 != r2 || s1 != s2) && OnlineKey(r1, s1) == OnlineKey(r2, s2) {
      if |s1| == |s2| {
        EqualKeysAlign(r1, s1, r2, s2);
        SameLengthSplits(PREFIX + r1, ONLINE + s1, PREFIX + r2, ONLINE + s2) by {
          assert OnlineKey(r1, s1) == PREFIX + r1 + (ONLINE + s1) && OnlineKey(r2, s2) == PREFIX + r2 + (ONLINE + s2);
        }
        SameStarts(PREFIX, r1, r2);
        assert false;
      } else if |s2| < |s1| {
        LongerShadows(r1, s1, r2, s2);
      } else {
        LongerShadows(r2, s2, r1, s1);
      }
    }
    if Shadows(s1, s2) {
      var r1, r2 := ShadowsCollide(s1, s2);
    }
    if Shadows(s2, s1) {
      var r2, r1 := ShadowsCollide(s2, s1);
    }
  }

  /** Distinct rooms publish on distinct channels. */
  lemma ChannelsAreInjective(r1: string, r2: string)
    requires PubSubChannel(r1) == PubSubChannel(r2)
    ensures r1 == r2
  {
    SameEnds(PREFIX + r1, PREFIX + r2, PUBSUB);
    SameStarts(PREFIX, r1, r2);
  }
}

/** The action handlers, the read pump, the manager's Broadcast case and the likes half of a stats tick, as the program
    runs them. */
module Router {
  import opened Wire
  import opened Machine
  import opened Seqs
  import Keys
  import Likes
  import Hub

  /** What was published: the channel and the payload. */
  datatype Published = Published(channel: string, payload: string)

  class Server {
    var broadcast: seq<WsPacket>  // the Broadcast channel
    var kafka: seq<string>  // the producer's input
    var published: seq<Published>  // Redis publish attempts
    var local: seq<WsPacket>  // stats packets handed to local fan-out
    var localLikes: map<string, nat>

    constructor ()
      ensures broadcast == [] && kafka == [] && published == [] && local == [] && localLikes == map[]
    {
      broadcast, kafka, published, local, localLikes := [], [], [], [], map[];
    }

    /** The danmaku handler: undecodable data is ignored; otherwise one packet with the client's own room and id joins
        the end of the channel, whatever the data claimed. */
    method HandleDanmaku(codec: Codec, roomId: string, userId: nat, data: string, now: int)
      requires |broadcast| < Hub.BROADCAST_CHAN_SIZE
      modifies this`broadcast
      ensures match Enrich(codec, roomId, userId, data, now)
              case None => broadcast == old(broadcast)
              case Some(packet) => broadcast == old(broadcast) + [packet] && |broadcast| <= Hub.BROADCAST_CHAN_SIZE
    {
      var input := codec.undanmaku(data);
      if input.None? {
        return;
      }
      var full := Danmaku(0, roomId, userId, input.value.content, now);
      broadcast := broadcast + [WsPacket(TYPE_DANMAKU, roomId, codec.danmaku(full))];
    }

    /** The like handler: the room's local total grows by the counted likes, modulo 2^64. */
    method HandleLike(roomId: string, decoded: Option<nat>)
      modifies this`localLikes
      ensures localLikes == Likes.AddLike(old(localLikes), roomId, Likes.Counted(decoded))
    {
      var count := if decoded.None? || decoded.value == 0 then 1 else decoded.value;
      var before := if roomId in localLikes then localLikes[roomId] else 0;
      localLikes := localLikes[roomId := Plus64(before, count)];
    }

    /** The swap at the start of a stats tick. */
    method SwapLikes() returns (batch: map<string, nat>)
      modifies this`localLikes
      ensures batch == old(localLikes) && localLikes == map[]
    {
      batch := localLikes;
      localLikes := map[];
    }

    ghost function Left(): Outflow
      reads this
    {
      Outflow(kafka, published, local)
    }

    /** What has left the server once the loop has taken what still waits. */
    ghost function Bound(codec: Codec): Outflow
      reads this
    {
      Plus(codec, Left(), broadcast)
    }

    /** handleBroadcast: danmaku go to Kafka and then to the room's channel, stats to local fan-out, the rest nowhere.
        */
    method HandleBroadcast(codec: Codec, packet: WsPacket)
      modifies this`kafka, this`published, this`local
      ensures Left() == Plus(codec, old(Left()), [packet])
    {
      var payload := codec.packet(packet);
      if packet.kind == TYPE_DANMAKU {
        kafka := kafka + [payload];
        published := published + [Published(Keys.PubSubChannel(packet.roomId), payload)];
      } else if packet.kind == TYPE_STATS {
        local := local + [packet];
      }
      PlusPacket(codec, old(Left()), packet);
    }

    /** The manager loop over everything the channel holds: Kafka gets the danmaku in channel order, and so does each
        room's channel. */
    method DrainBroadcast(codec: Codec)
      modifies this`broadcast, this`kafka, this`published, this`local
      ensures broadcast == []
      ensures Left() == Plus(codec, old(Left()), old(broadcast))
    {
      ghost var all := broadcast;
      ghost var n := 0;
      PlusNone(codec, Left());
      while broadcast != []
        invariant 0 <= n <= |all| && broadcast == all[n..]
        invariant Left() == Plus(codec, old(Left()), all[..n])
        decreases |broadcast|
      {
        var packet := broadcast[0];
        broadcast := broadcast[1..];
        HandleBroadcast(codec, packet);
        PlusOne(codec, old(Left()), all[..n], [packet]);
        assert all[..n + 1] == all[..n] + [packet];
        n := n + 1;
      }
      assert all[..n] == all;
    }

    /** One turn of ReadPump: parse the envelope and dispatch on its type; an unparsable message or an unknown type does
        nothing.  A full channel makes the handler wait until the manager loop has taken what it holds. */
    method HandleMessage(codec: Codec, unlike: string -> Option<nat>, roomId: string, userId: nat, message: string,
                         now: int)
      requires |broadcast| <= Hub.BROADCAST_CHAN_SIZE
      modifies this
      ensures |broadcast| <= Hub.BROADCAST_CHAN_SIZE
      ensures Bound(codec) == Plus(codec, old(Bound(codec)), SaidIn(codec, roomId, userId, message, now))
      ensures if IsDanmaku(codec, message)
              then var payload := Spoken(codec, roomId, userId, message, now);
                   Bound(codec) == Outflow(
                     old(Bound(codec)).kafka + [payload],
                     old(Bound(codec)).published + [Published(Keys.PubSubChannel(roomId), payload)],
                     old(Bound(codec)).local)
              else Bound(codec) == old(Bound(codec))
      ensures var likes := LikesOf(codec, unlike, message);
              localLikes == if likes == 0 then old(localLikes) else Likes.AddLike(old(localLikes), roomId, likes)
      ensures if IsLike(codec, message)
              then localLikes == old(localLikes)[roomId :=
                     (Likes.Get(old(localLikes), roomId) + Declared(codec, unlike, message)
                      + Undeclared(codec, unlike, message)) % TWO_64]
              else localLikes == old(localLikes)
    {
      PlusNone(codec, Bound(codec));
      var packet := codec.unpacket(message);
      if packet.None? {
        return;
      }
      if packet.value.kind == TYPE_DANMAKU {
        if |broadcast| == Hub.BROADCAST_CHAN_SIZE {
          DrainBroadcast(codec);
          PlusNone(codec, Left());
        }
        PlusOne(codec, Left(), broadcast, SaidIn(codec, roomId, userId, message, now));
        SaidInIs(codec, old(Bound(codec)), roomId, userId, message, now);
        HandleDanmaku(codec, roomId, userId, packet.value.data, now);
      } else if packet.value.kind == ACTION_LIKE {
        HandleLike(roomId, unlike(packet.value.data));
      }
    }

    /** ReadPump over the messages of one connection: what is bound to leave the server grows by exactly the client's
        danmaku, in the order they were read and under the client's own room and id; its room's local likes grow by its
        likes. */
    method ReadPump(codec: Codec, unlike: string -> Option<nat>, roomId: string, userId: nat, messages: seq<string>,
                    clock: nat -> int)
      requires |broadcast| <= Hub.BROADCAST_CHAN_SIZE
      modifies this
      ensures |broadcast| <= Hub.BROADCAST_CHAN_SIZE
      ensures Bound(codec) == Plus(codec, old(Bound(codec)), Says(codec, roomId, userId, messages, clock))
      ensures Faithful(codec) && codec.utf8(roomId) ==>
                exists at :: LeavesAs(codec, old(Bound(codec)), Bound(codec), roomId, userId, messages, clock, at)
      ensures LikesGrew(old(localLikes), localLikes, roomId, LikesIn(codec, unlike, messages))
      ensures LikesGrew(old(localLikes), localLikes, roomId, LikesStated(codec, unlike, messages))
    {
      ghost var likes, bound := localLikes, Bound(codec);
      PlusNone(codec, bound);
      for i := 0 to |messages|
        invariant |broadcast| <= Hub.BROADCAST_CHAN_SIZE
        invariant Bound(codec) == Plus(codec, bound, Says(codec, roomId, userId, messages[..i], clock))
        invariant LikesGrew(likes, localLikes, roomId, LikesIn(codec, unlike, messages[..i]))
      {
        NextSaid(codec, bound, roomId, userId, messages, clock, i);
        NextLikes(codec, unlike, likes, localLikes, roomId, messages, i);
        HandleMessage(codec, unlike, roomId, userId, messages[i], clock(i));
      }
      assert messages[..|messages|] == messages;
      PumpMeans(codec, unlike, bound, roomId, userId, messages, clock);
    }
  }

  // ---- one connection ----

  /** The packet a message of the connection puts on the channel, if any. */
  function SaidIn(codec: Codec, roomId: string, userId: nat, message: string, now: int): seq<WsPacket> {
    match codec.unpacket(message)
    case None => []
    case Some(packet) =>
      if packet.kind != TYPE_DANMAKU then []
      else match Enrich(codec, roomId, userId, packet.data, now)
           case None => []
           case Some(said) => [said]
  }

  function Says(codec: Codec, roomId: string, userId: nat, messages: seq<string>, clock: nat -> int): seq<WsPacket> {
    if messages == [] then []
    else
      var last := |messages| - 1;
      Says(codec, roomId, userId, messages[..last], clock) + SaidIn(codec, roomId, userId, messages[last], clock(last))
  }

  /** The likes of a message: one for a like that does not decode or says zero. */
  function LikesOf(codec: Codec, unlike: string -> Option<nat>, message: string): nat {
    match codec.unpacket(message)
    case None => 0
    case Some(packet) => if packet.kind == ACTION_LIKE then Likes.Counted(unlike(packet.data)) else 0
  }

  function LikesIn(codec: Codec, unlike: string -> Option<nat>, messages: seq<string>): nat {
    if messages == [] then 0
    else LikesIn(codec, unlike, messages[..|messages| - 1]) + LikesOf(codec, unlike, messages[|messages| - 1])
  }

  /** The envelope decodes with the danmaku type and its data decodes; what room it names does not matter. */
  predicate IsDanmaku(codec: Codec, message: string) {
    && codec.unpacket(message).Some? && codec.unpacket(message).value.kind == TYPE_DANMAKU
    && codec.undanmaku(codec.unpacket(message).value.data).Some?
  }

  function ContentOf(codec: Codec, message: string): string
    requires IsDanmaku(codec, message)
  {
    codec.undanmaku(codec.unpacket(message).value.data).value.content
  }

  /** The payload a danmaku leaves as. */
  function Spoken(codec: Codec, roomId: string, userId: nat, message: string, now: int): string
    requires IsDanmaku(codec, message)
  {
    var full := Danmaku(0, roomId, userId, ContentOf(codec, message), now);
    codec.packet(WsPacket(TYPE_DANMAKU, roomId, codec.danmaku(full)))
  }

  predicate IsLike(codec: Codec, message: string) {
    codec.unpacket(message).Some? && codec.unpacket(message).value.kind == ACTION_LIKE
  }

  /** The likes a message states, and the one it counts for when it is a like that states none. */
  function Declared(codec: Codec, unlike: string -> Option<nat>, message: string): nat {
    if IsLike(codec, message) && unlike(codec.unpacket(message).value.data).Some?
    then unlike(codec.unpacket(message).value.data).value
    else 0
  }

  function Undeclared(codec: Codec, unlike: string -> Option<nat>, message: string): nat {
    if IsLike(codec, message) && Declared(codec, unlike, message) == 0 then 1 else 0
  }

  function LikesStated(codec: Codec, unlike: string -> Option<nat>, messages: seq<string>): nat {
    Sum(messages, m => Declared(codec, unlike, m)) + Sum(messages, m => Undeclared(codec, unlike, m))
  }

  lemma {:induction false} LikesAreDeclaredOrOne(codec: Codec, unlike: string -> Option<nat>, messages: seq<string>)
    ensures LikesIn(codec, unlike, messages) == LikesStated(codec, unlike, messages)
  {
    if messages != [] {
      var front, last := messages[..|messages| - 1], messages[|messages| - 1];
      LikesAreDeclaredOrOne(codec, unlike, front);
      SumSnoc(front, last, m => Declared(codec, unlike, m));
      SumSnoc(front, last, m => Undeclared(codec, unlike, m));
      assert front + [last] == messages;
    }
  }

  /** What the packet of one message does to what is bound to leave. */
  lemma SaidInIs(codec: Codec, o: Outflow, roomId: string, userId: nat, message: string, now: int)
    ensures IsDanmaku(codec, message) ==>
              var payload := Spoken(codec, roomId, userId, message, now);
              Plus(codec, o, SaidIn(codec, roomId, userId, message, now))
              == Outflow(o.kafka + [payload], o.published + [Published(Keys.PubSubChannel(roomId), payload)], o.local)
    ensures !IsDanmaku(codec, message) ==> Plus(codec, o, SaidIn(codec, roomId, userId, message, now)) == o
  {
    PlusNone(codec, o);
    if IsDanmaku(codec, message) {
      PlusPacket(codec, o, SaidIn(codec, roomId, userId, message, now)[0]);
    }
  }

  /** `at` lists, in order, the messages whose envelope decodes with the danmaku type and whose data decodes. */
  predicate Danmakus(codec: Codec, messages: seq<string>, at: seq<nat>) {
    && (forall k | 0 <= k < |at| :: at[k] < |messages| && IsDanmaku(codec, messages[at[k]]))
    && (forall j, k | 0 <= j < k < |at| :: at[j] < at[k])
    && (forall i | 0 <= i < |messages| && IsDanmaku(codec, messages[i]) :: i in at)
  }

  /** The payload parses to what the message said, under the client's own room and id, and the publication carries it
      to the client's own room. */
  predicate LeftAs(codec: Codec, roomId: string, userId: nat, message: string, now: int, payload: string,
                   publication: Published)
    requires IsDanmaku(codec, message)
  {
    && ParseMessage(codec, payload) == Message(Danmaku(0, roomId, userId, ContentOf(codec, message), now))
    && publication == Published(Keys.PubSubChannel(roomId), payload)
  }

  /** One payload for each danmaku of the connection, in the order and at the time they were read, to Kafka and to the
      room's channel; and nothing else. */
  ghost predicate LeavesAs(codec: Codec, before: Outflow, after: Outflow, roomId: string, userId: nat,
                           messages: seq<string>, clock: nat -> int, at: seq<nat>) {
    && Danmakus(codec, messages, at)
    && after.local == before.local
    && before.kafka <= after.kafka && |after.kafka| == |before.kafka| + |at|
    && before.published <= after.published && |after.published| == |before.published| + |at|
    && forall k | 0 <= k < |at| ::
         LeftAs(codec, roomId, userId, messages[at[k]], clock(at[k]), after.kafka[|before.kafka| + k],
                after.published[|before.published| + k])
  }

  lemma SpokenParses(codec: Codec, roomId: string, userId: nat, message: string, now: int)
    requires Faithful(codec) && codec.utf8(roomId) && IsDanmaku(codec, message)
    ensures ParseMessage(codec, Spoken(codec, roomId, userId, message, now))
         == Message(Danmaku(0, roomId, userId, ContentOf(codec, message), now))
  {
    ServerMessagesParseBack(codec, roomId, userId, codec.unpacket(message).value.data, now);
  }

  lemma DanmakusSnoc(codec: Codec, messages: seq<string>, at: seq<nat>, message: string)
    requires Danmakus(codec, messages, at)
    ensures Danmakus(codec, messages + [message], if IsDanmaku(codec, message) then at + [|messages|] else at)
  {
    var all, at' := messages + [message], if IsDanmaku(codec, message) then at + [|messages|] else at;
    assert forall i | 0 <= i < |messages| :: all[i] == messages[i];
    forall i | 0 <= i < |all| && IsDanmaku(codec, all[i]) ensures i in at' {
      assert i < |messages| ==> i in at;
      assert i == |messages| ==> i == at'[|at|];
    }
  }

  lemma NothingMoreLeaves(codec: Codec, o: Outflow, mid: Outflow, roomId: string, userId: nat, messages: seq<string>,
                          clock: nat -> int, at: seq<nat>, message: string)
    requires LeavesAs(codec, o, mid, roomId, userId, messages, clock, at) && !IsDanmaku(codec, message)
    ensures LeavesAs(codec, o, mid, roomId, userId, messages + [message], clock, at)
  {
    DanmakusSnoc(codec, messages, at, message);
    var all := messages + [message];
    assert forall k | 0 <= k < |at| :: all[at[k]] == messages[at[k]];
  }

  lemma OneMoreLeaves(codec: Codec, o: Outflow, mid: Outflow, after: Outflow, roomId: string, userId: nat,
                      messages: seq<string>, clock: nat -> int, at: seq<nat>, message: string, payload: string)
    requires LeavesAs(codec, o, mid, roomId, userId, messages, clock, at) && IsDanmaku(codec, message)
    requires after == Outflow(mid.kafka + [payload], mid.published + [Published(Keys.PubSubChannel(roomId), payload)],
                              mid.local)
    requires ParseMessage(codec, payload)
          == Message(Danmaku(0, roomId, userId, ContentOf(codec, message), clock(|messages|)))
    ensures LeavesAs(codec, o, after, roomId, userId, messages + [message], clock, at + [|messages|])
  {
    DanmakusSnoc(codec, messages, at, message);
    var all, at' := messages + [message], at + [|messages|];
    forall k | 0 <= k < |at'|
      ensures LeftAs(codec, roomId, userId, all[at'[k]], clock(at'[k]), after.kafka[|o.kafka| + k],
                     after.published[|o.published| + k]) {
      if k < |at| {
        assert after.kafka[|o.kafka| + k] == mid.kafka[|o.kafka| + k];
        assert after.published[|o.published| + k] == mid.published[|o.published| + k];
        assert all[at'[k]] == messages[at[k]];
      }
    }
  }

  /** Every danmaku a client sends leaves the server once and as it was said, and nothing else it sends does. */
  lemma {:induction false} EveryDanmakuLeaves(
    codec: Codec, o: Outflow, roomId: string, userId: nat, messages: seq<string>, clock: nat -> int)
    returns (at: seq<nat>)
    requires Faithful(codec) && codec.utf8(roomId)
    ensures LeavesAs(codec, o, Plus(codec, o, Says(codec, roomId, userId, messages, clock)), roomId, userId, messages,
                     clock, at)
  {
    PlusNone(codec, o);
    at := [];
    if messages != [] {
      var last := |messages| - 1;
      var front := messages[..last];
      at := EveryDanmakuLeaves(codec, o, roomId, userId, front, clock);
      var mid := Plus(codec, o, Says(codec, roomId, userId, front, clock));
      assert messages[..last + 1] == messages && front + [messages[last]] == messages;
      NextSaid(codec, o, roomId, userId, messages, clock, last);
      SaidInIs(codec, mid, roomId, userId, messages[last], clock(last));
      if IsDanmaku(codec, messages[last]) {
        SpokenParses(codec, roomId, userId, messages[last], clock(last));
        OneMoreLeaves(codec, o, mid, Plus(codec, o, Says(codec, roomId, userId, messages, clock)), roomId, userId,
                      front, clock, at, messages[last], Spoken(codec, roomId, userId, messages[last], clock(last)));
        at := at + [last];
      } else {
        NothingMoreLeaves(codec, o, mid, roomId, userId, front, clock, at, messages[last]);
      }
    }
  }

  /** What the messages of a connection come to. */
  lemma PumpMeans(codec: Codec, unlike: string -> Option<nat>, o: Outflow, roomId: string, userId: nat,
                  messages: seq<string>, clock: nat -> int)
    ensures Faithful(codec) && codec.utf8(roomId) ==>
              exists at :: LeavesAs(codec, o, Plus(codec, o, Says(codec, roomId, userId, messages, clock)), roomId,
                                    userId, messages, clock, at)
    ensures LikesIn(codec, unlike, messages) == LikesStated(codec, unlike, messages)
  {
    LikesAreDeclaredOrOne(codec, unlike, messages);
    if Faithful(codec) && codec.utf8(roomId) {
      var at := EveryDanmakuLeaves(codec, o, roomId, userId, messages, clock);
    }
  }

  /** What one more message adds to what is bound to leave. */
  lemma NextSaid(codec: Codec, o: Outflow, roomId: string, userId: nat, messages: seq<string>, clock: nat -> int,
                 i: nat)
    requires i < |messages|
    ensures Plus(codec, Plus(codec, o, Says(codec, roomId, userId, messages[..i], clock)),
                 SaidIn(codec, roomId, userId, messages[i], clock(i)))
            == Plus(codec, o, Says(codec, roomId, userId, messages[..i + 1], clock))
  {
    assert messages[..i + 1][..i] == messages[..i];
    PlusOne(codec, o, Says(codec, roomId, userId, messages[..i], clock),
            SaidIn(codec, roomId, userId, messages[i], clock(i)));
  }

  /** What one more message adds to the likes. */
  lemma NextLikes(codec: Codec, unlike: string -> Option<nat>, before: map<string, nat>, after: map<string, nat>,
                  roomId: string,
                  messages: seq<string>, i: nat)
    requires i < |messages| && LikesGrew(before, after, roomId, LikesIn(codec, unlike, messages[..i]))
    ensures var likes := LikesOf(codec, unlike, messages[i]);
            LikesGrew(before, if likes == 0 then after else Likes.AddLike(after, roomId, likes), roomId,
                      LikesIn(codec, unlike, messages[..i + 1]))
  {
    assert messages[..i + 1][..i] == messages[..i];
    LikesAdd(before, after, roomId, LikesIn(codec, unlike, messages[..i]), LikesOf(codec, unlike, messages[i]));
  }

  /** The room's local total grew by n modulo 2^64, and no other room's. */
  ghost predicate LikesGrew(before: map<string, nat>, after: map<string, nat>, roomId: string, n: nat) {
    forall room :: Likes.Get(after, room) % TWO_64
                   == (Likes.Get(before, room) + if room == roomId then n else 0) % TWO_64
  }

  lemma LikesAdd(before: map<string, nat>, after: map<string, nat>, roomId: string, n: nat, more: nat)
    requires LikesGrew(before, after, roomId, n)
    ensures LikesGrew(before, Likes.AddLike(after, roomId, more), roomId, n + more)
    ensures more == 0 ==> LikesGrew(before, after, roomId, n + more)
  {
    var after' := Likes.AddLike(after, roomId, more);
    AddModulo(Likes.Get(after, roomId), Likes.Get(before, roomId) + n, more);
    forall room ensures Likes.Get(after', room) % TWO_64
                        == (Likes.Get(before, room) + if room == roomId then n + more else 0) % TWO_64 {
      if room != roomId {
        assert Likes.Get(after', room) == Likes.Get(after, room);
      }
    }
  }

  /** Whatever a client sends, what goes out is danmaku of its own room that parse back with its own user id. */
  lemma {:induction false} NobodySpeaksForAnother(codec: Codec, roomId: string, userId: nat, messages: seq<string>,
                                                  clock: nat -> int)
    requires Faithful(codec) && codec.utf8(roomId)
    ensures forall packet | packet in Says(codec, roomId, userId, messages, clock) ::
              && packet.kind == TYPE_DANMAKU && packet.roomId == roomId
              && var parsed := ParseMessage(codec, codec.packet(packet));
                 parsed.Message? && parsed.body.roomId == roomId && parsed.body.userId == userId
  {
    if messages != [] {
      var last := |messages| - 1;
      NobodySpeaksForAnother(codec, roomId, userId, messages[..last], clock);
      var packet := codec.unpacket(messages[last]);
      if packet.Some? && Enrich(codec, roomId, userId, packet.value.data, clock(last)).Some? {
        ServerMessagesParseBack(codec, roomId, userId, packet.value.data, clock(last));
      }
    }
  }

  // ---- what leaves the server ----

  /** The stats packets, which go to local fan-out. */
  function Kept(packets: seq<WsPacket>): seq<WsPacket> {
    if packets == [] then []
    else
      var last := packets[|packets| - 1];
      Kept(packets[..|packets| - 1]) + if last.kind == TYPE_STATS then [last] else []
  }

  /** The payloads of the danmaku among the packets, in order. */
  function Pushes(codec: Codec, packets: seq<WsPacket>): seq<string> {
    if packets == [] then []
    else
      var last := packets[|packets| - 1];
      Pushes(codec, packets[..|packets| - 1]) + if last.kind == TYPE_DANMAKU then [codec.packet(last)] else []
  }

  function Publishes(codec: Codec, packets: seq<WsPacket>): seq<Published> {
    if packets == [] then []
    else
      var last := packets[|packets| - 1];
      Publishes(codec, packets[..|packets| - 1])
      + if last.kind == TYPE_DANMAKU then [Published(Keys.PubSubChannel(last.roomId), codec.packet(last))] else []
  }

  lemma HandledSnoc(codec: Codec, packets: seq<WsPacket>, p: WsPacket)
    ensures Pushes(codec, packets + [p]) == Pushes(codec, packets) + Pushes(codec, [p])
    ensures Publishes(codec, packets + [p]) == Publishes(codec, packets) + Publishes(codec, [p])
    ensures Kept(packets + [p]) == Kept(packets) + Kept([p])
  {
    assert (packets + [p])[..|packets|] == packets;
    assert [p][..0] == [];
  }

  /** What has left a server. */
  datatype Outflow = Outflow(kafka: seq<string>, published: seq<Published>, local: seq<WsPacket>)

  /** The same after these packets. */
  function Plus(codec: Codec, o: Outflow, packets: seq<WsPacket>): Outflow {
    Outflow(o.kafka + Pushes(codec, packets), o.published + Publishes(codec, packets), o.local + Kept(packets))
  }

  lemma PlusNone(codec: Codec, o: Outflow)
    ensures Plus(codec, o, []) == o
  {
  }

  lemma PlusPacket(codec: Codec, o: Outflow, p: WsPacket)
    ensures Plus(codec, o, [p]) ==
            if p.kind == TYPE_DANMAKU
            then o.(kafka := o.kafka + [codec.packet(p)],
                    published := o.published + [Published(Keys.PubSubChannel(p.roomId), codec.packet(p))])
            else if p.kind == TYPE_STATS then o.(local := o.local + [p])
            else o
  {
    assert [p][..0] == [];
    PlusNone(codec, o);
  }

  lemma PlusOne(codec: Codec, o: Outflow, packets: seq<WsPacket>, more: seq<WsPacket>)
    requires |more| <= 1
    ensures Plus(codec, Plus(codec, o, packets), more) == Plus(codec, o, packets + more)
  {
    if more == [] {
      assert packets + more == packets;
      PlusNone(codec, Plus(codec, o, packets));
    } else {
      assert more == [more[0]];
      HandledSnoc(codec, packets, more[0]);
    }
  }

  /** The publications on one channel. */
  function OnChannel(published: seq<Published>, channel: string): seq<string> {
    if published == [] then []
    else
      var last := published[|published| - 1];
      OnChannel(published[..|published| - 1], channel) + if last.channel == channel then [last.payload] else []
  }

  /** The packets of one room. */
  function OfRoom(packets: seq<WsPacket>, roomId: string): seq<WsPacket> {
    if packets == [] then []
    else
      var last := packets[|packets| - 1];
      OfRoom(packets[..|packets| - 1], roomId) + if last.roomId == roomId then [last] else []
  }

  /** Each room's publish attempts are the projection of what went to Kafka to that room: no other room's payload, the
      same order, none missing. */
  lemma {:induction false} RoomPublishesAreProjection(codec: Codec, packets: seq<WsPacket>, roomId: string)
    ensures OnChannel(Publishes(codec, packets), Keys.PubSubChannel(roomId)) == Pushes(codec, OfRoom(packets, roomId))
  {
    if packets != [] {
      var front, last := packets[..|packets| - 1], packets[|packets| - 1];
      RoomPublishesAreProjection(codec, front, roomId);
      OnChannelSnoc(Publishes(codec, front), Published(Keys.PubSubChannel(last.roomId), codec.packet(last)),
                    Keys.PubSubChannel(roomId));
      assert Publishes(codec, front) + [] == Publishes(codec, front)
             && OfRoom(front, roomId) + [] == OfRoom(front, roomId);
      if Keys.PubSubChannel(last.roomId) == Keys.PubSubChannel(roomId) {
        Keys.ChannelsAreInjective(last.roomId, roomId);
        HandledSnoc(codec, OfRoom(front, roomId), last);
        assert [last][..0] == [];
      }
    }
  }

  lemma OnChannelSnoc(published: seq<Published>, x: Published, channel: string)
    ensures OnChannel(published + [x], channel) == OnChannel(published, channel) + if x.channel == channel
            then [x.payload] else []
  {
    assert (published + [x])[..|published|] == published;
  }

  // ---- the likes half of a stats tick ----

  /** The increments a tick starts, room by room. */
  function Increments(batch: map<string, nat>, rooms: seq<string>): seq<Likes.Incr> {
    if rooms == [] then []
    else
      var last := rooms[|rooms| - 1];
      Increments(batch, rooms[..|rooms| - 1]) + if Likes.Get(batch, last) > 0 then [Likes.Incr(last, batch[last])]
        else []
  }

  /** The loop over the room snapshot: one increment for every room with likes in the batch. */
  method StartIncrements(batch: map<string, nat>, rooms: seq<string>) returns (started: seq<Likes.Incr>)
    ensures started == Increments(batch, rooms)
  {
    started := [];
    for i := 0 to |rooms|
      invariant started == Increments(batch, rooms[..i])
    {
      var room := rooms[i];
      assert rooms[..i + 1][..i] == rooms[..i];
      if room in batch && batch[room] > 0 {
        started := started + [Likes.Incr(room, batch[room])];
      }
    }
    assert rooms[..|rooms|] == rooms;
  }

  function Visits(t: nat, n: nat): seq<Likes.Action> {
    seq(n, _ => Likes.Visit(t))
  }

  /** A tick mid-way through its rooms. */
  ghost predicate Midway(s: Likes.State, t: nat, batch: map<string, nat>, rooms: seq<string>, i: nat) {
    && t < |s.ticks| && i <= |rooms|
    && s.ticks[t].rooms == Some(rooms) && s.ticks[t].next == i
    && forall k | i <= k < |rooms| :: Likes.Get(s.ticks[t].batch, rooms[k]) == Likes.Get(batch, rooms[k])
  }

  /** The loop starts what the step relation's visits of the remaining rooms put in flight. */
  lemma {:induction false} LoopIsVisits(s: Likes.State, t: nat, batch: map<string, nat>, rooms: seq<string>, i: nat,
                                        before: seq<Likes.Incr>)
    returns (u: Likes.State)
    requires Midway(s, t, batch, rooms, i) && s.flying == before + Increments(batch, rooms[..i])
    requires forall j, k | 0 <= j < k < |rooms| :: rooms[j] != rooms[k]
    ensures Likes.Run(s, Visits(t, |rooms| - i), u)
    ensures u.flying == before + Increments(batch, rooms)
    ensures Midway(u, t, batch, rooms, |rooms|)
    decreases |rooms| - i
  {
    if i == |rooms| {
      u := s;
      assert rooms[..i] == rooms;
    } else {
      var s' := VisitStep(s, t, batch, rooms, i, before);
      u := LoopIsVisits(s', t, batch, rooms, i + 1, before);
      assert Visits(t, |rooms| - i)[1..] == Visits(t, |rooms| - i - 1);
    }
  }

  lemma VisitStep(s: Likes.State, t: nat, batch: map<string, nat>, rooms: seq<string>, i: nat, before: seq<Likes.Incr>)
    returns (s': Likes.State)
    requires Midway(s, t, batch, rooms, i) && i < |rooms| && s.flying == before + Increments(batch, rooms[..i])
    requires forall j, k | 0 <= j < k < |rooms| :: rooms[j] != rooms[k]
    ensures Likes.Enabled(s, Likes.Visit(t)) && s' == Likes.Next(s, Likes.Visit(t))
    ensures Midway(s', t, batch, rooms, i + 1) && s'.flying == before + Increments(batch, rooms[..i + 1])
  {
    s' := Likes.VisitRoom(s, t);
    assert rooms[..i + 1][..i] == rooms[..i];
    assert Likes.Get(s.ticks[t].batch, rooms[i]) == Likes.Get(batch, rooms[i]);
  }
}

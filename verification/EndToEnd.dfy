/** From a client's word to the table: what the consumer inserts of the records that servers pushed. */
module EndToEnd {
  import opened Wire
  import opened ConsumerSession
  import opened ConsumerLedger
  import ConsumerShutdown
  import Hub
  import HubSystem
  import HubTheorems

  // ---- rows come from records ----

  /** The item is what the consumer makes of one of these claims' records. */
  predicate IsRecord(cfg: Config, claims: seq<Claim>, x: Item) {
    && x.partition < |claims| && x.offset < |claims[x.partition].messages|
    && x == ItemOf(cfg, x.partition, claims[x.partition].messages, x.offset)
    && !ParseMessage(cfg.codec, claims[x.partition].messages[x.offset]).Failed?
  }

  /** Everything enqueued came from the first session's records. */
  ghost predicate FromRecords(cfg: Config, claims: seq<Claim>, s: State) {
    && (s.session == 1 ==>
          |s.claims| == |claims| && forall p | 0 <= p < |claims| :: s.claims[p].messages == claims[p].messages)
    && forall x | x in s.enqueued :: IsRecord(cfg, claims, x)
  }

  lemma MessagesStay(cfg: Config, s: State, a: Action)
    requires Enabled(s, a) && !a.NextSession?
    ensures |Next(cfg, s, a).claims| == |s.claims|
    ensures forall p | 0 <= p < |s.claims| :: Next(cfg, s, a).claims[p].messages == s.claims[p].messages
    ensures Next(cfg, s, a).session == s.session
  {
  }

  lemma StepFromRecords(cfg: Config, claims: seq<Claim>, s: State, a: Action)
    requires Inv(cfg, s) && FromRecords(cfg, claims, s) && Enabled(s, a)
    ensures FromRecords(cfg, claims, Next(cfg, s, a))
  {
    if a.ClaimSend? {
      MessagesStay(cfg, s, a);
      if !s.closed {
        assert ClaimOk(cfg, a.p, s.claims[a.p], s.enqueued);
        assert IsRecord(cfg, claims, s.claims[a.p].phase.item);
      }
    } else {
      EnqueuedStays(cfg, s, a);
      if !a.NextSession? {
        MessagesStay(cfg, s, a);
      }
    }
  }

  lemma EnqueuedStays(cfg: Config, s: State, a: Action)
    requires Enabled(s, a) && !a.ClaimSend?
    ensures Next(cfg, s, a).enqueued == s.enqueued
    ensures a.NextSession? ==> Next(cfg, s, a).session == s.session + 1
  {
  }

  lemma {:induction false} RunFromRecords(cfg: Config, claims: seq<Claim>, s: State, acts: seq<Action>, t: State)
    requires Inv(cfg, s) && FromRecords(cfg, claims, s) && 1 <= s.session && Run(cfg, s, acts, t)
    ensures FromRecords(cfg, claims, t)
    decreases |acts|
  {
    if acts != [] {
      var s' := Next(cfg, s, acts[0]);
      StepFromRecords(cfg, claims, s, acts[0]);
      assert Run(cfg, s, [acts[0]], s') by {
        assert [acts[0]][1..] == [] && Run(cfg, s', [], s');
      }
      InvHoldsOnRun(cfg, s, [acts[0]], s');
      RunFromRecords(cfg, claims, s', acts[1..], t);
    }
  }

  lemma RowsAreRecords(cfg: Config, claims: seq<Claim>, acts: seq<Action>, s: State, x: Item)
    requires FreshClaims(claims) && Run(cfg, Init(claims), acts, s) && x in s.rows
    ensures IsRecord(cfg, claims, x)
  {
    assert Run(cfg, Init(claims), [], Init(claims));
    ReachableInv(cfg, Init(claims));
    RunFromRecords(cfg, claims, Init(claims), acts, s);
    InsertedAtMostOnce(cfg, s);
  }

  // ---- records come from clients ----

  /** Every record is the packet of a post that the servers of the hub accepted, as all they push to Kafka are. */
  ghost predicate Pushed(codec: Codec, hub: Hub.System, claims: seq<Claim>) {
    forall p: nat, o: nat | p < |claims| && o < |claims[p].messages| :: IsPosted(codec, hub, claims[p].messages[o])
  }

  ghost predicate IsPosted(codec: Codec, hub: Hub.System, message: string) {
    exists n: nat :: IsPost(codec, hub, n, message)
  }

  predicate IsPost(codec: Codec, hub: Hub.System, n: nat, message: string) {
    n < |hub.posts| && message == codec.packet(hub.posts[n].packet)
  }

  /** A post's record parses to its author's own room and user id. */
  lemma PostParses(codec: Codec, hub: Hub.System, n: nat)
    requires Hub.Reachable(codec, hub) && Faithful(codec) && n < |hub.posts| && codec.utf8(hub.posts[n].author.room)
    ensures var parsed := ParseMessage(codec, codec.packet(hub.posts[n].packet));
            parsed.Message? && parsed.body.roomId == hub.posts[n].author.room
              && parsed.body.userId == hub.posts[n].author.userId
  {
    assert HubSystem.MadeByRouter(codec, hub.posts[n]) by { HubSystem.ReachableInv(codec, hub); }
    var post := hub.posts[n];
    var data, now :| Enrich(codec, post.author.room, post.author.userId, data, now) == Some(post.packet);
    ServerMessagesParseBack(codec, post.author.room, post.author.userId, data, now);
  }

  /** The table tells the truth: when every record a consumer reads was pushed by the servers, every row it ever
      inserts, in any run and session, has a body, and names the room and the user of the connection that said it. */
  lemma RowsNameTheirAuthors(cfg: Config, hub: Hub.System, claims: seq<Claim>, acts: seq<Action>, s: State, x: Item)
    requires Hub.Reachable(cfg.codec, hub) && Faithful(cfg.codec)
    requires forall n | 0 <= n < |hub.posts| :: cfg.codec.utf8(hub.posts[n].author.room)
    requires FreshClaims(claims) && Pushed(cfg.codec, hub, claims)
    requires Run(cfg, Init(claims), acts, s) && x in s.rows
    ensures x.partition < |claims| && x.offset < |claims[x.partition].messages| && x.body.Some?
    ensures exists n: nat :: IsPost(cfg.codec, hub, n, claims[x.partition].messages[x.offset])
    ensures forall n: nat | IsPost(cfg.codec, hub, n, claims[x.partition].messages[x.offset]) ::
              x.body.value.roomId == hub.posts[n].author.room && x.body.value.userId == hub.posts[n].author.userId
  {
    RowsAreRecords(cfg, claims, acts, s, x);
    var message := claims[x.partition].messages[x.offset];
    assert IsPosted(cfg.codec, hub, message);
    forall n: nat | IsPost(cfg.codec, hub, n, message)
      ensures x.body.Some? && x.body.value.roomId == hub.posts[n].author.room
              && x.body.value.userId == hub.posts[n].author.userId {
      PostParses(cfg.codec, hub, n);
    }
  }

  lemma {:induction false} SaidBySomeone(codec: Codec, acts: seq<Hub.SystemAction>, n: nat) returns (j: nat)
    requires n < |HubTheorems.Said(codec, acts)|
    ensures j < |acts| && acts[j].Say? && codec.undanmaku(acts[j].data).Some?
    ensures HubTheorems.Said(codec, acts)[n].author == acts[j].c
    ensures Enrich(codec, acts[j].c.room, acts[j].c.userId, acts[j].data, acts[j].now)
         == Some(HubTheorems.Said(codec, acts)[n].packet)
  {
    var rest := HubTheorems.Said(codec, acts[1..]);
    var first := |HubTheorems.Said(codec, acts)| - |rest|;
    if n < first {
      j := 0;
    } else {
      assert HubTheorems.Said(codec, acts)[n] == rest[n - first];
      j := SaidBySomeone(codec, acts[1..], n - first);
      j := j + 1;
    }
  }

  /** The row is what the client of this step said: its words and the time they were read, the connection's own room
      and user. */
  predicate RowRepeats(codec: Codec, a: Hub.SystemAction, x: Item) {
    && a.Say? && codec.undanmaku(a.data).Some?
    && x.body == Some(Danmaku(0, a.c.room, a.c.userId, codec.undanmaku(a.data).value.content, a.now))
  }

  lemma PostWasSaid(codec: Codec, servers: nat, said: seq<Hub.SystemAction>, hub: Hub.System, n: nat) returns (j: nat)
    requires Hub.Run(codec, Hub.InitSystem(servers), said, hub) && Faithful(codec)
    requires n < |hub.posts| && codec.utf8(hub.posts[n].author.room)
    ensures j < |said| && said[j].Say? && codec.undanmaku(said[j].data).Some?
    ensures var a := said[j];
            ParseMessage(codec, codec.packet(hub.posts[n].packet))
            == Message(Danmaku(0, a.c.room, a.c.userId, codec.undanmaku(a.data).value.content, a.now))
  {
    HubTheorems.PostsAreSaid(codec, Hub.InitSystem(servers), said, hub);
    assert hub.posts == [] + HubTheorems.Said(codec, said) == HubTheorems.Said(codec, said);
    j := SaidBySomeone(codec, said, n);
    ServerMessagesParseBack(codec, said[j].c.room, said[j].c.userId, said[j].data, said[j].now);
  }

  /** Word for word: over any run of the servers and any run of the consumer on what they pushed, every row repeats
      something a connected client said in that run. */
  lemma RowsRepeatWhatWasSaid(cfg: Config, servers: nat, said: seq<Hub.SystemAction>, hub: Hub.System,
                              claims: seq<Claim>, acts: seq<Action>, s: State, x: Item) returns (j: nat)
    requires Hub.Run(cfg.codec, Hub.InitSystem(servers), said, hub) && Faithful(cfg.codec)
    requires forall n | 0 <= n < |hub.posts| :: cfg.codec.utf8(hub.posts[n].author.room)
    requires FreshClaims(claims) && Pushed(cfg.codec, hub, claims)
    requires Run(cfg, Init(claims), acts, s) && x in s.rows
    ensures j < |said| && RowRepeats(cfg.codec, said[j], x)
  {
    RowsAreRecords(cfg, claims, acts, s, x);
    assert IsPosted(cfg.codec, hub, claims[x.partition].messages[x.offset]);
    var n: nat :| IsPost(cfg.codec, hub, n, claims[x.partition].messages[x.offset]);
    j := PostWasSaid(cfg.codec, servers, said, hub, n);
  }

  /** And the whole of it: when the worker of a first session left by the closed channel, every post whose record was
      marked stands in the table under its author's room and user id, if and only if its batch was not dropped. */
  lemma MarkedPostsAreRows(cfg: Config, hub: Hub.System, claims: seq<Claim>, acts: seq<Action>, s: State, n: nat,
                           p: nat, o: nat)
    requires Hub.Reachable(cfg.codec, hub) && Faithful(cfg.codec)
    requires FreshClaims(claims) && Run(cfg, Init(claims), acts, s) && s.session == 1 && s.worker == Stopped(ByClose)
    requires p < |claims| && o < |claims[p].messages| && IsPost(cfg.codec, hub, n, claims[p].messages[o])
    requires cfg.codec.utf8(hub.posts[n].author.room) && p < |s.claims| && o in s.claims[p].marks
    ensures var x := ItemOf(cfg, p, claims[p].messages, o);
            && x.body.Some? && x.body.value.roomId == hub.posts[n].author.room
            && x.body.value.userId == hub.posts[n].author.userId
            && (x in s.rows <==> !ConsumerShutdown.InDropped(s.batches, x))
  {
    assert Run(cfg, Init(claims), [], Init(claims));
    ReachableInv(cfg, Init(claims));
    RunFromRecords(cfg, claims, Init(claims), acts, s);
    PostParses(cfg.codec, hub, n);
    var x := ItemOf(cfg, p, claims[p].messages, o);
    assert x in ConsumerShutdown.MarkedParsed(cfg, s);
    ConsumerShutdown.DrainedTableIsComplete(cfg, s, x);
  }
}

/** The abstract service the hub implements: posts are made for a room, and each is delivered to clients of that
    room, at most once through each subscription.  Every step of the system is a step of the service or none. */
module RoomService {
  import opened Wire
  import opened Fanout
  import FanoutDelivery
  import opened Hub
  import HubSafety
  import HubSystem
  import HubTheorems

  /** Post `post` accepted into the Send channel of `to`, as forwarded by a server's subscription. */
  datatype Delivery = Delivery(server: nat, via: nat, post: nat, to: Client)

  datatype Service = Service(posts: seq<Post>, delivered: iset<Delivery>)

  datatype Event = Said(post: Post) | Delivered(d: Delivery)

  ghost predicate Allowed(codec: Codec, v: Service, e: Event) {
    match e
    case Said(post) => HubSystem.MadeByRouter(codec, post)
    case Delivered(d) =>
      && d.post < |v.posts| && d.to.server == d.server
      && v.posts[d.post].author.room == d.to.room
      && d !in v.delivered
  }

  ghost function Step(v: Service, e: Event): Service {
    match e
    case Said(post) => v.(posts := v.posts + [post])
    case Delivered(d) => v.(delivered := v.delivered + iset{d})
  }

  ghost predicate Serves(codec: Codec, v: Service, events: seq<Event>, w: Service)
    decreases |events|
  {
    if events == [] then v == w
    else Allowed(codec, v, events[0]) && Serves(codec, Step(v, events[0]), events[1..], w)
  }

  // ---- the abstraction ----

  ghost predicate IsDelivery(x: Attempt, d: Delivery) {
    x.queued && x.payload == Forwarded(d.via, d.post) && x.client == d.to
  }

  ghost predicate WasDelivered(s: System, d: Delivery) {
    d.server < |s.servers| && exists a ::
        0 <= a < |s.servers[d.server].fan.attempts| && IsDelivery(s.servers[d.server].fan.attempts[a], d)
  }

  ghost function View(s: System): Service {
    Service(s.posts, iset d: Delivery | WasDelivered(s, d))
  }

  /** Steps that try no client deliver nothing. */
  lemma SameAttemptsSameView(s: System, s': System)
    requires s'.posts == s.posts && |s'.servers| == |s.servers|
    requires forall i | 0 <= i < |s.servers| :: s'.servers[i].fan.attempts == s.servers[i].fan.attempts
    ensures View(s') == View(s)
  {
    forall d ensures WasDelivered(s', d) == WasDelivered(s, d) {
    }
  }

  lemma LocalAttemptsStay(i: nat, srv: Server, a: LocalAction)
    requires LocalEnabled(i, srv, a) && !(a.FanStep? && a.a.WorkerSends?)
    ensures LocalNext(i, srv, a).fan.attempts == srv.fan.attempts
  {
    if a.FanStep? {
      FanoutDelivery.AttemptsStay(srv.reg.rooms, srv.fan, a.a);
    }
  }

  /** The attempt a worker adds, as the service sees it. */
  lemma SendGrowsView(s: System, s': System, i: nat, x: Attempt)
    requires i < |s.servers| && |s'.servers| == |s.servers| && s'.posts == s.posts
    requires s'.servers[i].fan.attempts == s.servers[i].fan.attempts + [x]
    requires forall j | 0 <= j < |s.servers| && j != i :: s'.servers[j] == s.servers[j]
    ensures View(s').delivered == View(s).delivered + iset d: Delivery | d.server == i && IsDelivery(x, d)
  {
    var xs, xs' := s.servers[i].fan.attempts, s'.servers[i].fan.attempts;
    assert xs'[|xs|] == x;
    forall d ensures WasDelivered(s', d) <==> WasDelivered(s, d) || (d.server == i && IsDelivery(x, d)) {
      if d.server == i {
        if WasDelivered(s, d) {
          var a :| 0 <= a < |xs| && IsDelivery(xs[a], d);
          assert IsDelivery(xs'[a], d);
        }
        if WasDelivered(s', d) {
          var a :| 0 <= a < |xs'| && IsDelivery(xs'[a], d);
          assert a < |xs| ==> IsDelivery(xs[a], d);
        }
        if IsDelivery(x, d) {
          assert IsDelivery(xs'[|xs|], d);
        }
      }
    }
  }

  /** The newest attempt of an invariant state is within its room and repeats nothing. */
  lemma NewDeliveryAllowed(codec: Codec, s: System, s': System, i: nat, x: Attempt)
    requires HubSystem.Inv(codec, s') && i < |s.servers| && |s'.servers| == |s.servers| && s'.posts == s.posts
    requires s'.servers[i].fan.attempts == s.servers[i].fan.attempts + [x]
    requires x.payload.Forwarded?
    ensures Allowed(codec, View(s), Delivered(Delivery(i, x.payload.via, x.payload.post, x.client)))
  {
    var f, n := s'.servers[i].fan, |s.servers[i].fan.attempts|;
    assert HubSafety.ServerOk(i, s'.servers[i]) && f.attempts[n] == x;
    HubTheorems.AttemptsHitMembers(s'.servers[i].reg.rooms, f, n);
    HubTheorems.HandoffBelongs(codec, s', i, x.id);
    forall a | 0 <= a < n ensures !IsDelivery(s.servers[i].fan.attempts[a],
                                              Delivery(i, x.payload.via, x.payload.post, x.client)) {
      assert f.attempts[a] == s.servers[i].fan.attempts[a];
      if f.attempts[a].payload == x.payload {
        HubTheorems.AttemptsApart(i, s'.servers[i], a, n);
      }
    }
  }

  /** What one step of the system is to the service. */
  ghost predicate Refines(codec: Codec, v: Service, w: Service) {
    w == v || exists e :: Allowed(codec, v, e) && w == Step(v, e)
  }

  /** A worker's send adds one attempt on its server and touches no post and no other server. */
  lemma SendShape(codec: Codec, s: System, i: nat, w: nat) returns (x: Attempt)
    requires i < |s.servers| && HubSafety.ServerOk(i, s.servers[i])
    requires SystemEnabled(s, Local(i, FanStep(WorkerSends(w))))
    ensures var s' := SystemNext(codec, s, Local(i, FanStep(WorkerSends(w))));
            && s'.posts == s.posts && |s'.servers| == |s.servers|
            && s'.servers[i].fan.attempts == s.servers[i].fan.attempts + [x]
            && (forall j | 0 <= j < |s.servers| && j != i :: s'.servers[j] == s.servers[j])
  {
    FanoutDelivery.SendTriesNext(s.servers[i].reg.rooms, s.servers[i].fan, w);
    var f' := Next(s.servers[i].reg.rooms, s.servers[i].fan, WorkerSends(w));
    x := f'.attempts[|s.servers[i].fan.attempts|];
  }

  lemma OneAttemptRefines(codec: Codec, s: System, s': System, i: nat, x: Attempt)
    requires HubSystem.Inv(codec, s') && i < |s.servers| && |s'.servers| == |s.servers| && s'.posts == s.posts
    requires s'.servers[i].fan.attempts == s.servers[i].fan.attempts + [x]
    requires forall j | 0 <= j < |s.servers| && j != i :: s'.servers[j] == s.servers[j]
    ensures Refines(codec, View(s), View(s'))
  {
    SendGrowsView(s, s', i, x);
    if x.queued && x.payload.Forwarded? {
      var d := Delivery(i, x.payload.via, x.payload.post, x.client);
      NewDeliveryAllowed(codec, s, s', i, x);
      assert (iset e: Delivery | e.server == i && IsDelivery(x, e)) == iset{d};
      assert View(s') == Step(View(s), Delivered(d));
    } else {
      assert View(s') == View(s);
    }
  }

  lemma SendRefines(codec: Codec, s: System, i: nat, w: nat)
    requires HubSystem.Inv(codec, s) && SystemEnabled(s, Local(i, FanStep(WorkerSends(w))))
    ensures Refines(codec, View(s), View(SystemNext(codec, s, Local(i, FanStep(WorkerSends(w))))))
  {
    var a := Local(i, FanStep(WorkerSends(w)));
    HubSystem.StepKeeps(codec, s, a);
    var x := SendShape(codec, s, i, w);
    OneAttemptRefines(codec, s, SystemNext(codec, s, a), i, x);
  }

  lemma LocalRefines(codec: Codec, s: System, i: nat, la: LocalAction)
    requires SystemEnabled(s, Local(i, la)) && !(la.FanStep? && la.a.WorkerSends?)
    ensures View(SystemNext(codec, s, Local(i, la))) == View(s)
  {
    LocalAttemptsStay(i, s.servers[i], la);
    SameAttemptsSameView(s, SystemNext(codec, s, Local(i, la)));
  }

  lemma PublishRefines(s: System, i: nat, receivers: seq<set<nat>>)
    requires i < |s.servers| && s.servers[i].loop.Publishing? && |receivers| == |s.servers|
    ensures View(PublishNext(s, i, receivers)) == View(s)
  {
    SameAttemptsSameView(s, PublishNext(s, i, receivers));
  }

  lemma SayRefines(codec: Codec, s: System, i: nat, c: Client, data: string, now: int)
    requires SystemEnabled(s, Say(i, c, data, now))
    ensures Refines(codec, View(s), View(SayNext(codec, s, i, c, data, now)))
  {
    var s' := SayNext(codec, s, i, c, data, now);
    if Enrich(codec, c.room, c.userId, data, now).Some? {
      var post := Post(c, Enrich(codec, c.room, c.userId, data, now).value);
      SameAttemptsSameView(s, s'.(posts := s.posts));
      assert View(s').delivered == View(s'.(posts := s.posts)).delivered by {
        forall d ensures WasDelivered(s', d) == WasDelivered(s'.(posts := s.posts), d) {
        }
      }
      assert Allowed(codec, View(s), Said(post));
      assert View(s') == Step(View(s), Said(post));
    }
  }

  /** Every step of the system from a state that keeps its invariant is one step of the service or none at all. */
  lemma StepRefines(codec: Codec, s: System, a: SystemAction)
    requires HubSystem.Inv(codec, s) && SystemEnabled(s, a)
    ensures Refines(codec, View(s), View(SystemNext(codec, s, a)))
  {
    match a {
      case Local(i, la) =>
        if la.FanStep? && la.a.WorkerSends? {
          SendRefines(codec, s, i, la.a.w);
        } else {
          LocalRefines(codec, s, i, la);
        }
      case Say(i, c, data, now) => SayRefines(codec, s, i, c, data, now);
      case Publish(i, receivers) => PublishRefines(s, i, receivers);
    }
  }

  lemma {:induction false} ServesSnoc(codec: Codec, v: Service, events: seq<Event>, w: Service, e: Event)
    requires Serves(codec, v, events, w) && Allowed(codec, w, e)
    ensures Serves(codec, v, events + [e], Step(w, e))
    decreases |events|
  {
    if events == [] {
      assert Serves(codec, Step(w, e), [], Step(w, e));
      assert ([e])[1..] == [];
    } else {
      ServesSnoc(codec, Step(v, events[0]), events[1..], w, e);
      assert (events + [e])[1..] == events[1..] + [e];
    }
  }

  lemma {:induction false} RunRefines(codec: Codec, v: Service, before: seq<Event>, s: System, acts: seq<SystemAction>,
                                      t: System)
    returns (events: seq<Event>)
    requires HubSystem.Inv(codec, s) && Run(codec, s, acts, t) && Serves(codec, v, before, View(s))
    ensures Serves(codec, v, events, View(t))
    decreases |acts|
  {
    if acts == [] {
      events := before;
    } else {
      var s' := SystemNext(codec, s, acts[0]);
      HubSystem.StepKeeps(codec, s, acts[0]);
      StepRefines(codec, s, acts[0]);
      var now := before;
      if View(s') != View(s) {
        var e :| Allowed(codec, View(s), e) && View(s') == Step(View(s), e);
        ServesSnoc(codec, v, before, View(s), e);
        now := before + [e];
      }
      events := RunRefines(codec, v, now, s', acts[1..], t);
    }
  }

  lemma NothingDelivered(s: System)
    requires HubSystem.Unstarted(s)
    ensures View(s) == Service([], iset{})
  {
    forall d ensures !WasDelivered(s, d) {
    }
  }

  /** The hub refines the service: whatever the system does, its posts and deliveries are those of some run of the
      abstract per-room broadcast service from nothing. */
  lemma HubRefinesService(codec: Codec, s: System) returns (events: seq<Event>)
    requires Reachable(codec, s)
    ensures Serves(codec, Service([], iset{}), events, View(s))
  {
    var n: nat, acts :| Run(codec, InitSystem(n), acts, s);
    var s0 := InitSystem(n);
    HubSystem.InitOk(codec, s0);
    NothingDelivered(s0);
    events := RunRefines(codec, Service([], iset{}), [], s0, acts, s);
  }
}

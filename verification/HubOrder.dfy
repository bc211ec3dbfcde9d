/** In what order a subscription's messages reach a client.  They leave the subscription one at a time and pass the job
    queue in order; only workers that run side by side can change it. */
module HubOrder {
  import opened Wire
  import opened Fanout
  import opened FanoutSafety
  import FanoutSnapshots
  import FanoutDelivery
  import opened FanoutHeld
  import opened Hub
  import HubSafety
  import HubSystem
  import HubTheorems

  /** Both were forwarded by the same subscription. */
  predicate SameVia(p: Payload, q: Payload) {
    p.Forwarded? && q.Forwarded? && p.via == q.via
  }

  // ---- ids rise through workers and queue to the caller ----

  /** h1 is nearer to the clients than h2: a worker is ahead of the queue, and the queue's head ahead of its tail. */
  predicate Ahead(h1: Holder, h2: Holder) {
    h2.InQueue? && (h1.ByWorker? || (h1.InQueue? && h1.k < h2.k))
  }

  predicate Carries(f: Fanout, h: Holder, id: nat) {
    IdOf(f, h) == Some(id) && id < |f.log|
  }

  /** Of two handoffs of a subscription, the one ahead is the older. */
  ghost predicate Ordered(f: Fanout) {
    forall h1, h2, id1: nat, id2: nat | Ahead(h1, h2) && Carries(f, h1, id1) && Carries(f, h2, id2)
                              && SameVia(f.log[id1].payload, f.log[id2].payload) :: id1 < id2
  }

  /** A broadcaster's handoff is the newest of its subscription. */
  ghost predicate Newest(f: Fanout) {
    forall i: nat, id: nat, other: nat | Carries(f, ByCaller(i), id) && id < other < |f.log| ::
      !SameVia(f.log[id].payload, f.log[other].payload)
  }

  /** No two broadcasters are busy for one subscription. */
  ghost predicate CallersApart(f: Fanout) {
    forall i, j | 0 <= i < j < |f.callers| && !f.callers[i].Free? && !f.callers[j].Free? ::
      !SameVia(f.callers[i].payload, f.callers[j].payload)
  }

  lemma CarriesMoves(rooms: map<string, set<Client>>, f: Fanout, a: Action, h: Holder, id: nat)
    requires Enabled(rooms, f, a) && Carried(f) && Carries(Next(rooms, f, a), h, id)
    ensures if a.Lock? && h == ByCaller(a.i) then id == |f.log| else Carries(f, CarrierBefore(f, a, h), id)
  {
    IdsMove(rooms, f, a, h);
  }

  lemma PayloadsStay(rooms: map<string, set<Client>>, f: Fanout, a: Action)
    requires Enabled(rooms, f, a)
    ensures var log' := Next(rooms, f, a).log;
            && |f.log| <= |log'| && (!a.Lock? ==> |log'| == |f.log|)
            && (a.Lock? ==> |log'| == |f.log| + 1 && log'[|f.log|].payload == f.callers[a.i].payload)
            && forall id | 0 <= id < |f.log| :: log'[id].payload == f.log[id].payload
  {
    LogMoves(rooms, f, a);
  }

  lemma OrderedKept(rooms: map<string, set<Client>>, f: Fanout, a: Action)
    requires Ordered(f) && Newest(f) && Carried(f) && Enabled(rooms, f, a)
    ensures Ordered(Next(rooms, f, a))
  {
    var f' := Next(rooms, f, a);
    PayloadsStay(rooms, f, a);
    forall h1, h2, id1: nat, id2: nat | Ahead(h1, h2) && Carries(f', h1, id1) && Carries(f', h2, id2)
                              && SameVia(f'.log[id1].payload, f'.log[id2].payload)
      ensures id1 < id2 {
      CarriesMoves(rooms, f, a, h1, id1);
      CarriesMoves(rooms, f, a, h2, id2);
      StillAhead(f, a, h1, h2);
      PairKept(f, CarrierBefore(f, a, h1), CarrierBefore(f, a, h2), id1, id2);
    }
  }

  /** Who is ahead after the step was ahead before it, unless the other one was still with its caller. */
  lemma StillAhead(f: Fanout, a: Action, h1: Holder, h2: Holder)
    requires Ahead(h1, h2)
    ensures var g1, g2 := CarrierBefore(f, a, h1), CarrierBefore(f, a, h2);
            IdOf(f, g1).Some? && IdOf(f, g2).Some? ==> Ahead(g1, g2) || (g2.ByCaller? && g1 != g2)
  {
  }

  lemma PairKept(f: Fanout, h1: Holder, h2: Holder, id1: nat, id2: nat)
    requires Ordered(f) && Newest(f) && Carried(f) && (Ahead(h1, h2) || (h2.ByCaller? && h1 != h2))
    requires Carries(f, h1, id1) && Carries(f, h2, id2) && SameVia(f.log[id1].payload, f.log[id2].payload)
    ensures id1 < id2
  {
    if h2.ByCaller? {
      assert id1 != id2;
      assert id2 < id1 ==> !SameVia(f.log[id2].payload, f.log[id1].payload);
    }
  }

  /** A caller's payload is its handoff's. */
  lemma CallerPayload(rooms: map<string, set<Client>>, f: Fanout, i: nat, id: nat)
    requires FanoutSnapshots.Content(rooms, f) && Carries(f, ByCaller(i), id)
    ensures i < |f.callers| && !f.callers[i].Free? && f.callers[i].payload == f.log[id].payload
  {
    assert FanoutSnapshots.CallerOk(rooms, f.heap, f.log, f.callers[i]);
  }

  lemma NewestKept(rooms: map<string, set<Client>>, f: Fanout, a: Action)
    requires Newest(f) && Carried(f) && CallersApart(f) && FanoutSnapshots.Content(rooms, f) && Enabled(rooms, f, a)
    ensures Newest(Next(rooms, f, a))
  {
    var f' := Next(rooms, f, a);
    PayloadsStay(rooms, f, a);
    forall i: nat, id: nat, other: nat | Carries(f', ByCaller(i), id) && id < other < |f'.log|
      ensures !SameVia(f'.log[id].payload, f'.log[other].payload) {
      CarriesMoves(rooms, f, a, ByCaller(i), id);
      assert CarrierBefore(f, a, ByCaller(i)) == ByCaller(i);
      if other == |f.log| {
        CallerPayload(rooms, f, i, id);
        assert i != a.i;
      }
    }
  }

  /** Whoever is busy after the step was busy before it, with the same payload. */
  ghost predicate BusySame(f: Fanout, f': Fanout) {
    forall i | 0 <= i < |f'.callers| && !f'.callers[i].Free? ::
      i < |f.callers| && !f.callers[i].Free? && f.callers[i].payload == f'.callers[i].payload
  }

  lemma BusyStays(rooms: map<string, set<Client>>, f: Fanout, a: Action)
    requires Enabled(rooms, f, a) && !a.Start?
    ensures BusySame(f, Next(rooms, f, a))
  {
    if OfWorker(a) {
      HubSafety.WorkerStepCalls(rooms, f, a);
    } else if a.Append? || a.Dispatch? {
      HandOverStays(rooms, f, a);
    } else {
      SnapshotStays(rooms, f, a);
    }
  }

  lemma HandOverStays(rooms: map<string, set<Client>>, f: Fanout, a: Action)
    requires Enabled(rooms, f, a) && (a.Append? || a.Dispatch?)
    ensures BusySame(f, Next(rooms, f, a))
  {
  }

  lemma SnapshotStays(rooms: map<string, set<Client>>, f: Fanout, a: Action)
    requires Enabled(rooms, f, a) && !a.Start? && !OfWorker(a) && !a.Append? && !a.Dispatch?
    ensures BusySame(f, Next(rooms, f, a))
  {
    if a.Lock? || a.Miss? || a.GetPooled? || a.GetNew? || a.Unlock? {
      CallerStepStays(rooms, f, a);
    }
  }

  lemma CallerStepStays(rooms: map<string, set<Client>>, f: Fanout, a: Action)
    requires Enabled(rooms, f, a) && (a.Lock? || a.Miss? || a.GetPooled? || a.GetNew? || a.Unlock?)
    ensures BusySame(f, Next(rooms, f, a))
  {
    assert forall i | 0 <= i < |f.callers| && i != a.i :: Next(rooms, f, a).callers[i] == f.callers[i];
  }

  // ---- the log follows what was forwarded ----

  /** x comes before y. */
  ghost predicate Precedes(xs: seq<nat>, x: nat, y: nat) {
    exists a, b :: 0 <= a < b < |xs| && xs[a] == x && xs[b] == y
  }

  lemma PrecedesLonger(xs: seq<nat>, more: seq<nat>, x: nat, y: nat)
    requires Precedes(xs, x, y)
    ensures Precedes(xs + more, x, y)
  {
    var a, b :| 0 <= a < b < |xs| && xs[a] == x && xs[b] == y;
    assert (xs + more)[a] == x && (xs + more)[b] == y;
  }

  lemma BeforeLast(xs: seq<nat>, x: nat)
    requires x in xs && x != xs[|xs| - 1]
    ensures Precedes(xs, x, xs[|xs| - 1])
  {
    var a :| 0 <= a < |xs| && xs[a] == x;
    assert xs[a] == x && xs[|xs| - 1] == xs[|xs| - 1];
  }

  // ---- one server ----

  /** A broadcaster busy for a subscription is the one the subscription waits for. */
  ghost predicate BusyOk(srv: Server) {
    forall i | 0 <= i < |srv.fan.callers| && !srv.fan.callers[i].Free? && srv.fan.callers[i].payload.Forwarded? ::
      var k := srv.fan.callers[i].payload.via;
      k < |srv.subs| && srv.subs[k].phase == Forwarding(i)
  }

  /** The call not yet in the log carries the newest post forwarded; the log has a subscription's posts in the order it
      forwarded them. */
  ghost predicate CallIsLast(srv: Server, i: nat)
    requires i < |srv.fan.callers|
  {
    var c := srv.fan.callers[i];
    c.Called? && c.payload.Forwarded? && c.payload.via < |srv.subs| ==>
      var forwarded := srv.subs[c.payload.via].forwarded;
      forwarded != [] && forwarded[|forwarded| - 1] == c.payload.post
  }

  ghost predicate LogFollows(srv: Server) {
    && (forall i | 0 <= i < |srv.fan.callers| :: CallIsLast(srv, i))
    && (forall id1, id2 | 0 <= id1 < id2 < |srv.fan.log| && SameVia(srv.fan.log[id1].payload, srv.fan.log[id2].payload)
                          && srv.fan.log[id1].payload.via < |srv.subs| ::
          Precedes(srv.subs[srv.fan.log[id1].payload.via].forwarded, srv.fan.log[id1].payload.post,
                   srv.fan.log[id2].payload.post))
  }

  ghost predicate OrderOk(srv: Server) {
    BusyOk(srv) && LogFollows(srv) && Ordered(srv.fan) && Newest(srv.fan)
  }

  lemma BusyApart(srv: Server)
    requires BusyOk(srv)
    ensures CallersApart(srv.fan)
  {
  }

  // ---- fan-out steps ----

  lemma FanKeepsBusy(srv: Server, a: Action)
    requires BusyOk(srv) && Enabled(srv.reg.rooms, srv.fan, a) && !a.Start?
    ensures BusyOk(srv.(fan := Next(srv.reg.rooms, srv.fan, a)))
  {
    BusyStays(srv.reg.rooms, srv.fan, a);
  }

  lemma OtherFanFollows(srv: Server, a: Action)
    requires LogFollows(srv) && Enabled(srv.reg.rooms, srv.fan, a) && !a.Start? && !a.Lock?
    ensures LogFollows(srv.(fan := Next(srv.reg.rooms, srv.fan, a)))
  {
    var srv' := srv.(fan := Next(srv.reg.rooms, srv.fan, a));
    PayloadsStay(srv.reg.rooms, srv.fan, a);
    CalledStay(srv.reg.rooms, srv.fan, a);
    forall i | 0 <= i < |srv'.fan.callers| ensures CallIsLast(srv', i) {
      if srv'.fan.callers[i].Called? {
        assert CallIsLast(srv, i);
      }
    }
  }

  lemma CalledStay(rooms: map<string, set<Client>>, f: Fanout, a: Action)
    requires Enabled(rooms, f, a) && !a.Start?
    ensures forall t | 0 <= t < |Next(rooms, f, a).callers| && Next(rooms, f, a).callers[t].Called? ::
              t < |f.callers| && f.callers[t] == Next(rooms, f, a).callers[t] && !(a.Lock? && a.i == t)
  {
    if OfWorker(a) {
      HubSafety.WorkerStepCalls(rooms, f, a);
    } else if a.Append? || a.Dispatch? {
      HubSafety.FillStepCalls(rooms, f, a);
    } else {
      HubSafety.FanStepCalls(rooms, f, a);
    }
  }

  lemma LockFollows(srv: Server, a: Action)
    requires LogFollows(srv) && HubSafety.CallsOk(srv) && Enabled(srv.reg.rooms, srv.fan, a) && a.Lock?
    ensures LogFollows(srv.(fan := Next(srv.reg.rooms, srv.fan, a)))
  {
    var srv' := srv.(fan := Next(srv.reg.rooms, srv.fan, a));
    PayloadsStay(srv.reg.rooms, srv.fan, a);
    CalledStay(srv.reg.rooms, srv.fan, a);
    forall i | 0 <= i < |srv'.fan.callers| ensures CallIsLast(srv', i) {
      if srv'.fan.callers[i].Called? {
        assert CallIsLast(srv, i);
      }
    }
    forall id1 | 0 <= id1 < |srv.fan.log| && SameVia(srv.fan.log[id1].payload, srv.fan.callers[a.i].payload)
                 && srv.fan.log[id1].payload.via < |srv.subs|
      ensures Precedes(srv.subs[srv.fan.log[id1].payload.via].forwarded, srv.fan.log[id1].payload.post,
                       srv.fan.callers[a.i].payload.post) {
      LockedIsLater(srv, a.i, id1);
    }
  }

  lemma LockedIsLater(srv: Server, i: nat, id: nat)
    requires LogFollows(srv) && HubSafety.CallsOk(srv) && i < |srv.fan.callers| && srv.fan.callers[i].Called?
    requires id < |srv.fan.log| && SameVia(srv.fan.log[id].payload, srv.fan.callers[i].payload)
    requires srv.fan.log[id].payload.via < |srv.subs|
    ensures Precedes(srv.subs[srv.fan.log[id].payload.via].forwarded, srv.fan.log[id].payload.post,
                     srv.fan.callers[i].payload.post)
  {
    assert HubSafety.CallOk(srv, i) && HubSafety.HandoffOk(srv, srv.fan.log[id]) && CallIsLast(srv, i);
    BeforeLast(srv.subs[srv.fan.log[id].payload.via].forwarded, srv.fan.log[id].payload.post);
  }

  lemma FanKeepsOrder(i: nat, srv: Server, a: Action)
    requires HubSafety.ServerOk(i, srv) && OrderOk(srv) && Enabled(srv.reg.rooms, srv.fan, a) && !a.Start?
    ensures OrderOk(srv.(fan := Next(srv.reg.rooms, srv.fan, a)))
  {
    BusyApart(srv);
    OrderedKept(srv.reg.rooms, srv.fan, a);
    NewestKept(srv.reg.rooms, srv.fan, a);
    FanKeepsBusy(srv, a);
    if a.Lock? {
      LockFollows(srv, a);
    } else {
      OtherFanFollows(srv, a);
    }
  }

  // ---- the server's other steps ----

  /** Neither the log nor who carries what changed. */
  ghost predicate SameCarriers(f: Fanout, f': Fanout) {
    f'.log == f.log && f'.jobs == f.jobs && f'.workers == f.workers && |f'.callers| == |f.callers|
    && forall i | 0 <= i < |f.callers| :: f'.callers[i] == f.callers[i] || (f.callers[i].Free? && f'.callers[i].Called?)
  }

  lemma SameCarriersKeep(f: Fanout, f': Fanout)
    requires SameCarriers(f, f') && Ordered(f) && Newest(f)
    ensures Ordered(f') && Newest(f')
  {
    assert forall h :: IdOf(f', h) == IdOf(f, h);
    assert forall h, id :: Carries(f', h, id) == Carries(f, h, id);
  }

  lemma ForwardKeepsBusy(srv: Server, k: nat, slot: nat)
    requires BusyOk(srv) && LocalEnabled(0, srv, SubForwards(k, slot))
    ensures BusyOk(Forward(srv, k, slot))
  {
  }

  lemma ForwardFollows(srv: Server, k: nat, slot: nat)
    requires BusyOk(srv) && LogFollows(srv) && LocalEnabled(0, srv, SubForwards(k, slot))
    ensures LogFollows(Forward(srv, k, slot))
  {
    var srv' := Forward(srv, k, slot);
    forall i | 0 <= i < |srv'.fan.callers| ensures CallIsLast(srv', i) {
      assert CallIsLast(srv, i);
    }
    forall id1, id2 | 0 <= id1 < id2 < |srv'.fan.log| && SameVia(srv'.fan.log[id1].payload, srv'.fan.log[id2].payload)
                      && srv'.fan.log[id1].payload.via < |srv'.subs|
      ensures Precedes(srv'.subs[srv'.fan.log[id1].payload.via].forwarded, srv'.fan.log[id1].payload.post,
                       srv'.fan.log[id2].payload.post) {
      PrecedesLonger(srv.subs[srv.fan.log[id1].payload.via].forwarded, [srv.subs[k].inbox[0]],
                     srv.fan.log[id1].payload.post, srv.fan.log[id2].payload.post);
    }
  }

  /** Subscriptions are only added or change phase without freeing a busy broadcaster's. */
  ghost predicate SubsFollow(srv: Server, srv': Server) {
    && |srv.subs| <= |srv'.subs|
    && (forall k | 0 <= k < |srv.subs| :: srv'.subs[k].forwarded == srv.subs[k].forwarded)
    && (forall k | 0 <= k < |srv.subs| && srv.subs[k].phase.Forwarding? && srv.subs[k].phase.slot < |srv.fan.callers|
                   && !srv.fan.callers[srv.subs[k].phase.slot].Free? :: srv'.subs[k].phase == srv.subs[k].phase)
    && srv'.fan == srv.fan
  }

  lemma SubsFollowKeeps(srv: Server, srv': Server)
    requires OrderOk(srv) && HubSafety.CallsOk(srv) && SubsFollow(srv, srv')
    ensures OrderOk(srv')
  {
    forall id | 0 <= id < |srv.fan.log| && srv.fan.log[id].payload.Forwarded?
      ensures srv.fan.log[id].payload.via < |srv.subs| {
      assert HubSafety.HandoffOk(srv, srv.fan.log[id]);
    }
    forall i | 0 <= i < |srv'.fan.callers| ensures CallIsLast(srv', i) {
      assert CallIsLast(srv, i);
    }
  }

  lemma StatsKeepsOrder(srv: Server, a: LocalAction)
    requires OrderOk(srv) && a.StatsCall? && LocalEnabled(0, srv, a)
    ensures OrderOk(LocalNext(0, srv, a))
  {
    var srv' := LocalNext(0, srv, a);
    SameCarriersKeep(srv.fan, srv'.fan);
    forall i | 0 <= i < |srv'.fan.callers| ensures CallIsLast(srv', i) {
      assert CallIsLast(srv, i);
    }
  }

  lemma LocalKeepsOrder(i: nat, srv: Server, a: LocalAction)
    requires HubSafety.ServerOk(i, srv) && OrderOk(srv) && LocalEnabled(i, srv, a)
    ensures OrderOk(LocalNext(i, srv, a))
  {
    if a.FanStep? {
      FanKeepsOrder(i, srv, a.a);
    } else if a.SubForwards? {
      ForwardKeepsBusy(srv, a.k, a.slot);
      ForwardFollows(srv, a.k, a.slot);
      SameCarriersKeep(srv.fan, Forward(srv, a.k, a.slot).fan);
    } else if a.StatsCall? {
      StatsKeepsOrder(srv, a);
    } else {
      OthersFollow(i, srv, a);
      SubsFollowKeeps(srv, LocalNext(i, srv, a));
    }
  }

  lemma OthersFollow(i: nat, srv: Server, a: LocalAction)
    requires LocalEnabled(i, srv, a) && !a.FanStep? && !a.SubForwards? && !a.StatsCall?
    ensures SubsFollow(srv, LocalNext(i, srv, a))
  {
  }

  // ---- the system ----

  ghost predicate AllOrdered(s: System) {
    forall i | 0 <= i < |s.servers| :: OrderOk(s.servers[i])
  }

  lemma StepKeepsOrder(codec: Codec, s: System, a: SystemAction)
    requires HubSystem.Inv(codec, s) && AllOrdered(s) && SystemEnabled(s, a)
    ensures AllOrdered(SystemNext(codec, s, a))
  {
    var s' := SystemNext(codec, s, a);
    if a.Local? {
      LocalKeepsOrder(a.i, s.servers[a.i], a.a);
    } else {
      forall i | 0 <= i < |s'.servers| ensures OrderOk(s'.servers[i]) {
        RemoteFollows(codec, s, a, i);
        assert HubSafety.ServerOk(i, s.servers[i]);
        SubsFollowKeeps(s.servers[i], s'.servers[i]);
      }
    }
  }

  lemma RemoteFollows(codec: Codec, s: System, a: SystemAction, i: nat)
    requires SystemEnabled(s, a) && !a.Local? && i < |s.servers|
    ensures |SystemNext(codec, s, a).servers| == |s.servers|
            && SubsFollow(s.servers[i], SystemNext(codec, s, a).servers[i])
  {
  }

  lemma StartsOrdered(s: System)
    requires HubSystem.Unstarted(s)
    ensures AllOrdered(s)
  {
    forall i | 0 <= i < |s.servers| ensures OrderOk(s.servers[i]) {
      assert forall h :: IdOf(InitServer().fan, h) == None;
    }
  }

  lemma {:induction false} RunKeepsOrder(codec: Codec, s: System, acts: seq<SystemAction>, t: System)
    requires HubSystem.Inv(codec, s) && AllOrdered(s) && Run(codec, s, acts, t)
    ensures HubSystem.Inv(codec, t) && AllOrdered(t)
    decreases |acts|
  {
    if acts != [] {
      StepKeepsOrder(codec, s, acts[0]);
      HubSystem.StepKeeps(codec, s, acts[0]);
      RunKeepsOrder(codec, SystemNext(codec, s, acts[0]), acts[1..], t);
    }
  }

  lemma ReachableOrder(codec: Codec, s: System, i: nat)
    requires Reachable(codec, s) && i < |s.servers|
    ensures HubSafety.ServerOk(i, s.servers[i]) && OrderOk(s.servers[i])
  {
    var n: nat, acts :| Run(codec, InitSystem(n), acts, s);
    HubSystem.InitOk(codec, InitSystem(n));
    StartsOrdered(InitSystem(n));
    RunKeepsOrder(codec, InitSystem(n), acts, s);
  }

  // ---- when a send overtakes ----

  /** An older handoff of the subscription still owes c its try. */
  ghost predicate Overtakes(f: Fanout, job: Job, c: Client) {
    exists id: nat :: id < job.id && Owes(f, id, c) && SameVia(f.log[id].payload, job.payload)
  }

  /** At this moment another worker is in an older job of the subscription and has c before it. */
  ghost predicate BehindAWorker(f: Fanout, job: Job, c: Client) {
    exists v: nat :: YetToTry(f, v, c) && f.workers[v].job.id < job.id && SameVia(f.workers[v].job.payload, job.payload)
  }

  /** A handoff older than a worker's, of the same subscription, is with another worker or no longer in progress: it
      cannot be with a broadcaster or behind in the queue. */
  lemma OlderIsWithWorker(rooms: map<string, set<Client>>, f: Fanout, w: nat, id: nat) returns (v: nat)
    requires FanoutDelivery.Inv(rooms, f) && Ordered(f) && Newest(f)
    requires w < |f.workers| && f.workers[w].Sending? && id < f.workers[w].job.id < |f.log| && f.log[id].fate.Pending?
    requires SameVia(f.log[id].payload, f.log[f.workers[w].job.id].payload)
    ensures v < |f.workers| && f.workers[v].Sending? && f.workers[v].job.id == id
  {
    var h :| IdOf(f, h) == Some(id);
    assert Carries(f, h, id) && Carries(f, ByWorker(w), f.workers[w].job.id);
    OlderIsNotBehind(f, h, id, ByWorker(w), f.workers[w].job.id);
    v := h.w;
  }

  lemma OlderIsNotBehind(f: Fanout, h: Holder, id: nat, worker: Holder, newer: nat)
    requires Ordered(f) && Newest(f) && worker.ByWorker?
    requires Carries(f, h, id) && Carries(f, worker, newer) && id < newer
             && SameVia(f.log[id].payload, f.log[newer].payload)
    ensures h.ByWorker?
  {
    if h.InQueue? {
      QueueIsNewer(f, worker, newer, h, id);
    }
  }

  lemma QueueIsNewer(f: Fanout, h1: Holder, id1: nat, h2: Holder, id2: nat)
    requires Ordered(f) && Ahead(h1, h2) && Carries(f, h1, id1) && Carries(f, h2, id2)
    requires SameVia(f.log[id1].payload, f.log[id2].payload)
    ensures id1 < id2
  {
  }

  lemma WorkerOvertakesIff(rooms: map<string, set<Client>>, f: Fanout, w: nat, c: Client)
    requires FanoutDelivery.Inv(rooms, f) && Ordered(f) && Newest(f) && w < |f.workers| && f.workers[w].Sending?
    ensures Overtakes(f, f.workers[w].job, c) <==> BehindAWorker(f, f.workers[w].job, c)
  {
    var job := f.workers[w].job;
    WorkerOwes(rooms, f, w, c);
    if id: nat :| id < job.id && Owes(f, id, c) && SameVia(f.log[id].payload, job.payload) {
      var v := OlderIsWithWorker(rooms, f, w, id);
      WorkerOwes(rooms, f, v, c);
    }
    if v: nat :| YetToTry(f, v, c) && f.workers[v].job.id < job.id && SameVia(f.workers[v].job.payload, job.payload) {
      WorkerOwes(rooms, f, v, c);
      assert Owes(f, f.workers[v].job.id, c);
    }
  }

  /** A send to c overtakes an older message of its subscription, one that is yet to be tried on c, if and only if
      another worker holds that older message at that moment and has not reached c. */
  lemma SendOvertakesIff(codec: Codec, s: System, i: nat, w: nat, c: Client)
    requires Reachable(codec, s) && i < |s.servers|
    requires Enabled(s.servers[i].reg.rooms, s.servers[i].fan, WorkerSends(w))
    ensures Overtakes(s.servers[i].fan, s.servers[i].fan.workers[w].job, c)
            <==> BehindAWorker(s.servers[i].fan, s.servers[i].fan.workers[w].job, c)
  {
    ReachableOrder(codec, s, i);
    WorkerOvertakesIff(s.servers[i].reg.rooms, s.servers[i].fan, w, c);
  }

  // ---- when no send does ----

  predicate IsVia(p: Payload, k: nat) {
    p.Forwarded? && p.via == k
  }

  /** A worker takes a job of subscription k only when no other worker is in one. */
  predicate TakesAlone(f: Fanout, a: Action, k: nat) {
    a.WorkerTakes? && f.jobs != [] && IsVia(f.jobs[0].payload, k) ==>
      forall v | 0 <= v < |f.workers| && f.workers[v].Sending? :: !IsVia(f.workers[v].job.payload, k)
  }

  predicate StepTakesAlone(s: System, a: SystemAction, i: nat, k: nat) {
    a.Local? && a.i == i && i < |s.servers| && a.a.FanStep? ==> TakesAlone(s.servers[i].fan, a.a.a, k)
  }

  /** All along the run, server i's workers take the jobs of its subscription k one at a time. */
  predicate OneAtATime(codec: Codec, s: System, acts: seq<SystemAction>, i: nat, k: nat)
    decreases |acts|
  {
    acts != [] ==> SystemEnabled(s, acts[0]) && StepTakesAlone(s, acts[0], i, k)
                   && OneAtATime(codec, SystemNext(codec, s, acts[0]), acts[1..], i, k)
  }

  /** At most one worker is in a job of subscription k; tries through k are in the order of their handoffs, none beyond
      that worker's, and all before those in the queue. */
  ghost predicate InTurn(f: Fanout, k: nat) {
    && (forall v, w | 0 <= v < w < |f.workers| && f.workers[v].Sending? && f.workers[w].Sending?
                      && IsVia(f.workers[v].job.payload, k) :: !IsVia(f.workers[w].job.payload, k))
    && (forall a, b | 0 <= a < b < |f.attempts| && IsVia(f.attempts[a].payload, k) && IsVia(f.attempts[b].payload, k) ::
          f.attempts[a].id <= f.attempts[b].id)
    && (forall a, w | 0 <= a < |f.attempts| && 0 <= w < |f.workers| && f.workers[w].Sending?
                      && IsVia(f.attempts[a].payload, k) && IsVia(f.workers[w].job.payload, k) ::
          f.attempts[a].id <= f.workers[w].job.id)
    && (forall a, q | 0 <= a < |f.attempts| && 0 <= q < |f.jobs| && IsVia(f.attempts[a].payload, k)
        && IsVia(f.jobs[q].payload, k) ::
          f.attempts[a].id < f.jobs[q].id)
  }

  lemma TakeKeepsTurn(rooms: map<string, set<Client>>, f: Fanout, w: nat, k: nat)
    requires InTurn(f, k) && Enabled(rooms, f, WorkerTakes(w)) && TakesAlone(f, WorkerTakes(w), k)
    ensures InTurn(Next(rooms, f, WorkerTakes(w)), k)
  {
  }

  /** The worker's message is older than those of its subscription in the queue. */
  lemma WorkerBeforeQueue(rooms: map<string, set<Client>>, f: Fanout, w: nat, q: nat)
    requires FanoutSnapshots.Content(rooms, f) && Ordered(f)
    requires w < |f.workers| && f.workers[w].Sending? && q < |f.jobs|
             && SameVia(f.workers[w].job.payload, f.jobs[q].payload)
    ensures f.workers[w].job.id < f.jobs[q].id
  {
    assert FanoutSnapshots.WorkerOk(f.heap, f.log, f.workers[w]) && FanoutSnapshots.JobOk(f.heap, f.log, f.jobs[q]);
    assert Carries(f, ByWorker(w), f.workers[w].job.id) && Carries(f, InQueue(q), f.jobs[q].id);
    assert Ahead(ByWorker(w), InQueue(q));
  }

  lemma SendKeepsTurn(rooms: map<string, set<Client>>, f: Fanout, w: nat, k: nat)
    requires InTurn(f, k) && FanoutSnapshots.Content(rooms, f) && Ordered(f) && Enabled(rooms, f, WorkerSends(w))
    ensures InTurn(Next(rooms, f, WorkerSends(w)), k)
  {
    FanoutDelivery.SendTriesNext(rooms, f, w);
    var job := f.workers[w].job;
    forall q | 0 <= q < |f.jobs| && IsVia(job.payload, k) && IsVia(f.jobs[q].payload, k) ensures job.id < f.jobs[q].id {
      WorkerBeforeQueue(rooms, f, w, q);
    }
    TurnAfterTry(f, Next(rooms, f, WorkerSends(w)), w, k);
  }

  lemma TurnAfterTry(f: Fanout, f': Fanout, w: nat, k: nat)
    requires InTurn(f, k) && w < |f.workers| && f.workers[w].Sending?
    requires |f'.attempts| == |f.attempts| + 1 && f'.attempts[..|f.attempts|] == f.attempts && f'.jobs == f.jobs
    requires f'.attempts[|f.attempts|].id == f.workers[w].job.id
             && f'.attempts[|f.attempts|].payload == f.workers[w].job.payload
    requires |f'.workers| == |f.workers| && f'.workers[w].Sending? && f'.workers[w].job == f.workers[w].job
    requires forall v | 0 <= v < |f.workers| && v != w :: f'.workers[v] == f.workers[v]
    requires forall q | 0 <= q < |f.jobs| && IsVia(f.workers[w].job.payload, k) && IsVia(f.jobs[q].payload, k) ::
               f.workers[w].job.id < f.jobs[q].id
    ensures InTurn(f', k)
  {
    assert forall a | 0 <= a < |f.attempts| :: f'.attempts[a] == f.attempts[a];
  }

  /** A handoff still with its broadcaster has been tried on nobody, so every try through its subscription is older. */
  lemma TriesBeforeCaller(rooms: map<string, set<Client>>, f: Fanout, i: nat, id: nat, a: nat)
    requires FanoutDelivery.Inv(rooms, f) && Newest(f) && Carries(f, ByCaller(i), id) && a < |f.attempts|
    requires SameVia(f.attempts[a].payload, f.log[id].payload)
    ensures f.attempts[a].id < id
  {
    HubTheorems.AttemptsHitMembers(rooms, f, a);
    FanoutDelivery.AttemptWasVisit(f.attempts, a);
    assert FanoutDelivery.HolderVisited(f, ByCaller(i));
  }

  lemma DispatchKeepsTurn(rooms: map<string, set<Client>>, f: Fanout, i: nat, k: nat)
    requires InTurn(f, k) && FanoutDelivery.Inv(rooms, f) && Newest(f) && Enabled(rooms, f, Dispatch(i))
    ensures InTurn(Next(rooms, f, Dispatch(i)), k)
  {
    var c := f.callers[i];
    assert FanoutSnapshots.CallerOk(rooms, f.heap, f.log, c);
    assert Carries(f, ByCaller(i), c.id);
    forall a | 0 <= a < |f.attempts| && IsVia(f.attempts[a].payload, k) && IsVia(c.payload, k)
      ensures f.attempts[a].id < c.id {
      TriesBeforeCaller(rooms, f, i, c.id, a);
    }
    TurnAfterDispatch(f, Next(rooms, f, Dispatch(i)), Job(c.slice, c.payload, c.id), k);
  }

  lemma TurnAfterDispatch(f: Fanout, f': Fanout, job: Job, k: nat)
    requires InTurn(f, k) && f'.attempts == f.attempts && f'.workers == f.workers
    requires f'.jobs == f.jobs || f'.jobs == f.jobs + [job]
    requires forall a | 0 <= a < |f.attempts| && IsVia(f.attempts[a].payload, k) && IsVia(job.payload, k) ::
               f.attempts[a].id < job.id
    ensures InTurn(f', k)
  {
  }

  lemma OthersKeepTurn(rooms: map<string, set<Client>>, f: Fanout, a: Action, k: nat)
    requires InTurn(f, k) && Enabled(rooms, f, a) && !a.Dispatch? && !a.WorkerTakes? && !a.WorkerSends?
    ensures InTurn(Next(rooms, f, a), k)
  {
    var f' := Next(rooms, f, a);
    FanoutDelivery.AttemptsStay(rooms, f, a);
    if a.WorkerReturns? {
      assert f'.jobs == f.jobs && f'.workers == f.workers[a.w := Idle];
    } else {
      QueueStays(rooms, f, a);
    }
  }

  lemma QueueStays(rooms: map<string, set<Client>>, f: Fanout, a: Action)
    requires Enabled(rooms, f, a) && !a.Dispatch? && !OfWorker(a)
    ensures Next(rooms, f, a).jobs == f.jobs && Next(rooms, f, a).workers == f.workers
  {
  }

  lemma FanKeepsTurn(rooms: map<string, set<Client>>, f: Fanout, a: Action, k: nat)
    requires InTurn(f, k) && FanoutDelivery.Inv(rooms, f) && Ordered(f) && Newest(f) && Enabled(rooms, f, a)
             && TakesAlone(f, a, k)
    ensures InTurn(Next(rooms, f, a), k)
  {
    if a.WorkerTakes? {
      TakeKeepsTurn(rooms, f, a.w, k);
    } else if a.WorkerSends? {
      SendKeepsTurn(rooms, f, a.w, k);
    } else if a.Dispatch? {
      DispatchKeepsTurn(rooms, f, a.i, k);
    } else {
      OthersKeepTurn(rooms, f, a, k);
    }
  }

  lemma OutsideKeepsTurn(i: nat, srv: Server, a: LocalAction, k: nat)
    requires InTurn(srv.fan, k) && LocalEnabled(i, srv, a) && !a.FanStep?
    ensures InTurn(LocalNext(i, srv, a).fan, k)
  {
    var f' := LocalNext(i, srv, a).fan;
    assert f'.jobs == srv.fan.jobs && f'.workers == srv.fan.workers && f'.attempts == srv.fan.attempts;
  }

  lemma StepKeepsTurn(codec: Codec, s: System, a: SystemAction, i: nat, k: nat)
    requires HubSystem.Inv(codec, s) && AllOrdered(s) && SystemEnabled(s, a) && i < |s.servers|
    requires InTurn(s.servers[i].fan, k) && StepTakesAlone(s, a, i, k)
    ensures i < |SystemNext(codec, s, a).servers| && InTurn(SystemNext(codec, s, a).servers[i].fan, k)
  {
    if a.Local? && a.i == i {
      if a.a.FanStep? {
        assert HubSafety.ServerOk(i, s.servers[i]);
        FanKeepsTurn(s.servers[i].reg.rooms, s.servers[i].fan, a.a.a, k);
      } else {
        OutsideKeepsTurn(i, s.servers[i], a.a, k);
      }
    } else if !a.Local? {
      RemoteFollows(codec, s, a, i);
    }
  }

  lemma {:induction false} RunKeepsTurn(codec: Codec, s: System, acts: seq<SystemAction>, t: System, i: nat, k: nat)
    requires HubSystem.Inv(codec, s) && AllOrdered(s) && i < |s.servers| && InTurn(s.servers[i].fan, k)
    requires Run(codec, s, acts, t) && OneAtATime(codec, s, acts, i, k)
    ensures HubSystem.Inv(codec, t) && AllOrdered(t) && i < |t.servers| && InTurn(t.servers[i].fan, k)
    decreases |acts|
  {
    if acts != [] {
      StepKeepsTurn(codec, s, acts[0], i, k);
      StepKeepsOrder(codec, s, acts[0]);
      HubSystem.StepKeeps(codec, s, acts[0]);
      RunKeepsTurn(codec, SystemNext(codec, s, acts[0]), acts[1..], t, i, k);
    }
  }

  lemma TriesInOrder(i: nat, srv: Server, k: nat, a: nat, b: nat)
    requires HubSafety.ServerOk(i, srv) && OrderOk(srv) && InTurn(srv.fan, k) && a < b < |srv.fan.attempts|
    requires IsVia(srv.fan.attempts[a].payload, k) && IsVia(srv.fan.attempts[b].payload, k)
    requires srv.fan.attempts[a].client == srv.fan.attempts[b].client
    ensures k < |srv.subs|
    ensures Precedes(srv.subs[k].forwarded, srv.fan.attempts[a].payload.post, srv.fan.attempts[b].payload.post)
  {
    var f := srv.fan;
    HubTheorems.AttemptsHitMembers(srv.reg.rooms, f, a);
    HubTheorems.AttemptsHitMembers(srv.reg.rooms, f, b);
    if f.attempts[a].payload == f.attempts[b].payload {
      HubTheorems.AttemptsApart(i, srv, a, b);
    }
    assert HubSafety.HandoffOk(srv, f.log[f.attempts[a].id]);
    assert f.attempts[a].id < f.attempts[b].id;
  }

  lemma StartsInTurn(s: System, i: nat, k: nat)
    requires HubSystem.Unstarted(s) && i < |s.servers|
    ensures InTurn(s.servers[i].fan, k)
  {
    assert FanoutDelivery.Unused(InitServer().fan);
  }

  lemma EndsInTurn(codec: Codec, s: System, acts: seq<SystemAction>, t: System, i: nat, k: nat)
    requires HubSystem.Unstarted(s) && Run(codec, s, acts, t) && i < |s.servers| && OneAtATime(codec, s, acts, i, k)
    ensures i < |t.servers| && HubSystem.Inv(codec, t) && AllOrdered(t) && InTurn(t.servers[i].fan, k)
  {
    HubSystem.InitOk(codec, s);
    StartsOrdered(s);
    StartsInTurn(s, i, k);
    RunKeepsTurn(codec, s, acts, t, i, k);
  }

  lemma OfInv(codec: Codec, s: System, i: nat)
    requires HubSystem.Inv(codec, s) && AllOrdered(s) && i < |s.servers|
    ensures HubSafety.ServerOk(i, s.servers[i]) && OrderOk(s.servers[i])
  {
  }

  /** Along any run in which the workers of a server take a subscription's jobs one at a time, every client is tried
      with that subscription's messages in the order in which it forwarded them. */
  lemma OneAtATimeKeepsOrder(codec: Codec, n: nat, acts: seq<SystemAction>, s: System, i: nat, k: nat, a: nat, b: nat)
    requires Run(codec, InitSystem(n), acts, s) && i < n && OneAtATime(codec, InitSystem(n), acts, i, k)
    requires i < |s.servers| && a < b < |s.servers[i].fan.attempts|
    requires IsVia(s.servers[i].fan.attempts[a].payload, k) && IsVia(s.servers[i].fan.attempts[b].payload, k)
    requires s.servers[i].fan.attempts[a].client == s.servers[i].fan.attempts[b].client
    ensures k < |s.servers[i].subs|
    ensures Precedes(s.servers[i].subs[k].forwarded, s.servers[i].fan.attempts[a].payload.post,
                     s.servers[i].fan.attempts[b].payload.post)
  {
    EndsInTurn(codec, InitSystem(n), acts, s, i, k);
    OfInv(codec, s, i);
    TriesInOrder(i, s.servers[i], k, a, b);
  }
}

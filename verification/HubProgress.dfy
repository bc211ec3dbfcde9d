/** How the system can go on from any reachable state: fan-out comes to rest, subscriptions return and forward what
    they have, clients join, and calls are served to the last member. */
module HubProgress {
  import opened Wire
  import Registry
  import opened Fanout
  import FanoutProgress
  import FanoutDelivery
  import FanoutSafety
  import FanoutSnapshots
  import opened Hub
  import HubSafety
  import HubSystem
  import HubWitnesses

  // ---- going on ----

  ghost predicate LeadsTo(codec: Codec, s: System, t: System) {
    exists acts :: Run(codec, s, acts, t)
  }

  lemma GoesOn(codec: Codec, s0: System, s: System, a: SystemAction)
    requires Reachable(codec, s0) && LeadsTo(codec, s0, s) && SystemEnabled(s, a)
    ensures LeadsTo(codec, s0, SystemNext(codec, s, a))
  {
    var acts :| Run(codec, s0, acts, s);
    HubWitnesses.RunSnoc(codec, s0, acts, s, a);
  }

  lemma {:induction false} StaysReachable(codec: Codec, s0: System, acts: seq<SystemAction>, s: System)
    requires Reachable(codec, s0) && Run(codec, s0, acts, s)
    ensures Reachable(codec, s)
    decreases |acts|
  {
    if acts != [] {
      HubWitnesses.ReachableStep(codec, s0, acts[0]);
      StaysReachable(codec, SystemNext(codec, s0, acts[0]), acts[1..], s);
    }
  }

  lemma FanIsSound(codec: Codec, s0: System, s: System, j: nat)
    requires Reachable(codec, s0) && LeadsTo(codec, s0, s) && j < |s.servers|
    ensures FanoutDelivery.Inv(s.servers[j].reg.rooms, s.servers[j].fan) && !s.servers[j].fan.nilDereference
    ensures HubSafety.RegistryOk(j, s.servers[j])
  {
    var acts :| Run(codec, s0, acts, s);
    StaysReachable(codec, s0, acts, s);
    HubSystem.ReachableInv(codec, s);
    assert HubSafety.ServerOk(j, s.servers[j]);
    assert FanoutSnapshots.Content(s.servers[j].reg.rooms, s.servers[j].fan);
  }

  lemma HasWorkers(codec: Codec, s0: System, s: System, j: nat)
    requires Reachable(codec, s0) && LeadsTo(codec, s0, s) && j < |s.servers|
    ensures 2 <= |s.servers[j].fan.workers|
  {
    FanIsSound(codec, s0, s, j);
  }

  lemma LocalGoesOn(codec: Codec, s0: System, s: System, j: nat, a: LocalAction)
    requires Reachable(codec, s0) && LeadsTo(codec, s0, s) && j < |s.servers| && LocalEnabled(j, s.servers[j], a)
    ensures LeadsTo(codec, s0, SetServer(s, j, LocalNext(j, s.servers[j], a)))
  {
    GoesOn(codec, s0, s, Local(j, a));
  }

  /** A run of the fan-out alone is a run of the system. */
  lemma {:induction false} PathGoesOn(codec: Codec, s0: System, s: System, j: nat, states: seq<Fanout>, g: Fanout)
    requires Reachable(codec, s0) && LeadsTo(codec, s0, s) && j < |s.servers|
    requires FanoutProgress.Path(s.servers[j].reg.rooms, s.servers[j].fan, states, g)
    ensures LeadsTo(codec, s0, SetServer(s, j, s.servers[j].(fan := g)))
    decreases |states|
  {
    if |states| == 1 {
      assert SetServer(s, j, s.servers[j].(fan := g)) == s;
    } else {
      var rooms, f := s.servers[j].reg.rooms, s.servers[j].fan;
      assert FanoutProgress.Moves(rooms, states[0], states[1]);
      var a :| FanoutProgress.StepsTo(rooms, f, a, states[1]);
      LocalGoesOn(codec, s0, s, j, FanStep(a));
      var s1 := SetServer(s, j, s.servers[j].(fan := states[1]));
      TailIsPath(rooms, f, states, g);
      PathGoesOn(codec, s0, s1, j, states[1..], g);
      assert SetServer(s1, j, s1.servers[j].(fan := g)) == SetServer(s, j, s.servers[j].(fan := g));
    }
  }

  lemma TailIsPath(rooms: map<string, set<Client>>, f: Fanout, states: seq<Fanout>, g: Fanout)
    requires FanoutProgress.Path(rooms, f, states, g) && 2 <= |states|
    ensures FanoutProgress.Path(rooms, states[1], states[1..], g)
  {
    forall i | 0 <= i < |states[1..]| - 1 ensures FanoutProgress.Moves(rooms, states[1..][i], states[1..][i + 1]) {
      assert FanoutProgress.Moves(rooms, states[i + 1], states[i + 1 + 1]);
    }
  }

  lemma FanGoesOn(codec: Codec, s0: System, s: System, j: nat, g: Fanout) returns (t: System)
    requires Reachable(codec, s0) && LeadsTo(codec, s0, s) && j < |s.servers|
    requires FanoutProgress.Leads(s.servers[j].reg.rooms, s.servers[j].fan, g)
    ensures LeadsTo(codec, s0, t) && t == SetServer(s, j, s.servers[j].(fan := g))
  {
    var states :| FanoutProgress.Path(s.servers[j].reg.rooms, s.servers[j].fan, states, g);
    PathGoesOn(codec, s0, s, j, states, g);
    t := SetServer(s, j, s.servers[j].(fan := g));
  }

  // ---- small facts of every run ----

  /** A subscription that waits for its call waits for a broadcaster there is, one that has not begun to listen has
      heard nothing, and only clients that registered were ever snapshotted. */
  ghost predicate Tidy(srv: Server) {
    && (forall k | 0 <= k < |srv.subs| && srv.subs[k].phase.Forwarding? :: srv.subs[k].phase.slot < |srv.fan.callers|)
    && (forall k | 0 <= k < |srv.subs| && srv.subs[k].phase.Starting? :: srv.subs[k].inbox == [])
    && (forall id | 0 <= id < |srv.fan.log| :: srv.fan.log[id].members <= srv.seen)
    && (forall room | room in srv.reg.rooms :: srv.reg.rooms[room] <= srv.seen)
  }

  ghost predicate AllTidy(s: System) {
    forall i | 0 <= i < |s.servers| :: Tidy(s.servers[i])
  }

  lemma FanKeepsTidy(srv: Server, a: Action)
    requires Tidy(srv) && Enabled(srv.reg.rooms, srv.fan, a)
    ensures Tidy(srv.(fan := Next(srv.reg.rooms, srv.fan, a)))
  {
    FanoutSafety.LogMoves(srv.reg.rooms, srv.fan, a);
    CallersStay(srv.reg.rooms, srv.fan, a);
  }

  lemma CallersStay(rooms: map<string, set<Client>>, f: Fanout, a: Action)
    requires Enabled(rooms, f, a)
    ensures |f.callers| <= |Next(rooms, f, a).callers|
  {
    if FanoutSafety.OfWorker(a) {
      HubSafety.WorkerStepCalls(rooms, f, a);
    } else if a.Append? || a.Dispatch? {
      HandOverStepCallers(rooms, f, a);
    } else {
      OtherStepCallers(rooms, f, a);
    }
  }

  lemma HandOverStepCallers(rooms: map<string, set<Client>>, f: Fanout, a: Action)
    requires Enabled(rooms, f, a) && (a.Append? || a.Dispatch?)
    ensures |Next(rooms, f, a).callers| == |f.callers|
  {
  }

  lemma OtherStepCallers(rooms: map<string, set<Client>>, f: Fanout, a: Action)
    requires Enabled(rooms, f, a) && !FanoutSafety.OfWorker(a) && !a.Append? && !a.Dispatch?
    ensures |f.callers| <= |Next(rooms, f, a).callers|
  {
  }

  lemma LocalKeepsTidy(i: nat, srv: Server, a: LocalAction)
    requires Tidy(srv) && LocalEnabled(i, srv, a)
    ensures Tidy(LocalNext(i, srv, a))
  {
    if a.FanStep? {
      FanKeepsTidy(srv, a.a);
    } else if a.Connect? {
      var reg' := Registry.Register(RoomOf, srv.reg, a.c);
      forall room | room in reg'.rooms ensures reg'.rooms[room] <= srv.seen + {a.c} {
      }
    }
  }

  lemma StepKeepsTidy(codec: Codec, s: System, a: SystemAction)
    requires SystemEnabled(s, a) && AllTidy(s)
    ensures AllTidy(SystemNext(codec, s, a))
  {
    if a.Local? {
      LocalKeepsTidy(a.i, s.servers[a.i], a.a);
    }
  }

  lemma {:induction false} RunKeepsTidy(codec: Codec, s: System, acts: seq<SystemAction>, t: System)
    requires Run(codec, s, acts, t) && AllTidy(s)
    ensures AllTidy(t)
    decreases |acts|
  {
    if acts != [] {
      StepKeepsTidy(codec, s, acts[0]);
      RunKeepsTidy(codec, SystemNext(codec, s, acts[0]), acts[1..], t);
    }
  }

  lemma ReachableTidy(codec: Codec, s: System, j: nat)
    requires Reachable(codec, s) && j < |s.servers|
    ensures Tidy(s.servers[j])
  {
    var n: nat, acts :| Run(codec, InitSystem(n), acts, s);
    RunKeepsTidy(codec, InitSystem(n), acts, s);
  }

  lemma StaysTidy(codec: Codec, s0: System, s: System, j: nat)
    requires Reachable(codec, s0) && LeadsTo(codec, s0, s) && j < |s.servers|
    ensures Tidy(s.servers[j])
  {
    var acts :| Run(codec, s0, acts, s);
    StaysReachable(codec, s0, acts, s);
    ReachableTidy(codec, s, j);
  }

  // ---- a server comes to rest ----

  /** Same registry, and fan-out has gone on without dropping anything. */
  ghost predicate Served(srv: Server, srv': Server) {
    srv'.reg == srv.reg && srv'.seen == srv.seen && |srv'.subs| == |srv.subs|
      && FanoutProgress.Onward(srv.fan, srv'.fan)
  }

  lemma ServedOn(s1: Server, s2: Server, s3: Server)
    requires Served(s1, s2) && Served(s2, s3)
    ensures Served(s1, s3)
  {
    FanoutProgress.OnwardOn(s1.fan, s2.fan, s3.fan);
  }

  /** Worker u serves whatever is in progress; the other workers stand still. */
  lemma ComeToRest(codec: Codec, s0: System, s: System, j: nat, u: nat) returns (t: System)
    requires Reachable(codec, s0) && LeadsTo(codec, s0, s) && j < |s.servers| && u < |s.servers[j].fan.workers|
    ensures LeadsTo(codec, s0, t) && |t.servers| == |s.servers| && t.posts == s.posts
    ensures t.servers[j] == s.servers[j].(fan := t.servers[j].fan) && Served(s.servers[j], t.servers[j])
    ensures FanoutProgress.Quiet(t.servers[j].fan, u)
            && t.servers[j].fan.workers == s.servers[j].fan.workers[u := Idle]
  {
    FanIsSound(codec, s0, s, j);
    var g := FanoutProgress.Calm(s.servers[j].reg.rooms, s.servers[j].fan, u);
    t := FanGoesOn(codec, s0, s, j, g);
  }

  lemma Return(codec: Codec, s0: System, s: System, j: nat, u: nat, k: nat) returns (t: System)
    requires Reachable(codec, s0) && LeadsTo(codec, s0, s) && j < |s.servers|
    requires FanoutProgress.Quiet(s.servers[j].fan, u) && k < |s.servers[j].subs|
    requires s.servers[j].subs[k].phase.Listening? || s.servers[j].subs[k].phase.Forwarding?
    ensures LeadsTo(codec, s0, t) && |t.servers| == |s.servers| && t.posts == s.posts
    ensures t.servers[j] == SetSub(s.servers[j], k, s.servers[j].subs[k].(phase := Listening))
  {
    if s.servers[j].subs[k].phase.Forwarding? {
      StaysTidy(codec, s0, s, j);
      LocalGoesOn(codec, s0, s, j, SubReturns(k));
      t := SetServer(s, j, LocalNext(j, s.servers[j], SubReturns(k)));
    } else {
      t := s;
    }
  }

  // ---- clients join ----

  /** The manager loop comes back to its select. */
  lemma LoopSelects(codec: Codec, s0: System, s: System, j: nat) returns (t: System)
    requires Reachable(codec, s0) && LeadsTo(codec, s0, s) && j < |s.servers|
    ensures LeadsTo(codec, s0, t) && |t.servers| == |s.servers| && t.posts == s.posts
    ensures var srv, srv' := s.servers[j], t.servers[j];
            srv'.loop.Selecting? && srv'.subs == srv.subs && srv'.fan == srv.fan && srv'.reg == srv.reg
              && srv'.seen == srv.seen
  {
    t := s;
    if t.servers[j].loop.Pushing? {
      LocalGoesOn(codec, s0, t, j, LoopPushes);
      t := SetServer(t, j, LocalNext(j, t.servers[j], LoopPushes));
    }
    if t.servers[j].loop.Publishing? {
      t := PublishToNone(codec, s0, t, j);
    }
  }

  /** A publication that every subscription loses. */
  lemma PublishToNone(codec: Codec, s0: System, s: System, j: nat) returns (t: System)
    requires Reachable(codec, s0) && LeadsTo(codec, s0, s) && j < |s.servers| && s.servers[j].loop.Publishing?
    ensures LeadsTo(codec, s0, t) && |t.servers| == |s.servers| && t.posts == s.posts
    ensures var srv, srv' := s.servers[j], t.servers[j];
            srv'.loop.Selecting? && srv'.subs == srv.subs && srv'.fan == srv.fan && srv'.reg == srv.reg
              && srv'.seen == srv.seen
  {
    assert s.servers[j].loop.post < |s.posts| by {
      var acts :| Run(codec, s0, acts, s);
      StaysReachable(codec, s0, acts, s);
      HubSystem.ReachableInv(codec, s);
      HubSystem.PublishesOnce(codec, s, j);
    }
    var receivers: seq<set<nat>> := seq(|s.servers|, n => {});
    GoesOn(codec, s0, s, Publish(j, receivers));
    t := PublishNext(s, j, receivers);
    assert t.servers[j].subs == s.servers[j].subs;
  }

  lemma {:induction false} FreshNumber(xs: set<Client>) returns (n: nat)
    ensures forall c | c in xs :: c.conn < n
    decreases xs
  {
    if xs == {} {
      n := 0;
    } else {
      var c :| c in xs;
      n := FreshNumber(xs - {c});
      n := if c.conn < n then n else c.conn + 1;
    }
  }

  /** c is in its room of server j, or never was there and may yet join it. */
  predicate NotLeft(j: nat, srv: Server, c: Client) {
    c.server == j && (c in srv.reading || c !in srv.seen)
  }

  /** Clients may have joined. */
  ghost predicate Joined(srv: Server, srv': Server) {
    && srv'.fan == srv.fan
    && |srv.subs| <= |srv'.subs| && srv'.subs[..|srv.subs|] == srv.subs
    && |srv.reg.contexts| <= |srv'.reg.contexts|
    && forall k | 0 <= k < |srv.reg.contexts| :: srv'.reg.contexts[k].room == srv.reg.contexts[k].room
  }

  lemma Join(codec: Codec, s0: System, s: System, j: nat, c: Client) returns (t: System)
    requires Reachable(codec, s0) && LeadsTo(codec, s0, s) && j < |s.servers| && NoReaders(s.servers[j].fan)
    requires NotLeft(j, s.servers[j], c)
    ensures LeadsTo(codec, s0, t) && |t.servers| == |s.servers| && t.posts == s.posts
    ensures Joined(s.servers[j], t.servers[j])
    ensures c.room in t.servers[j].reg.rooms && c in t.servers[j].reg.rooms[c.room]
  {
    if c in s.servers[j].reading {
      FanIsSound(codec, s0, s, j);
      t := s;
      assert RoomOf(c) in s.servers[j].reg.rooms && c in s.servers[j].reg.rooms[RoomOf(c)];
    } else {
      var s1 := LoopSelects(codec, s0, s, j);
      LocalGoesOn(codec, s0, s1, j, Connect(c));
      t := SetServer(s1, j, LocalNext(j, s1.servers[j], Connect(c)));
      HubSafety.ContextsKeepRooms(s1.servers[j].reg, Registry.Joined(c));
    }
  }

  /** Someone is in the room, or can join it. */
  lemma Anyone(codec: Codec, s0: System, s: System, j: nat, room: string) returns (c: Client)
    requires Reachable(codec, s0) && LeadsTo(codec, s0, s) && j < |s.servers|
    ensures c.room == room && NotLeft(j, s.servers[j], c)
  {
    var n := FreshNumber(s.servers[j].seen);
    c := Client(j, n, 0, room);
  }

  lemma SomeoneIsThere(codec: Codec, s0: System, s: System, j: nat, room: string) returns (t: System, c: Client)
    requires Reachable(codec, s0) && LeadsTo(codec, s0, s) && j < |s.servers| && NoReaders(s.servers[j].fan)
    ensures LeadsTo(codec, s0, t) && |t.servers| == |s.servers| && t.posts == s.posts
    ensures Joined(s.servers[j], t.servers[j])
    ensures room in t.servers[j].reg.rooms && c in t.servers[j].reg.rooms[room]
  {
    c := Anyone(codec, s0, s, j, room);
    t := Join(codec, s0, s, j, c);
  }

  // ---- a subscription forwards ----

  /** No call is in progress and worker u is free, c is in the room subscription k serves, and k listens. */
  ghost predicate Poised(srv: Server, u: nat, k: nat, c: Client) {
    && FanoutProgress.Quiet(srv.fan, u) && k < |srv.subs| && k < |srv.reg.contexts| && srv.subs[k].phase.Listening?
    && srv.reg.contexts[k].room in srv.reg.rooms && c in srv.reg.rooms[srv.reg.contexts[k].room]
  }

  /** c was tried with post p as forwarded by subscription k. */
  ghost predicate Tried(f: Fanout, c: Client, k: nat, p: nat) {
    exists a :: 0 <= a < |f.attempts| && f.attempts[a].client == c && f.attempts[a].payload == Forwarded(k, p)
  }

  lemma TriedStays(f: Fanout, g: Fanout, c: Client, k: nat, p: nat)
    requires Tried(f, c, k, p) && f.attempts <= g.attempts
    ensures Tried(g, c, k, p)
  {
    var a :| 0 <= a < |f.attempts| && f.attempts[a].client == c && f.attempts[a].payload == Forwarded(k, p);
    assert g.attempts[a] == f.attempts[a];
  }

  /** Subscription k, and no other, went on, and it has as much of its inbox left as from place n. */
  ghost predicate OnlySub(srv: Server, srv': Server, k: nat, n: nat) {
    && |srv'.subs| == |srv.subs| && k < |srv.subs| && n <= |srv.subs[k].inbox|
    && srv'.subs[k].inbox == srv.subs[k].inbox[n..]
    && forall l | 0 <= l < |srv.subs| && l != k :: srv'.subs[l] == srv.subs[l]
  }

  lemma NewSlot(codec: Codec, s0: System, s: System, j: nat, u: nat) returns (t: System)
    requires Reachable(codec, s0) && LeadsTo(codec, s0, s) && j < |s.servers|
    requires FanoutProgress.Quiet(s.servers[j].fan, u)
    ensures LeadsTo(codec, s0, t) && |t.servers| == |s.servers| && t.posts == s.posts
    ensures t.servers[j] == s.servers[j].(fan := s.servers[j].fan.(callers := s.servers[j].fan.callers + [Free]))
    ensures SlotFree(t.servers[j], |s.servers[j].fan.callers|)
  {
    FanIsSound(codec, s0, s, j);
    StaysTidy(codec, s0, s, j);
    LocalGoesOn(codec, s0, s, j, FanStep(Spawn));
    t := SetServer(s, j, LocalNext(j, s.servers[j], FanStep(Spawn)));
  }

  /** The call in a slot is served by worker u, and c is tried. */
  lemma ServeCall(codec: Codec, s0: System, s: System, j: nat, u: nat, slot: nat, c: Client, k: nat, p: nat)
    returns (t: System)
    requires Reachable(codec, s0) && LeadsTo(codec, s0, s) && j < |s.servers|
    requires FanoutProgress.AtRest(s.servers[j].fan, u) && slot < |s.servers[j].fan.callers|
    requires forall i | 0 <= i < |s.servers[j].fan.callers| && i != slot :: s.servers[j].fan.callers[i].Free?
    requires s.servers[j].fan.callers[slot].Called? && s.servers[j].fan.callers[slot].payload == Forwarded(k, p)
    requires s.servers[j].fan.callers[slot].room in s.servers[j].reg.rooms
    requires c in s.servers[j].reg.rooms[s.servers[j].fan.callers[slot].room]
    ensures LeadsTo(codec, s0, t) && |t.servers| == |s.servers| && t.posts == s.posts
    ensures t.servers[j] == s.servers[j].(fan := t.servers[j].fan) && Served(s.servers[j], t.servers[j])
    ensures FanoutProgress.Quiet(t.servers[j].fan, u) && t.servers[j].fan.workers == s.servers[j].fan.workers
    ensures |t.servers[j].fan.callers| == |s.servers[j].fan.callers| && Tried(t.servers[j].fan, c, k, p)
  {
    FanIsSound(codec, s0, s, j);
    var rooms, f := s.servers[j].reg.rooms, s.servers[j].fan;
    var g := FanoutProgress.CallIsServed(rooms, f, u, slot);
    t := FanGoesOn(codec, s0, s, j, g);
    var a := FanoutProgress.FinishedHasTried(rooms, g, |f.log|, c);
  }

  lemma TakesNext(codec: Codec, s0: System, s: System, j: nat, u: nat, k: nat, c: Client) returns (t: System)
    requires Reachable(codec, s0) && LeadsTo(codec, s0, s) && j < |s.servers| && Poised(s.servers[j], u, k, c)
    requires s.servers[j].subs[k].inbox != []
    ensures LeadsTo(codec, s0, t) && |t.servers| == |s.servers| && t.posts == s.posts
    ensures var srv, srv', slot := s.servers[j], t.servers[j], |s.servers[j].fan.callers|;
            && srv'.fan == srv.fan.(callers := srv.fan.callers
                                             + [Called(srv.reg.contexts[k].room, Forwarded(k, srv.subs[k].inbox[0]))])
            && srv' == srv.(fan := srv'.fan, subs := srv'.subs) && OnlySub(srv, srv', k, 1)
            && srv'.subs[k].phase == Forwarding(slot)
  {
    var slot := |s.servers[j].fan.callers|;
    var s1 := NewSlot(codec, s0, s, j, u);
    LocalGoesOn(codec, s0, s1, j, SubForwards(k, slot));
    t := SetServer(s1, j, LocalNext(j, s1.servers[j], SubForwards(k, slot)));
  }

  /** Subscription k takes its oldest message, c is tried with it, and k listens again. */
  lemma ForwardNext(codec: Codec, s0: System, s: System, j: nat, u: nat, k: nat, c: Client) returns (t: System)
    requires Reachable(codec, s0) && LeadsTo(codec, s0, s) && j < |s.servers| && Poised(s.servers[j], u, k, c)
    requires s.servers[j].subs[k].inbox != []
    ensures LeadsTo(codec, s0, t) && |t.servers| == |s.servers| && t.posts == s.posts
    ensures Poised(t.servers[j], u, k, c) && Served(s.servers[j], t.servers[j])
    ensures t.servers[j].fan.workers == s.servers[j].fan.workers && OnlySub(s.servers[j], t.servers[j], k, 1)
    ensures Tried(t.servers[j].fan, c, k, s.servers[j].subs[k].inbox[0])
  {
    var p := s.servers[j].subs[k].inbox[0];
    var s1 := TakesNext(codec, s0, s, j, u, k, c);
    var s2 := ServeCall(codec, s0, s1, j, u, |s.servers[j].fan.callers|, c, k, p);
    t := Return(codec, s0, s2, j, u, k);
    TriedStays(s2.servers[j].fan, t.servers[j].fan, c, k, p);
    assert FanoutProgress.Onward(s.servers[j].fan, s1.servers[j].fan);
    FanoutProgress.OnwardOn(s.servers[j].fan, s1.servers[j].fan, t.servers[j].fan);
  }

  /** The messages before p are forwarded, and p is next. */
  lemma {:induction false} ForwardUpTo(codec: Codec, s0: System, s: System, j: nat, u: nat, k: nat, c: Client, p: nat)
    returns (t: System, n: nat)
    requires Reachable(codec, s0) && LeadsTo(codec, s0, s) && j < |s.servers| && Poised(s.servers[j], u, k, c)
    requires p in s.servers[j].subs[k].inbox
    ensures LeadsTo(codec, s0, t) && |t.servers| == |s.servers| && t.posts == s.posts
    ensures Poised(t.servers[j], u, k, c) && Served(s.servers[j], t.servers[j])
    ensures t.servers[j].fan.workers == s.servers[j].fan.workers
    ensures OnlySub(s.servers[j], t.servers[j], k, n) && n < |s.servers[j].subs[k].inbox|
            && s.servers[j].subs[k].inbox[n] == p
    decreases |s.servers[j].subs[k].inbox|
  {
    if s.servers[j].subs[k].inbox[0] == p {
      t, n := s, 0;
    } else {
      var s1 := ForwardNext(codec, s0, s, j, u, k, c);
      t, n := ForwardUpTo(codec, s0, s1, j, u, k, c, p);
      ServedOn(s.servers[j], s1.servers[j], t.servers[j]);
      n := n + 1;
    }
  }

  lemma ForwardUntil(codec: Codec, s0: System, s: System, j: nat, u: nat, k: nat, c: Client, p: nat)
    returns (t: System)
    requires Reachable(codec, s0) && LeadsTo(codec, s0, s) && j < |s.servers| && Poised(s.servers[j], u, k, c)
    requires p in s.servers[j].subs[k].inbox
    ensures LeadsTo(codec, s0, t) && |t.servers| == |s.servers| && t.posts == s.posts
    ensures Poised(t.servers[j], u, k, c) && Served(s.servers[j], t.servers[j])
    ensures t.servers[j].fan.workers == s.servers[j].fan.workers
    ensures forall l | 0 <= l < |s.servers[j].subs| && l != k :: t.servers[j].subs[l] == s.servers[j].subs[l]
    ensures Tried(t.servers[j].fan, c, k, p)
  {
    var s1, n := ForwardUpTo(codec, s0, s, j, u, k, c, p);
    t := ForwardNext(codec, s0, s1, j, u, k, c);
    ServedOn(s.servers[j], s1.servers[j], t.servers[j]);
  }
}

# Live-stream danmaku: a verified model

A Dafny model of the live-stream danmaku backend: WebSocket servers that fan messages out to rooms through Redis
pub/sub, a Kafka consumer that batches messages into a database, and the like and online counters the servers share
in Redis.  `dafny verify dfyconfig.toml` checks everything.

## What is modelled

**The Kafka-to-database pipeline** (`internal/consumer/handler.go`).  `ConsumerSession` is an interleaved step relation:
any number of `ConsumeClaim` loops, the bounded `msgChan`, one `dbWorker` with its four ways to flush or leave, the
retry loop, and the session life cycle (`Setup`, `Cleanup`, and the next session with the same handler).
`ConsumerLedger` holds its invariant; `ConsumerShutdown` says what a crash, a shutdown and a second session cost.
`BatchWorker` and `ConsumerClaim` are the worker and the claim loop as the program runs them, with the reused array;
each turn of theirs, and the worker's whole loop, is shown to be a run of the step relation.

**The room hub and fan-out** (`internal/ws/manager.go`, `router.go`, `client.go`).  `Registry` is what register and
unregister events do to the two maps; `Fanout` is local fan-out at lock and channel granularity, over a heap of backing
arrays with a pool that may forget; `Hub` joins any number of servers by pub/sub.  `FanoutSafety`, `FanoutSnapshots`,
`FanoutDelivery`, `HubSafety` and `HubSystem` prove the invariants, `HubTheorems` states what clients can rely on and
`RoomService` is the abstract per-room service the hub refines.  `HubWitnesses` shows two things the hub does not promise.
Messages in the order of publication: `HubOrder` and `HubReadOrder` follow those of one subscription, `HubUnderway` says what
can still reach a client through any of the subscriptions that serve it, and `HubOvertaking` says exactly when a client can
get a newer message of a server first.  Every message once: `HubOnce` and `HubTwice` say exactly when.  `FanoutHeld`,
`FanoutProgress` and `HubProgress` are how a run can hold one message back, finish another and go on.
`Manager` and `Router` are the maps, slices, loops and handlers as the program runs them.  `Locks` is the wait-for
relation of one server's goroutines.

**The shared counters** (`broadcastStats`, `internal/infra/redis.go`, the like handler).  `Likes` and `LikesLedger` follow
every like through 64-bit machine arithmetic over servers and overlapping ticks; `Online` and `OnlineTheorems` treat
heartbeats, expiry and the registry set with non-atomic readers; `Keys` treats the key templates; `Redis` is the store by
its string keys, with the program's functions proved against those step relations.

`EndToEnd` joins the two programs: what the consumer inserts of the records the servers push.

`Wire` holds the message formats, `Machine` the 64-bit integers and `Seqs` a few facts about sequences.

Fields called histories in a module's comment are read by no step; they only record what happened.

## Assumptions

- A failed insert writes no row; `CreateInBatches` issues one statement (`internal/repo/message_repo.go:31`).
- An INCRBY takes effect once or not at all.
- JSON decoding undoes encoding on values whose strings are UTF-8 (`Wire.Faithful`); nothing else is assumed of it.
- Sarama calls `Cleanup` once every `ConsumeClaim` call of the session has returned.
- Only these servers use the Redis keys, and server ids hold no colon and are not `likes` or `servers` (`Keys.GoodServer`);
  the ids the program makes are a host name and a number.
- Redis pub/sub may lose a message to any subscription but hands it to a subscription at most once.
- `Locks` assumes that calls into Kafka and Redis return.
- Randomness, clocks, database answers, expiry, lost replies and the choices of a `select` are inputs: parameters of the
  methods, nondeterministic steps of the relations.

## Where the code and its comments differ

The model follows the code.

- "wg ensures the DB worker finishes processing before the app exits" (`internal/consumer/handler.go:253`) and "wait for
  the worker to flush remaining data" (`internal/consumer/handler.go:287`) hold when the worker leaves by the closed channel.
  When it leaves by the cancelled context, the channel's contents are abandoned: `CancelExitAbandonsChannel`,
  `ShutdownLosesChannel`.  Cleanup is sure to lose nothing exactly when it is called with an empty channel:
  `ShutdownLosslessIff`.
- `msgChan` is closed by `Cleanup` and never made again, while the entry point starts further sessions with the same
  handler (`cmd/consumer/main.go:59-72`): `PanicsExactlyInSecondSession`, `SecondSessionPanics`.
- "this key will expire in 5 seconds" (`internal/ws/manager.go:323`): the expiry is two intervals and a second, 7 seconds.
- Clients need not receive in the order of publication.  Workers run in parallel (`DeliveryMayReorder`), and a cancelled
  subscription may still forward an older message after its successor has forwarded a newer one (`OldSubscriptionMayReorder`).
  Whether a message can come before an older one of its server is decided at its publication: `OvertakesIff`.  Among the
  messages of one subscription a send overtakes exactly when another worker holds the older one: `SendOvertakesIff`; where
  workers take the jobs of each subscription one at a time, only two subscriptions can change the order:
  `OneAtATimeIsReadOrder`, `OutOfOrderThroughTwo`.
- A cancelled subscription may still forward, so one message can reach a client twice: `MessageMayArriveTwice`.  Whether it
  can is decided at its publication: `TriedTwiceIff`.
- Likes are discarded exactly when a tick's room snapshot lacks their room or their increment fails: `DiscardedOnlyThen`,
  `SnapshotDecides`.  Besides, a local total wraps at 2^64 and the cast to a signed delta loses 2^64: `StepMovesGap`.
- "Clean up the registry set" (`internal/infra/redis.go:176`) can remove a server that has reported again: `LateRemoval`.
  A punctual registered server can be lost exactly when a removal naming it is on its way: `LostIffThreatened`.
- The like total shown is the accepted one if and only if less than 2^63 was accepted and all of it has reached the counter:
  `LikesShownIff`.  From 2^63 on the total can go wrong because Redis refuses an increment and the counter stays
  (`SecondHalfIsRefused`), because the cast makes the counter negative and zero is shown (`LikeShownExactlyBelow63`), because
  the counter climbs back from there and shows the total less 2^64 (`CounterClimbsBack`), or because a local total wraps
  before it is sent.

## Model

| member | source | states |
|---|---|---|
| `ConsumerLedger.Ledger` | internal/consumer/handler.go:297-388 | in every reachable state, whatever the interleaving: finished batches, buffer and channel are together exactly what was enqueued, in order and without repetition; per partition the enqueued share is what the claim owes in offset order, marks are a prefix of the claim, and at most one record is enqueued but unmarked |
| `ConsumerLedger.OwedInOrder` | internal/consumer/handler.go:311-330 | what a claim owes the channel rises strictly in offset and holds exactly the records that do not fail to parse, the nil message included |
| `ConsumerLedger.OwedIsReadable` | internal/consumer/handler.go:391-410 | a record is owed the channel exactly when its envelope decodes and, if it is a danmaku's, its data does; it goes there as the decoded danmaku, or as the nil message when the envelope names another type |
| `ConsumerLedger.InsertedAtMostOnce` | internal/consumer/handler.go:413-446 | no message is inserted twice in any session; every flush made one to three attempts and dropped its batch only after the third or on a cancelled context |
| `ConsumerLedger.AccountsKept` | internal/consumer/handler.go:354-388 | every step keeps enqueued = finished batches + buffer + channel, rows = persisted batches, and the channel within its capacity |
| `ConsumerLedger.WorkerKept` | internal/consumer/handler.go:343-388 | every step keeps the buffer below a full batch at the select, the retry count within bounds, and the close exit on a closed and empty channel |
| `ConsumerLedger.ClaimsKept` | internal/consumer/handler.go:297-340 | every step keeps each claim's share of the channel and its marks in step with the records it received |
| `ConsumerLedger.LifeKept` | internal/consumer/handler.go:270-292 | the channel is closed exactly from the first Cleanup on, for ever; the first session cannot panic |
| `ConsumerShutdown.UnresolvedIsInFlight` | internal/consumer/handler.go:343-388 | what is enqueued and neither persisted nor declared dropped is exactly what buffer and channel hold |
| `ConsumerShutdown.CrashLossBound` | internal/consumer/handler.go:231-243 | at any moment at most ChannelBufferSize plus one batch of marked, parsed messages are neither persisted nor declared dropped |
| `ConsumerClaim.CrashLossAttained` | internal/consumer/handler.go:321-330 | the bound is exact: for every batch size a reachable state loses that many |
| `ConsumerShutdown.CloseExitDrains` | internal/consumer/handler.go:281-292 | when the worker left by the closed channel, the channel is empty and every marked message was persisted or declared dropped |
| `ConsumerShutdown.DrainedTableIsComplete` | internal/consumer/handler.go:357-362 | when the worker of a first session left by the closed channel, a marked, parsed message is a row if and only if its batch was not dropped |
| `ConsumerShutdown.CancelExitAbandonsChannel` | internal/consumer/handler.go:378-385 | when it left by the cancelled context, the abandoned messages are exactly the channel's contents, at most ChannelBufferSize |
| `ConsumerShutdown.ShutdownLosslessIff` | internal/consumer/handler.go:281-292 | at the call of Cleanup: every way the first session can end from there is lossless if and only if the channel is empty at that moment |
| `ConsumerShutdown.EndedLosslessIff` | internal/consumer/handler.go:284-288 | a first session that has ended lost nothing if and only if the channel it closed is empty, which the close exit ensures |
| `ConsumerClaim.ShutdownLosesChannel` | internal/consumer/handler.go:378-385 | an orderly shutdown that loses a whole full channel is reachable |
| `ConsumerShutdown.ReceivesAfterClose` | internal/consumer/handler.go:357-362 | once the channel is closed, the worker receives from it at most its length plus one times |
| `ConsumerShutdown.DrainCanFinish` | internal/consumer/handler.go:354-376 | from any waiting worker a closed channel can be drained to the close exit, so the wait in Cleanup can end |
| `ConsumerShutdown.PanicsExactlyInSecondSession` | internal/consumer/handler.go:263-285 | a step panics if and only if it is a send or a Cleanup of a second session; such a session enqueues nothing |
| `ConsumerShutdown.SecondSessionPanics` | cmd/consumer/main.go:59-72 | for any record that is not malformed, a run whose second session panics on it |
| `ConsumerClaim.ClaimLoop.ConsumeClaim` | internal/consumer/handler.go:297-340 | the claim takes a record at every pick until one ends it, a record cannot be sent, or records or picks run out; it pushed exactly what it owes for the records it settled and marked exactly those |
| `ConsumerClaim.PickIsRun` | internal/consumer/handler.go:301-339 | each turn of the loop is a run of the step relation from any state that offers its pick, with the same messages sent, marks and exit, touching nothing else |
| `BatchWorker.DbWorker.Append` | internal/consumer/handler.go:364 | the buffer grows by the message; in place while there is room |
| `BatchWorker.DbWorker.FlushBuffer` | internal/consumer/handler.go:413-446 | an empty batch does nothing; otherwise one finished batch, with rows exactly when an attempt succeeded |
| `BatchWorker.DbWorker.Run` | internal/consumer/handler.go:343-388 | over any events the batches are the messages received cut at full buffers, ticks and the exit, the buffer is what came after the last cut, empty after a tick, and the loop ends as the first ending event says; for a positive batch size it never leaves its first array |
| `BatchWorker.RetryOutcome` | internal/consumer/handler.go:424-445 | a flush persists its batch exactly when some attempt it reaches succeeds, once, at that attempt; otherwise it drops it after the third failure or at the first backoff that is cancelled; one attempt is made whatever the context |
| `BatchWorker.BatchesAreCuts` | internal/consumer/handler.go:354-388 | from any buffer below a full batch and for any mix of messages, ticks, close and cancellation, whatever the database answers: the batches made and the messages left over are those of cutting the messages at every batchSize-th since the last cut, at every tick and at the exit |
| `BatchWorker.BatchesAreChunks` | internal/consumer/handler.go:357-369 | with no tick and no cancellation the batches are the input cut every batchSize messages, remainder last, whatever the database answers |
| `BatchWorker.FlushIsRun` | internal/consumer/handler.go:424-443 | the retry loop is a run of single steps with the same result |
| `BatchWorker.TurnIsRun` | internal/consumer/handler.go:354-387 | each turn of the worker loop is a run of the step relation with the same batches, rows, buffer and exit, touching nothing else |
| `BatchWorker.LoopIsRun` | internal/consumer/handler.go:343-388 | the whole loop is a run of the session, with any steps of the claims, the context and Cleanup between its turns: what the loop computes is the worker's part of the state the run ends in |
| `Wire.ServerMessagesParseBack` | internal/ws/router.go:19-49 | the danmaku handler makes a packet of exactly the data that decodes, whatever room or user it names; that packet parses back to the enriched message, so it never takes the error or the nil branch |
| `Wire.ParseOutcome` | internal/consumer/handler.go:391-410 | a record is malformed when its envelope, or the data of a danmaku envelope, does not decode; skipped without an error exactly when its envelope names another type; otherwise it is the decoded danmaku |
| `EndToEnd.RowsNameTheirAuthors` | internal/consumer/handler.go:391-410 | when every record read is the packet of a post the servers accepted, every row ever inserted has a body and names the room and user of the connection that said it |
| `EndToEnd.RowsRepeatWhatWasSaid` | internal/ws/router.go:31-49 | over any run of the servers and any run of the consumer on what they pushed, every row is some message a connected client said in that run: its decoded words, the connection's room and user, the time it was read |
| `EndToEnd.MarkedPostsAreRows` | internal/consumer/handler.go:281-292 | when the worker of a first session left by the closed channel, a post whose record was marked stands in the table under its author's room and user if and only if its batch was not dropped |
| `EndToEnd.RowsAreRecords` | internal/consumer/handler.go:311-330 | in any run and session every row is what parsing made of a record of the first session at its partition and offset |
| `Registry.Membership` | internal/ws/manager.go:175-235 | after any register and unregister events the rooms are exactly the live clients grouped by room with no empty group, their keys are the cancel functions' keys, each has exactly one uncancelled context and all others are cancelled, and done was closed once for exactly the removed clients |
| `Registry.ContextsAreOpenings` | internal/ws/manager.go:181-231 | after any register and unregister events there is one context for each join that found no live client of its room, in order and for that room, and it is cancelled exactly when some later event left the room empty; further viewers make and cancel none |
| `Registry.JoinOpens` | internal/ws/manager.go:181-195 | one join adds a context, uncancelled and last, if and only if no client of its room is live, and touches no other |
| `Registry.LeaveCancels` | internal/ws/manager.go:206-231 | one leave makes no context and cancels exactly that of the room it empties |
| `Registry.JoinKeeps` | internal/ws/manager.go:175-205 | registering keeps rooms and uncancelled contexts matched to the live clients |
| `Registry.LeaveKeeps` | internal/ws/manager.go:206-235 | so does unregistering, known client or not |
| `Registry.LeaveCloses` | internal/ws/client.go:116-125 | unregistering closes the done channel of a live client and of no other |
| `Manager.Conn.Close` | internal/ws/client.go:116-125 | done is closed on the first call only |
| `Manager.Conn.SafeSend` | internal/ws/manager.go:156-173 | one non-blocking attempt on the Send channel |
| `Manager.Offered` | internal/ws/manager.go:166-172 | a bounded channel after a non-blocking send: one longer with the payload last if there was room, unchanged if not |
| `Manager.Manager.HandleRegister` | internal/ws/manager.go:175-205 | the maps after registering are those of the specification that Membership and ContextsAreOpenings are about; a known room keeps its context and cancel function, a new one gets one of each |
| `Manager.Manager.HandleUnregister` | internal/ws/manager.go:206-235 | the same for unregistering, done channel included |
| `Manager.Manager.Append` | internal/ws/manager.go:411-413 | append keeps the prefix, in the same array while there is room |
| `Manager.Manager.GetSlice` | internal/ws/manager.go:409-410 | whichever pooled slice is offered, or a new one, at length zero, sharing its array with nothing pooled or queued |
| `Manager.Manager.Fill` | internal/ws/manager.go:411-413 | the range loop lists exactly the members, none twice, whatever the recycled array held |
| `Manager.Manager.CopyRoom` | internal/ws/manager.go:402-414 | the slice made under the read lock lists the members and shares no array with the pool or a queued job, whose contents stay |
| `Manager.Manager.BroadcastToLocalClients` | internal/ws/manager.go:400-429 | nothing for an unknown room; else a job listing exactly the room is queued last, or with a full queue none is and the slice is pooled; jobs already queued are untouched |
| `Manager.Manager.SendAll` | internal/ws/manager.go:145-147 | one send attempt for each listed client, and for nobody else |
| `Manager.Manager.WorkerRound` | internal/ws/manager.go:142-153 | every listed client gets exactly one send attempt, nobody else any, and the slice returns to the pool |
| `FanoutSafety.OwnedKept` | internal/ws/manager.go:142-153 | every step keeps each backing array with exactly one owner: pool, filling broadcaster, queued job or worker |
| `FanoutSafety.CarriedKept` | internal/ws/manager.go:416-429 | no handoff is ever carried by two owners, and one that is settled by none |
| `FanoutSafety.NoneLostKept` | internal/ws/manager.go:420-429 | a handoff not yet settled is always carried by someone |
| `FanoutSnapshots.ContentKept` | internal/ws/manager.go:400-429 | the slice of every broadcaster, job and worker holds the part of the room's snapshot it should, across growth, drop and return |
| `FanoutSnapshots.RoomsMayChange` | internal/ws/manager.go:175-235 | rooms may change whenever no reader holds the lock without disturbing any snapshot |
| `FanoutDelivery.EndsOnlyThen` | internal/ws/manager.go:419-428 | a handoff in progress is dropped whole exactly by the dispatch that finds the job queue full, and finished exactly by the return of the worker that has its job |
| `FanoutDelivery.AttemptedKept` | internal/ws/manager.go:142-153 | a handoff in progress was tried on a prefix of its snapshot, a finished one on all of it, a dropped one on nobody |
| `FanoutDelivery.SendsKept` | internal/ws/manager.go:156-173 | a Send channel holds the newest of what it accepted, at most 4096 |
| `FanoutDelivery.TallyKept` | internal/ws/manager.go:400-429 | snapshotted = queued + skipped + dropped + outstanding after every step |
| `HubSafety.LocalKeeps` | internal/ws/manager.go:110-132 | every step of one server keeps its membership, its queue order, its calls and its fan-out consistent |
| `HubSystem.StepKeeps` | internal/ws/manager.go:110-132 | every step of the system, publication between servers included, keeps the invariant |
| `HubSystem.PublishesOnce` | internal/ws/manager.go:271-280 | what a loop is about to publish is its own server's post and was never published |
| `HubSystem.ReachesItsRoom` | internal/ws/manager.go:367-376 | a published post reaches only subscriptions of its author's room that never heard it |
| `HubTheorems.RoomIsolation` | internal/ws/manager.go:367-443 | on any number of servers, every danmaku in a Send channel, or in a queued or running job that names a client, was made by the router for an author in the receiver's room, with that author's room and user id |
| `HubTheorems.ReceivedDanmakuNamesItsAuthor` | internal/ws/router.go:34-49 | what a client is sent decodes to a danmaku of its own room written by the user whose connection said it |
| `HubTheorems.PostsAreSaid` | internal/ws/router.go:19-49 | over any run the posts of the system are one for each message whose data decodes, in order, with the decoded content under the connection's room and user at the time it was read, and no other |
| `HubTheorems.EachMemberTriedOnce` | internal/ws/manager.go:142-153 | each handoff has a repetition-free snapshot of its room and is in progress with exactly one carrier, or finished with every member tried exactly once, or dropped whole with none |
| `HubTheorems.PooledSlicesAreExclusive` | internal/ws/manager.go:408-413 | in every reachable state each array in use has one owner, a job lists exactly its handoff's snapshot, and no worker meets an empty cell |
| `HubTheorems.FanOutConserves` | internal/ws/manager.go:416-429 | over any run the snapshot sizes sum to queued + skipped + dropped + outstanding; at most 1000 jobs queued, 100 workers, 4096 per Send channel, 1024 in Broadcast |
| `HubTheorems.AtMostOncePerSubscription` | internal/ws/manager.go:378-396 | no client is tried twice with one post through one subscription |
| `HubTheorems.TwiceOnlyThroughCancelled` | internal/ws/manager.go:378-396 | of two attempts of one post on one client, one came through a subscription whose context is cancelled |
| `HubOnce.ReachesTwiceIffOldOneHears` | internal/ws/manager.go:222-228 | what is about to be published can reach two subscriptions of a server if and only if a cancelled subscription of its room still hears there beside another one |
| `HubOnce.HeardByOneTriedOnce` | internal/ws/manager.go:378-396 | a message that at most one subscription of a server took is never tried twice on any of its clients, however the system goes on |
| `HubOnce.NoOldOneNeverTwice` | internal/ws/manager.go:271-280 | published while no cancelled subscription of the room hears beside another, a message is never tried twice on a client of that server |
| `HubTwice.TriedTwiceIff` | internal/ws/manager.go:367-396 | for every reachable state about to publish: the message can come to be tried twice on some client of a server if and only if a cancelled subscription of its room then hears there beside another one |
| `FanoutHeld.HasIffOwes` | internal/ws/manager.go:142-153 | a broadcaster, queued job or worker has a message for a client if and only if it carries a handoff in progress that has not tried that member |
| `FanoutHeld.Park` | internal/ws/manager.go:134-153 | whoever carries a message for a client, some run leaves it with one worker that has not tried the client while another worker serves all the rest |
| `FanoutProgress.CanFinish` | internal/ws/manager.go:142-153 | from any state that keeps the invariant some run ends with all broadcasters and workers free and the job queue empty, dropping nothing |
| `FanoutProgress.CallIsServed` | internal/ws/manager.go:400-429 | with one worker free and no job waiting, whatever the others hold, a broadcast to a room that is there can be carried through, snapshot to last member, by that worker |
| `HubOrder.SendOvertakesIff` | internal/ws/manager.go:134-153 | in every reachable state, a send to a client overtakes an older message of its subscription still owed to that client if and only if another worker holds that message and has not reached the client |
| `HubOrder.OlderIsWithWorker` | internal/ws/manager.go:388-394 | an older message of a subscription still in progress is with a worker, never with a broadcaster or in the queue behind |
| `HubOrder.OneAtATimeKeepsOrder` | internal/ws/manager.go:142-153 | along every run in which the workers take the jobs of a subscription one at a time, every client is tried with its messages in the order it forwarded them |
| `HubReadOrder.HeardInReadOrder` | internal/ws/manager.go:271-280 | in every reachable state a subscription has heard, and forwarded, the posts of any one server in the order that server read them |
| `HubReadOrder.OlderWasReadFirst` | internal/ws/manager.go:378-396 | of two handoffs of a subscription with posts of one server, the older carries the post read first |
| `HubReadOrder.OneAtATimeIsReadOrder` | internal/ws/manager.go:142-153 | along every run in which the workers take the jobs of a subscription one at a time, a client is tried with two posts of one server in the order that server read them |
| `HubReadOrder.OutOfOrderThroughTwo` | internal/ws/manager.go:378-394 | on a run in which the workers take every subscription's jobs one at a time, two tries of a client out of read order came through two subscriptions of its room, one of them cancelled |
| `HubUnderway.StillTriedIff` | internal/ws/manager.go:367-443 | for every reachable state, server, client and published post: the client can still come to be tried with it if and only if a broadcaster, queued job or worker has it for the client, or the client has not left and a hearing subscription of its room has it in its inbox or is calling with it |
| `HubOvertaking.OvertakesIff` | internal/ws/manager.go:271-280 | for every reachable state about to publish: the post can come to be tried on some client of a server before an older post of its own server, through whichever subscriptions, if and only if a subscription of the room hears there and such an older post is then in the inbox of a hearing subscription, in a call, or with a broadcaster, job or worker for a client still in the room |
| `HubOvertaking.OlderCanFollowIff` | internal/ws/manager.go:378-396 | at any moment, a client can still come to be tried with a post older than a published one of the same server if and only if one is underway to it then, through any subscription |
| `HubReadOrder.PublishedInReadOrder` | internal/ws/manager.go:236-280 | a server publishes its posts in the order it read them |
| `HubTheorems.OrderUpToPublication` | internal/ws/manager.go:236-280 | what a server pushed to Kafka, and what it published, followed by what its loop and Broadcast channel hold, are exactly its own clients' posts in the order they were read |
| `HubTheorems.RoomsAreTheReaders` | internal/ws/manager.go:175-235 | in every reachable state the rooms are the clients being read, one uncancelled subscription each, and done was closed once for each client that left |
| `HubTheorems.FirstReaderSubscribes` | internal/ws/manager.go:181-191 | in every reachable state a client joining a room with a reader leaves subscriptions and contexts as they were; the first of a room starts exactly one subscription on one uncancelled context |
| `HubTheorems.SubscriptionsAreOpenings` | internal/ws/manager.go:181-231 | over any run a server's subscriptions are one for each join that found its room without a reader, each cancelled exactly when its room emptied after that |
| `HubWitnesses.DeliveryMayReorder` | internal/ws/manager.go:134-153 | a reachable state where a client was sent its second message before its first |
| `HubWitnesses.OldSubscriptionMayReorder` | internal/ws/manager.go:378-394 | a reachable state where a client was sent the second message, through its room's subscription, before the first, through a cancelled one |
| `HubWitnesses.MessageMayArriveTwice` | internal/ws/manager.go:378-394 | a reachable state where one message reached a client twice, through an old subscription and its successor |
| `RoomService.StepRefines` | internal/ws/manager.go:236-280 | every step of the system is one step of the abstract per-room broadcast service, or none |
| `RoomService.HubRefinesService` | internal/ws/manager.go:110-132 | the posts and deliveries of any run are those of a run of the service from nothing |
| `Router.Server.HandleDanmaku` | internal/ws/router.go:19-55 | undecodable data is ignored; any other makes one packet, of the decoded content under the client's own room and id, that joins the end of the channel |
| `Router.Server.HandleLike` | internal/ws/router.go:60-75 | the room's local total grows modulo 2^64 by the decoded count, or by one when the data does not decode or says zero; no other room's changes |
| `Router.Server.SwapLikes` | internal/ws/manager.go:299-302 | the tick takes the whole map and leaves an empty one |
| `Router.Server.HandleBroadcast` | internal/ws/manager.go:236-280 | danmaku go to Kafka and the room's channel, stats to local fan-out, anything else nowhere |
| `Router.Server.DrainBroadcast` | internal/ws/manager.go:116-131 | the loop forwards the channel's packets in order, none skipped |
| `Router.Server.HandleMessage` | internal/ws/client.go:65-74 | a message whose envelope decodes with the danmaku type and whose data decodes adds one payload to what is bound for Kafka and for the client's room, one with the like type adds its likes to the room, whatever room the envelope names; no other message changes anything |
| `Router.Server.ReadPump` | internal/ws/client.go:42-76 | over a whole connection, what is bound to leave the server grows by one payload for each danmaku, in read order, that parses back to what was said under the client's own room and id, and by nothing else; its room's likes by the counts stated plus one for each like that states none; with waiting on a full channel in between |
| `Router.EveryDanmakuLeaves` | internal/ws/router.go:19-49 | for any messages of a connection: exactly those that decode as danmaku leave, once each, in order, to Kafka and the room's channel, and parse back to the decoded content, the client's own room and id and the time it was read |
| `Router.LikesAreDeclaredOrOne` | internal/ws/router.go:60-75 | the likes of a connection are the counts its likes state plus one for each like that does not decode or says zero |
| `Router.NobodySpeaksForAnother` | internal/ws/router.go:31-49 | whatever a client sends, what goes out parses back with the client's own room and user id |
| `Router.RoomPublishesAreProjection` | internal/ws/manager.go:271-280 | a room's publish attempts are the projection to that room of what went to Kafka |
| `Router.StartIncrements` | internal/ws/manager.go:318-327 | the loop starts one increment for every room of the snapshot with likes in the batch |
| `Router.LoopIsVisits` | internal/ws/manager.go:318-327 | that loop is a run of the likes step relation with the same increments in flight |
| `Locks.LocksExclude` | internal/ws/manager.go:175-178 | no reader of the rooms beside the writer, at most one holder of the likes mutex, Broadcast within its capacity |
| `Locks.BlockedIffWaiting` | internal/ws/manager.go:110-132 | a goroutine is blocked exactly when it waits for some other one |
| `Locks.NoCircularWait` | internal/ws/manager.go:296-312 | along any chain of waiting goroutines a rank falls, so none is circular and none has more than two links |
| `Locks.EveryoneCanBeServed` | internal/ws/client.go:42-46 | from every reachable state with a blocked goroutine some run leads to a state where it wants the same and is not blocked |
| `LikesLedger.StepMovesGap` | internal/ws/manager.go:296-327 | every step moves accepted minus accounted likes by exactly what its machine arithmetic loses |
| `LikesLedger.LikesAreConserved` | internal/ws/manager.go:296-327 | per room, over any servers and overlapping ticks: accepted likes below 2^63 are local totals + held batches + increments in flight + counter + discarded; beyond that the equation holds modulo 2^64; accepted likes are at least the like actions |
| `LikesLedger.LikesAreStated` | internal/ws/router.go:60-75 | over any run the likes accounted for in a room are the sum of the counts its likes stated plus one for each like that did not decode or said zero: exactly below 2^63, modulo 2^64 always |
| `LikesLedger.CounterNeverFalls` | internal/infra/redis.go:54-68 | below 2^63 no step lowers the counter or makes it negative |
| `LikesLedger.DiscardedOnlyThen` | internal/ws/manager.go:299-327 | likes of a room are discarded exactly by a failing increment of the room, or by the end of a tick that still holds some, whose snapshot lacks the room |
| `LikesLedger.SnapshotDecides` | internal/ws/manager.go:299-312 | it is settled when a tick finds its rooms: its end, whatever happens before, discards likes of a room if and only if the batch holds some and the room was not found |
| `LikesLedger.LikesShownIff` | internal/infra/redis.go:192-208 | in every reachable state the total shown for a room is the total accepted if and only if less than 2^63 was accepted and nothing of it is local, held, in flight or discarded |
| `LikesLedger.LikeShownExactlyBelow63` | internal/infra/redis.go:60-61 | a single like of n carried to an empty counter is stored as the cast of n, and shown as n if and only if n is below 2^63 |
| `LikesLedger.SecondHalfIsRefused` | internal/infra/redis.go:61-67 | a reachable state with 2^63 likes accepted in two ticks whose second increment was refused: the counter and the total shown stay at 2^62 |
| `LikesLedger.CounterClimbsBack` | internal/infra/redis.go:60-67 | a reachable state with 2^64 + 4 likes accepted, none refused, none wrapped locally, that shows 4 |
| `OnlineTheorems.ReaderCountsLive` | internal/infra/redis.go:124-189 | a reader counts each server at most once and only unexpired values: at most the sum over live servers, and equal to it exactly when it read every live server with someone online |
| `OnlineTheorems.StaleNames` | internal/infra/redis.go:173-179 | the removals it asks for name exactly its members without a live value |
| `OnlineTheorems.WhyALiveServerIsMissing` | internal/infra/redis.go:95-110 | a live server is missing from the registry only with a SADD outstanding or after a removal; with none outstanding, exactly after a removal; that removal was asked for by a reader that saw an earlier write of it expired |
| `OnlineTheorems.LateRemoval` | internal/infra/redis.go:174-178 | for any positive expiry, a run after which a live server that has reported completely is not registered |
| `OnlineTheorems.CountedIsLatestWrite` | internal/ws/manager.go:314-330 | for any interval I a value is counted exactly while the server's latest write is younger than 2I + 1s, seven seconds for I = 3s, and is that write |
| `OnlineTheorems.PunctualServersStay` | internal/ws/manager.go:314-324 | a registered server that no removal on its way names and that reports at most 2I apart is live and registered at every moment of the run |
| `OnlineTheorems.PunctualServersAreCounted` | internal/infra/redis.go:124-189 | every reader with its SMEMBERS and MGET on such a run reads it once, adds its latest value and asks for no removal of it |
| `OnlineTheorems.LostIffThreatened` | internal/infra/redis.go:173-179 | from a state where a server is registered and on time, some on-time run loses it from the registry while live if and only if an outstanding removal names it |
| `Online.StepKeeps` | internal/infra/redis.go:95-189 | every key holds its server's latest write and expires one expiry after it; registered servers have reported; removals follow an expired key |
| `Redis.UpdateServerOnline` | internal/infra/redis.go:95-110 | by how much of the pipeline ran: the SET leaves the count under the server's key, expiring one expiry from now, the SADD the server in the room's registry, and no other key changes; so the store does what the step relation says |
| `Redis.CompleteReportIsCounted` | internal/infra/redis.go:95-110 | after a complete report by a server that no removal on its way names, whatever others do, a reader both of whose commands come within the expiry and before its next report finds the server registered and adds its count once to those of the other members |
| `Redis.GetTotalOnline` | internal/infra/redis.go:124-189 | with the store free to change between its two commands: an error or an empty registry gives zero; otherwise the uint64 total of the live values, at the MGET, of the members at the SMEMBERS, and the removals that the MGet step of that reader puts on their way |
| `Redis.RemoveServer` | internal/infra/redis.go:177 | one removal goroutine does to the store what the step relation says, and disturbs no other room and no like counter |
| `Redis.SumReplies` | internal/infra/redis.go:171-188 | the loop over the replies sums the live values and names the rest |
| `Redis.IncrRoomLikes` | internal/infra/redis.go:54-68 | the cast and the INCRBY are the step relation's landing increment, overflow included, and touch no online count |
| `Redis.GetRoomLikes` | internal/infra/redis.go:192-208 | zero on an error, a missing key or a negative counter; the counter otherwise |
| `Redis.KeysApart` | internal/infra/redis.go:18-22 | no other server's key, and no like counter, is a server's online key |
| `Keys.KeysAreInjective` | internal/infra/redis.go:18-22 | with good server ids, distinct (family, room, server) triples have distinct keys for all room ids, colons included |
| `Keys.ServerIdsKeptApart` | internal/infra/redis.go:21 | a colon-free server id keeps its keys apart from every key of another family if and only if it is neither `likes` nor `servers` |
| `Keys.OnlineKeysCollideIff` | internal/infra/redis.go:21 | for any two server ids, colons or not: some rooms make them share a key if and only if one id is `online:` and the other, or ends in `:online:` and the other |
| `Keys.ChannelsAreInjective` | internal/ws/manager.go:369 | distinct rooms have distinct pub/sub channels |

## Left out

- SendOvertakesIff: compares messages of one subscription only, because it is about the workers; OlderCanFollowIff and
  OvertakesIff are about all the subscriptions that serve a client.
- OneAtATimeIsReadOrder: promises the order for one subscription, because the code promises no more;
  OutOfOrderThroughTwo says what is left.
- The order between posts of different servers: each server publishes on its own, and order is followed server by server.
- Socket I/O, the HTTP upgrade and close codes: a disconnect is an event, and what a client takes from its Send channel is a
  step that may happen or not; WritePump's writes are not modelled.
- The insides of JSON, strconv, GORM, Sarama, go-redis and sync.Pool: the assumptions above and nondeterministic
  success stand for them.  What GORM does with the nil messages a batch may hold is not modelled.
- Kafka topics, partitioning, compression and flush settings, and asynchronous producer errors: a push appends to the
  producer's input.
- Database setup, playback query, chat service, logger, entry points, CLI client, benchmarks: thin wrappers.
- The handler registry of internal/ws/dispatcher.go: one map access, inlined as a test of the packet type.
- Marshal errors: the two encoders are total functions.
- Wall-clock latency and scheduler fairness: time is abstract, and only the expiry properties speak of it;
  EveryoneCanBeServed says that some run serves a goroutine, not that every one does.
- Sessions after a panic, and a repaired handler: the second session is followed only to its panic.
- Server crashes in Hub and Likes, where a server's memory goes with it; a silent server is treated in Online, a crashed
  consumer in ConsumerShutdown.
- A stats tick as one loop: its swap, increments, reports, reads and fan-out are steps of Likes, Online, Redis and Hub, where
  the rooms a tick sees are any rooms and the numbers it broadcasts any numbers.
- The imperative classes run one goroutine at a time; interleaving is the business of the step relations.  ConsumeClaim there
  has an open channel, ReadPump a manager loop that empties a full channel at once.

# Verified model of the kuksa-val-server core

A Dafny model of the parts of the C++ `kuksa-val-server` that carry its guarantees: the
notification pipeline (set, publish, buffer, worker, websocket write queue, gRPC stream) with
its locks and threads, the twin signal trees with overlays, metadata patches and sets, the path
spellings with their tokeniser, the type sanitizer and the permission patterns.

`dafny verify dfyconfig.toml` checks the whole project.

## Layout

- `Pipeline.dfy` is the concurrent system: every client thread and the worker have a program
  counter that says which locks they hold and which they want, with one step per lock
  acquisition. Runs are arbitrary interleavings, and histories record what was set, published,
  enqueued, popped and put on the wire. `PipelineInvariant.dfy`, `PipelineDelivery.dfy` and
  `PipelineSessions.dfy` prove the invariants, `PipelineTheorems.dfy` the guarantees over every
  run, `PipelineLocks.dfy` lock order, deadlock and progress, `PipelineScenarios.dfy` the runs
  that show each departure from intent is reachable, `PipelineStreams.dfy` the gRPC streams,
  `PipelineOperations.dfy` what single critical sections do, and `PipelineDatabase.dfy` ties what
  subscribers hear to what get returns. `PipelineWitnesses.dfy` has the runs that show what these
  theorems assume can happen.
- `WriteQueue.dfy`, `Subscriptions.dfy` and `GrpcSession.dfy` hold the single components: a
  specification on values with its laws, and the class with the in-place methods and loops
  proved against it. The pipeline is built from the same specifications.
- `Tree.dfy` (JSONPath names and wildcards, sections 2.3.1, 2.3.2 and 2.7 of RFC 9535),
  `Overlay.dfy` (sections 4.1 to 4.3 of RFC 6902), `TwinTree.dfy`, `Database.dfy`,
  `DatabaseFrame.dfy`, `DatabaseLaws.dfy`, `VssDatabase.dfy`, `LeafPaths.dfy` and `MetaData.dfy`
  are the database.
- `VssPath.dfy`, `Sanitizer.dfy`, `TypeTable.dfy` and `Access.dfy` are the path codecs, the type
  check and the permission patterns; `Strings.dfy`, `Ordering.dfy`, `Json.dfy` and `Basics.dfy` are shared.

## Where the code departs from its intent

Each of these is kept as the code has it and stated exactly.

- A failed send makes the worker call unsubscribeAll while it holds subMutex. That is the only
  acquisition against the lock order; a circular wait exists exactly when it meets a publisher,
  it is reachable, and it is permanent (`CircularWaitIff`, `DeadlockReachable`,
  `DeadlockIsForever`). In every other state each busy thread waits for one that
  can move (`NoOtherDeadlock`, `ProgressIff`).
- The emptiness test holds no lock and the wait has no predicate, so a notification can stay
  behind until the next one arrives (`WaitingMeansDrained`, `LostWakeupReachable`). A stop can hang
  for the same reason: a worker that looked at threadRun before it and waits after it is never
  woken (`StopCanHang`).
- startThread sets threadRun after it starts the thread. Short of a stop, the worker ends exactly
  if threadRun happened to be false and it looked first (`EndsEarlyIff`), and then nothing is ever
  delivered (`StartRace`).
- unsubscribeAll removes one subscription per key (`UnsubscribeAllOnePerKey`); n calls clear a
  channel exactly if it has at most n per key (`UnsubscribeAllClears`).
- A set is published under the spelling of its request, so wildcard spellings only meet each
  other (`PublishedUnderNode`).
- A subscription that enters the table between the write of a set and its publication is
  notified of that earlier set (`SubscribeBase`).
- The path round trip fails exactly for an element named children (`RoundTrip`), and dot and
  slash spellings disagree exactly when one spelling mixes both separators (`DotAndSlashAgree`).
- "No existing signal disappears" under an overlay holds exactly for paths the overlay does not
  cut with a value that is no object (`MergeKeeps`, `CutExample`). Because removes are dropped, an
  array that is overlaid with a shorter one keeps its old tail.
- Metadata extraction overruns its two arrays exactly beyond depth 16 (`GetMetaData`,
  `SeventeenOverrun`).
- A one-character datatype is treated as an array of itself (`OneCharacterType`).
- After the cleanup of a gRPC stream the worker can still write to it once, exactly if it had
  looked the stream up before the map was cleared (`NoWriteAfterCleanup`, `LateWriteReachable`, and
  for the whole system `NothingSentAfterCleanup` and `LateSendReachable`).
- A gRPC value popped before its id is in the map is skipped; an id registered in time misses
  nothing (`StreamDelivery`, `RegisteredHearsAll`).
- Subscribing a key again over a gRPC stream leaves its old id behind; unsubscribing every key then
  no longer ends the loop (`OrphansAreOverwritten`, `UnsubscribingAllEnds`).
- An exact permission entry decides only if it is not empty (`CheckSignalAccess`).

## Model

| member | source | states |
|---|---|---|
| `PipelineTheorems.EndToEndOrder` | kuksa-val-server/src/VssDatabase.cpp:472-486 | in every interleaving of sets, worker steps, subscriptions, closes and write completions, what has been put on the wire for a websocket subscription is a prefix of the values set on its (path, attribute) since it subscribed, in set order; a set already in the tree whose publication has not begun when the subscription enters the table counts as set since then |
| `PipelineTheorems.SubscribeBase` | kuksa-val-server/src/SubscriptionHandler.cpp:85-92 | exactly where "since it subscribed" begins: after all sets on the key so far, except the one (at most) in flight on that key |
| `PipelineTheorems.WireFollowsSets` | kuksa-val-server/src/SubscriptionHandler.cpp:159-220 | the same prefix property for every known websocket subscription in every state that satisfies the invariant, dropped subscriptions included |
| `PipelineTheorems.QuiescentDelivery` | kuksa-val-server/src/SubscriptionHandler.cpp:185-220 | nothing is lost: with no set in flight, an empty buffer, an idle worker and a drained session, a live subscription on an open connection has been sent every value set since its base, not only a prefix |
| `PipelineTheorems.StepInv` | kuksa-val-server/src/SubscriptionHandler.cpp:146-226 | the conjunction of lock ownership, log, publication, delivery and write-queue invariants is kept by every step of every thread |
| `PipelineTheorems.RunInv` | kuksa-val-server/src/SubscriptionHandler.cpp:146-226 | hence it holds after every run, so in every reachable state |
| `PipelineTheorems.TableHoldsTheLive` | kuksa-val-server/src/SubscriptionHandler.cpp:85-142 | in every run each id lives under at most one key, and an id is in the table exactly if it was subscribed and not dropped |
| `PipelineTheorems.EnqueuedExactly` | kuksa-val-server/src/SubscriptionHandler.cpp:159-178 | what was enqueued for a subscription is exactly the slice of its key's publications between its base and its drop: one item per publication, none missing, repeated or for another key |
| `PipelineTheorems.NothingEnqueuedAfterUnsubscribe` | kuksa-val-server/src/SubscriptionHandler.cpp:95-115 | after a subscription is dropped no run enqueues anything for it, so only items already buffered can still be delivered |
| `PipelineTheorems.RunInfoKept` | kuksa-val-server/src/SubscriptionHandler.cpp:85-142 | no run changes the key, channel or base of a subscription, nor anything of a dropped one |
| `PipelineOperations.IdleMayBegin` | kuksa-val-server/src/SubscriptionHandler.cpp:61-179 | the system restricts no client: sets, subscribes, unsubscribes, opens, closes, responses, tree accesses, stops and stream steps can start from every idle thread under just these conditions |
| `PipelineOperations.EnvironmentMay` | kuksa-val-server/src/WebSockHttpFlexServer.cpp:457-483 | outstanding writes can complete or fail, a waiting worker can wake spuriously, and a set can be rejected, at any time |
| `PipelineOperations.SubscribeStores` | kuksa-val-server/src/SubscriptionHandler.cpp:85-92 | a finished subscribe adds exactly its entry to the table |
| `PipelineOperations.UnsubscribeRemoves` | kuksa-val-server/src/SubscriptionHandler.cpp:95-115 | a finished unsubscribe removes exactly the entries of its id and closes its record |
| `PipelineOperations.UnsubscribeAllRemoves` | kuksa-val-server/src/SubscriptionHandler.cpp:117-142 | unsubscribeAll, from a client or from the worker after a failed send, removes one entry of the connection per key that has one, and closes the records |
| `PipelineOperations.StoreHoldsLast` | kuksa-val-server/src/VssDatabase.cpp:474-480 | in every reachable state the store holds the last value set on each key |
| `PipelineOperations.ResponseDelivered` | kuksa-val-server/src/WebSockHttpFlexServer.cpp:446-506 | a response is on the wire as soon as its session is drained, right behind all that was handed to the session before it |
| `PipelineOperations.OpenAndClose` | kuksa-val-server/src/WebSockHttpFlexServer.cpp:103-201 | opening and closing a connection change exactly its entry in the connection maps |
| `PipelineOperations.WriteErrorCloses` | kuksa-val-server/src/WebSockHttpFlexServer.cpp:472-480 | a write error breaks the session, and unless it is an abort its thread goes on to remove the connection |
| `PipelineOperations.StopStops` | kuksa-val-server/src/SubscriptionHandler.cpp:240-249 | a finished stop clears threadRun and leaves the worker not waiting |
| `PipelineOperations.StopIsFinal` | kuksa-val-server/src/SubscriptionHandler.cpp:185-249 | after a stop threadRun stays clear and at most one more item is popped |
| `PipelineOperations.StopCanHang` | kuksa-val-server/src/SubscriptionHandler.cpp:223-251 | from every start-up a run stops the handler and leaves the worker waiting with nobody to wake it, so that the join in stopThread never returns |
| `PipelineTheorems.QueueConservation` | kuksa-val-server/src/SubscriptionHandler.cpp:167-193 | in every run the enqueued history is the popped history followed by the buffer, and the worker never stands at front/pop with an empty buffer although its size test holds no lock |
| `PipelineTheorems.WaitingMeansDrained` | kuksa-val-server/src/SubscriptionHandler.cpp:185-226 | while the worker waits, the buffer holds exactly the items pushed between its last emptiness test and the start of the wait, and everything enqueued before its last wake-up has been popped |
| `PipelineTheorems.OneWriteOutstanding` | kuksa-val-server/src/WebSockHttpFlexServer.cpp:446-506 | in every run of the whole system each session has at most one write or completion under way, exactly one while its queue is non-empty and unbroken, and its wire is a prefix of what was written |
| `PipelineTheorems.BufferNotShared` | kuksa-val-server/src/WebSockHttpFlexServer.cpp:483-496 | two steps that touch the bufferWrite_ of one session are never enabled for different threads, although the consume runs outside queueMutex |
| `PipelineTheorems.TouchesAll` | kuksa-val-server/src/WebSockHttpFlexServer.cpp:446-506 | the steps counted as touching bufferWrite_ are all that change it |
| `PipelineTheorems.TouchLocked` | kuksa-val-server/src/WebSockHttpFlexServer.cpp:446-506 | every other access to bufferWrite_ happens under queueMutex and with no write outstanding |
| `PipelineInvariant.StepTakes` | kuksa-val-server/src/SubscriptionHandler.cpp:187-219 | only an acquisition step takes a lock, and it takes exactly the one its thread was waiting for; every other step at most releases |
| `PipelineDelivery.DelivStep` | kuksa-val-server/src/SubscriptionHandler.cpp:185-220 | each step keeps: values written to a session, the one in the worker's hand and the popped history of a subscription agree |
| `PipelineSessions.WritesStep` | kuksa-val-server/src/WebSockHttpFlexServer.cpp:446-506 | each step of the whole system keeps every session's write-queue invariant and at most one thread completing a write per session |
| `PipelineLocks.CircularWaitIff` | kuksa-val-server/src/SubscriptionHandler.cpp:187-219 | in every reachable state there is a circular wait of any length if and only if the worker, after a failed send, wants accessMutex while a publisher holds it with subscribers still to notify |
| `PipelineLocks.AcyclicWhileSendsFind` | kuksa-val-server/src/SubscriptionHandler.cpp:214-220 | over all runs in which every send finds its connection no circular wait exists on rwMutex_, accessMutex, subMutex, the connection-map mutexes and queueMutex |
| `PipelineLocks.OnlyFailedSendBreaksOrder` | kuksa-val-server/src/SubscriptionHandler.cpp:123-219 | an acquisition goes against the lock order if and only if it is the worker's unsubscribeAll under subMutex |
| `PipelineLocks.RespectsOrder` | kuksa-val-server/src/WebSockHttpFlexServer.cpp:1384-1423 | every other acquisition takes a lock above all that its thread holds |
| `PipelineLocks.NoOtherDeadlock` | kuksa-val-server/src/SubscriptionHandler.cpp:146-226 | progress of every thread: in every reachable state other than that deadlock, each thread in the middle of something waits, over a chain of waits (of length zero if it can move itself), for a thread in the middle of something that can take its next step |
| `PipelineLocks.ProgressIff` | kuksa-val-server/src/SubscriptionHandler.cpp:146-226 | exactly: in a reachable state every busy thread has such a chain if and only if the state is not that deadlock |
| `PipelineLocks.DeadlockIsForever` | kuksa-val-server/src/SubscriptionHandler.cpp:187-219 | the deadlock is permanent: no later step of anyone sets, enqueues or pops anything |
| `PipelineScenarios.DeadlockReachable` | kuksa-val-server/src/SubscriptionHandler.cpp:214-220 | for every signal change and whatever threadRun held before, there is a run that completes startThread and ends in the deadlock |
| `PipelineScenarios.LostWakeupReachable` | kuksa-val-server/src/SubscriptionHandler.cpp:186-224 | for every change and whatever threadRun held before, a run that completes startThread leaves the running worker waiting on a non-empty buffer with all locks free: the wait has no predicate |
| `PipelineScenarios.EndedWorkerIsDead` | kuksa-val-server/src/SubscriptionHandler.cpp:185-232 | once the worker has left its loop no run pops anything again |
| `PipelineScenarios.EndsEarlyIff` | kuksa-val-server/src/SubscriptionHandler.cpp:234-238 | startThread launches the thread before it sets threadRun: in every run without a stop the worker has ended if and only if threadRun happened to be false and the worker took a step before it was set |
| `PipelineScenarios.StartRace` | kuksa-val-server/src/SubscriptionHandler.cpp:185-238 | after such a start no run, with or without a stop, ever delivers anything |
| `PipelineStreams.NothingSentAfterCleanup` | kuksa-val-server/src/SubscriptionHandler.cpp:187-213 | in the whole system, with all locks and threads: once a gRPC session has cleared its map nothing more is sent on its stream, whatever ids the table or the buffer still hold, unless the worker had already looked the stream up; then at most one item |
| `PipelineStreams.LateSend` | kuksa-val-server/src/SubscriptionHandler.cpp:205-213 | in that case the worker can always send it |
| `PipelineWitnesses.LateSendReachable` | kuksa-val-server/src/SubscriptionHandler.cpp:205-213 | and that case is reachable in the whole system: from every start-up a run cleans a gRPC session up, with nothing sent on its stream, and the worker sends next |
| `PipelineWitnesses.EveryLogDelivered` | kuksa-val-server/src/SubscriptionHandler.cpp:146-226 | for every list of changes, every key and every start-up there is a run that sets exactly these changes and delivers every value set on the key to a subscriber |
| `PipelineStreams.StreamFollowsSets` | kuksa-val-server/src/SubscriptionHandler.cpp:185-213 | what the worker has sent on a stream for a subscription is, in set order, what was set on its (path, attribute) since its base, with some values left out |
| `PipelineStreams.InMapIff` | kuksa-val-server/src/grpcHandler.cpp:524-592 | over every run, an id is in the map of its session if and only if the run registers it there and neither erases it nor clears the session later; other ids play no part |
| `PipelineStreams.ClosedIff` | kuksa-val-server/src/grpcHandler.cpp:591-592 | a session counts as cleaned up if and only if the run clears its map |
| `PipelineStreams.StreamDelivery` | kuksa-val-server/src/SubscriptionHandler.cpp:185-213 | nothing is lost on a stream: if the id was in its map whenever one of its items was looked up, then with no set in flight, an empty buffer and an idle worker a live gRPC subscription has been sent exactly the values set since its base |
| `PipelineStreams.RegisteredHearsAll` | kuksa-val-server/src/SubscriptionHandler.cpp:205-213 | in terms of the session: an id registered before its first item is popped, and neither erased nor cleared, misses nothing |
| `PipelineDatabase.TreeHoldsLastLogged` | kuksa-val-server/src/VssDatabase.cpp:464-532 | after any run of sets on concrete paths get returns, for every signal and attribute, the last value published for it; if none was, exactly what it returned before, time stamp or refusal included |
| `PipelineDatabase.LastHeardIsGot` | kuksa-val-server/src/VssDatabase.cpp:464-532 | subscribers and get agree: whenever a run of the pipeline has logged the sets of the database and everything is delivered, the last value a live websocket subscription has heard is the value get returns |
| `PipelineDatabase.EveryRunOfSetsHeard` | kuksa-val-server/src/VssDatabase.cpp:464-532 | and for every run of sets on concrete paths, every path and attribute and every start-up there is such a run of the pipeline, in which the subscriber hears exactly the values set |
| `PipelineDatabase.GotAfter` | kuksa-val-server/src/VssDatabase.cpp:464-532 | one set, if it publishes, makes get of its own path and attribute return the published value with its time stamp, and changes no other get; if it does not publish it changes none |
| `PipelineDatabase.ChangeDatatype` | kuksa-val-server/src/VssDatabase.cpp:484-486 | the published change carries the text of the datatype of the node written |
| `WriteQueue.WriteQueueSafety` | kuksa-val-server/src/WebSockHttpFlexServer.cpp:446-506 | over every interleaving of writes, completions and errors: at most one async write outstanding, until an error exactly one cycle while the queue is non-empty, bytes sent are a prefix of messages written, bufferWrite_ holds exactly the front message while it is being sent |
| `WriteQueue.NothingSentAfterError` | kuksa-val-server/src/WebSockHttpFlexServer.cpp:472-480 | after a write error no run sends anything more |
| `WriteQueue.RunOk` | kuksa-val-server/src/WebSockHttpFlexServer.cpp:446-506 | every run keeps the invariant and only appends to the wire |
| `WriteQueue.StepOk` | kuksa-val-server/src/WebSockHttpFlexServer.cpp:446-506 | every action keeps the invariant and never pops an empty queue |
| `WriteQueue.WebSocketSession.WriteMessage` | kuksa-val-server/src/WebSockHttpFlexServer.cpp:446-470 | the in-place write keeps the invariant and is the specification's Write |
| `WriteQueue.WebSocketSession.OnWriteConsume` | kuksa-val-server/src/WebSockHttpFlexServer.cpp:472-483 | the unlocked half of onWrite empties bufferWrite_ of exactly the message sent |
| `WriteQueue.WebSocketSession.OnWriteLocked` | kuksa-val-server/src/WebSockHttpFlexServer.cpp:485-506 | the locked half pops and starts the next write, only with none outstanding and an empty bufferWrite_ |
| `WriteQueue.WebSocketSession.OnWriteError` | kuksa-val-server/src/WebSockHttpFlexServer.cpp:472-480 | a failed write pops and starts nothing |
| `WriteQueue.WebSocketSession.StartAsyncWrite` | kuksa-val-server/src/WebSockHttpFlexServer.cpp:457-469 | its precondition, met by both callers, is that no write is outstanding and bufferWrite_ is empty |
| `Subscriptions.UnsubscribeAllOnePerKey` | kuksa-val-server/src/SubscriptionHandler.cpp:117-142 | unsubscribeAll removes exactly one subscription of the channel under each key that holds one (not all of them), whatever the hash order, and touches no other channel |
| `Subscriptions.RunLeaves` | kuksa-val-server/src/SubscriptionHandler.cpp:117-142 | n calls leave max(0, m - n) of the m subscriptions a channel had under a key |
| `Subscriptions.UnsubscribeAllClears` | kuksa-val-server/src/SubscriptionHandler.cpp:117-142 | n calls clear a channel if and only if it has at most n subscriptions under every key |
| `Subscriptions.DropSubExact` | kuksa-val-server/src/SubscriptionHandler.cpp:95-115 | unsubscribe leaves the id nowhere, every other subscription in place, and the table alone if the id was not in it |
| `Subscriptions.AddKeepsUnique` | kuksa-val-server/src/SubscriptionHandler.cpp:85-92 | a fresh id keeps every id under at most one key |
| `Subscriptions.NotesReachEach` | kuksa-val-server/src/SubscriptionHandler.cpp:159-178 | one publication notifies each subscription stored under its key once and nobody else, in whatever order the hash map is visited |
| `Subscriptions.SubscriptionHandler.Subscribe` | kuksa-val-server/src/SubscriptionHandler.cpp:61-93 | refuses in this order a path that does not exist, one that is not a single sensor, actuator or attribute, and one without read permission, each leaving the table unchanged; otherwise enters the id under the slash spelling |
| `Subscriptions.SubscriptionHandler.Unsubscribe` | kuksa-val-server/src/SubscriptionHandler.cpp:95-115 | returns 0 if and only if the id existed; afterwards the table is the old one without it |
| `Subscriptions.SubscriptionHandler.FindChannel` | kuksa-val-server/src/SubscriptionHandler.cpp:124-132 | finds some subscription of the channel if and only if there is one |
| `Subscriptions.SubscriptionHandler.UnsubscribeAll` | kuksa-val-server/src/SubscriptionHandler.cpp:117-142 | the loop removes one match per key, as the relation above says |
| `Subscriptions.SubscriptionHandler.Publish` | kuksa-val-server/src/SubscriptionHandler.cpp:146-179 | appends one item per subscription of the key, each visited once, and keeps conservation |
| `Subscriptions.SubscriptionHandler.PopFront` | kuksa-val-server/src/SubscriptionHandler.cpp:186-189 | moves the oldest item from the buffer to the popped history |
| `Database.TwinRun` | kuksa-val-server/src/VssDatabase.cpp:101-118 | after any run of initialisation, overlays, metadata patches and set commands, data tree and metadata tree are equal once the runtime keys are erased at every node |
| `DatabaseLaws.TwinRunAgrees` | kuksa-val-server/src/VssDatabase.cpp:101-118 | so after any such run both trees have the same locations, and at each the same attributes but for value, targetValue and their four stamps |
| `DatabaseLaws.TwinsAgree` | kuksa-val-server/src/VssDatabase.cpp:101-118 | what being twins means, attribute by attribute |
| `Database.TwinStep` | kuksa-val-server/src/VssDatabase.cpp:296-386 | each of the four operations keeps that, successful or not |
| `Database.TwinInit` | kuksa-val-server/src/VssDatabase.cpp:101-118 | so does initialisation, which applies defaults to one tree only |
| `Database.TwinOverlay` | kuksa-val-server/src/VssDatabase.cpp:324-335 | so does an overlay, whose patch is computed separately for each tree |
| `Database.TwinPatch` | kuksa-val-server/src/VssDatabase.cpp:339-387 | so does a metadata patch, which replaces the node in both trees |
| `DatabaseLaws.PatchFrame` | kuksa-val-server/src/VssDatabase.cpp:380-386 | a successful patch, on both trees: at the selected location an attribute is the one of the metadata if it has one, else the old one; elsewhere nothing changes, unless the metadata brings its own children |
| `DatabaseLaws.PatchSucceedsIff` | kuksa-val-server/src/VssDatabase.cpp:339-379 | a patch succeeds if and only if the channel may modify the tree, the metadata is an object and the path selects exactly one node in each tree; which error it answers otherwise |
| `Database.SetErased` | kuksa-val-server/src/VssDatabase.cpp:464-494 | a set of value or targetValue changes nothing but runtime keys |
| `Database.TwinQueries` | kuksa-val-server/src/VssDatabase.cpp:351-355 | in twin trees every path selects the same locations |
| `Database.GatedAttr` | kuksa-val-server/src/VssDatabase.cpp:133-165 | the gates pass only value and targetValue, the latter only on actuators |
| `Database.DefaultsErased` | kuksa-val-server/src/VssDatabase.cpp:73-98 | default values are invisible after erasure |
| `DatabaseLaws.DefaultsExact` | kuksa-val-server/src/VssDatabase.cpp:73-98 | exactly the attributes below Vehicle that have a default, and are not below another such one, get the text of the default as value; no other attribute of any node changes |
| `DatabaseLaws.DefaultServed` | kuksa-val-server/src/VssDatabase.cpp:73-118 | from the file to the client: after initialisation get returns a default as text with zero stamps |
| `Database.ApplyDefaultValues` | kuksa-val-server/src/VssDatabase.cpp:73-98 | the recursive loop puts its default, as text, on every attribute that has one and changes nothing else |
| `TwinTree.EraseKidsMerge` | kuksa-val-server/src/VssDatabase.cpp:296-322 | erasing runtime keys commutes with the overlay merge |
| `TwinTree.QueryErased` | kuksa-val-server/src/VssDatabase.cpp:236-251 | erasing runtime keys does not change what a path selects |
| `TwinTree.PutErased` | kuksa-val-server/src/VssDatabase.cpp:382-386 | erasing commutes with replacing a node |
| `TwinTree.PutElsewhere` | kuksa-val-server/src/VssDatabase.cpp:480-480 | replacing a node leaves every unrelated location alone |
| `Overlay.PatchIsMerge` | kuksa-val-server/src/VssDatabase.cpp:296-322 | for all trees: diff, drop the removes, apply the rest in order always succeeds and equals the recursive merge in which the overlay wins |
| `Overlay.MergeTwice` | kuksa-val-server/src/VssDatabase.cpp:296-322 | the same overlay twice is the same as once |
| `Overlay.MergeKeeps` | kuksa-val-server/src/VssDatabase.cpp:296-322 | an existing path survives if and only if the overlay does not put a non-object above its end; all paths of the overlay are there |
| `Overlay.MergedValue` | kuksa-val-server/src/VssDatabase.cpp:296-322 | the overlaid tree, path by path: where only one side has a value that one, unless cut off; where both have, the overlay wins but for two objects or two arrays, which are merged |
| `Overlay.CutExample` | kuksa-val-server/src/VssDatabase.cpp:296-322 | the other side at its smallest: a branch overlaid with null loses the signal below it |
| `VssDatabase.OverlayTree` | kuksa-val-server/src/VssDatabase.cpp:296-322 | the filtering loop on one tree computes that merge |
| `VssDatabase.VssDatabase.ApplyOverlays` | kuksa-val-server/src/OverlayLoader.cpp:60-79 | a list of overlays is the left fold of the merge, on both trees |
| `VssDatabase.VssDatabase.InitJsonTree` | kuksa-val-server/src/VssDatabase.cpp:101-118 | establishes the twin invariant, also when it fails because the file has no Vehicle |
| `VssDatabase.VssDatabase.UpdateJsonTree` | kuksa-val-server/src/VssDatabase.cpp:324-335 | keeps the twin invariant; without authorisation nothing changes |
| `VssDatabase.VssDatabase.UpdateMetaData` | kuksa-val-server/src/VssDatabase.cpp:339-387 | keeps the twin invariant; a path that does not select one node, or no authorisation, changes nothing |
| `VssDatabase.VssDatabase.SetSignal` | kuksa-val-server/src/VssDatabase.cpp:464-494 | keeps the twin invariant for value and targetValue; sanitises, stamps, replaces and publishes, or changes nothing |
| `VssDatabase.VssDatabase.ProcessSet` | kuksa-val-server/src/VssCommandSet.cpp:77-107 | the gates in their order with their early returns, then the set; keeps the twin invariant |
| `DatabaseFrame.SetWritesOrNothing` | kuksa-val-server/src/VssDatabase.cpp:464-494 | a set writes the one node its path selects and publishes once, or changes and publishes nothing |
| `DatabaseLaws.SetOutcome` | kuksa-val-server/src/VssDatabase.cpp:471-494 | a set writes if and only if the path selects exactly one location whose node has a datatype that accepts the value; each error, exactly |
| `DatabaseLaws.CommandAnswers` | kuksa-val-server/src/VssCommandSet.cpp:77-107 | each answer of the set command, if and only if: no location; no permission or no settable location; done; failed, with which error; in the words sensor, actuator, value and targetValue |
| `DatabaseLaws.ReadableMeans` | kuksa-val-server/src/VssDatabase.cpp:170-180 | a path is readable if and only if it selects exactly one node, of type sensor, actuator or attribute |
| `DatabaseFrame.SetFrame` | kuksa-val-server/src/VssDatabase.cpp:474-480 | of all attributes of all nodes a successful set changes the one it sets and its two stamps, at the selected node only |
| `DatabaseFrame.SetThenGet` | kuksa-val-server/src/VssDatabase.cpp:464-532 | get after a successful set returns the sanitised value with the new time stamp |
| `DatabaseLaws.GetExact` | kuksa-val-server/src/VssDatabase.cpp:497-530 | what get returns for the first location a path selects: the attribute with its stamps, or with zero stamps, or not set |
| `DatabaseFrame.RejectedChangesNothing` | kuksa-val-server/src/VssCommandSet.cpp:77-107 | a command that does not answer success changes nothing and enqueues nothing |
| `DatabaseFrame.DoneWrites` | kuksa-val-server/src/VssCommandSet.cpp:100-107 | a command that answers success wrote one node, published once, and get returns the value |
| `DatabaseFrame.CommandFrame` | kuksa-val-server/src/VssCommandSet.cpp:77-107 | one command changes an attribute only on a sensor or actuator, only a runtime key, target keys only on actuators |
| `DatabaseFrame.CommandsFrame` | kuksa-val-server/src/VssCommandSet.cpp:77-107 | so does every run of commands, and no type ever changes |
| `DatabaseFrame.PublishedUnderNode` | kuksa-val-server/src/SubscriptionHandler.cpp:159-161 | a set is published under the path of the node it wrote if and only if its request contained no wildcard |
| `Tree.QueryExact` | kuksa-val-server/src/VssDatabase.cpp:236-251 | a query of names and wildcards returns exactly the existing locations that fit it |
| `Tree.PatternMeans` | kuksa-val-server/src/VSSPath.cpp:73-92 | a location fits a path if and only if it has one name for each element, equal to it or facing a star |
| `Tree.QueryAscending` | kuksa-val-server/src/VssDatabase.cpp:236-251 | in strictly ascending order of locations, so without duplicates |
| `LeafPaths.GetLeafPaths` | kuksa-val-server/src/VssDatabase.cpp:231-268 | returns, each once, exactly the non-branch nodes reached from a match by descending through branches; on trees whose key characters sort above "/" in strictly ascending path order |
| `LeafPaths.ReachedMeans` | kuksa-val-server/src/VssDatabase.cpp:256-264 | what is enumerated, in the words of the catalogue: nodes whose type is not branch, below a match through nodes of type branch only |
| `LeafPaths.RecursionDescends` | kuksa-val-server/src/VssDatabase.cpp:256-259 | the recursion ends: each recursive call works on lower subtrees |
| `LeafPaths.RecursionReaches` | kuksa-val-server/src/VssDatabase.cpp:256-259 | what the recursive call on "children.*" reaches is what is reached from the branch |
| `LeafPaths.MergeAppends` | kuksa-val-server/src/VssDatabase.cpp:258-258 | the list merge of ascending lists in order is their concatenation |
| `LeafPaths.JoinOrder` | kuksa-val-server/include/VSSPath.hpp:47-49 | on such keys comparing slash spellings is comparing locations level by level |
| `MetaData.GetMetaData` | kuksa-val-server/src/VssDatabase.cpp:390-461 | for plain names: the sixteen-entry arrays are overrun if and only if the selected path is deeper than 16; otherwise the result is the metadata tree pruned to it |
| `MetaData.Extract` | kuksa-val-server/src/VssDatabase.cpp:401-460 | the loops over the fixed arrays compute the pruned tree, every index in bounds up to depth 16 |
| `MetaData.Rebuild` | kuksa-val-server/src/VssDatabase.cpp:450-460 | the second of them, from the stored nodes and the target back to the root |
| `MetaData.ChainFound` | kuksa-val-server/src/VssDatabase.cpp:392-394 | for every plain path there is a tree in which it selects a node of exactly its length |
| `MetaData.DeepPathOverruns` | kuksa-val-server/src/VssDatabase.cpp:403-447 | on that tree extraction overruns if and only if the path has more than 16 names |
| `MetaData.SeventeenOverrun` | kuksa-val-server/src/VssDatabase.cpp:403-447 | for instance for seventeen times one name |
| `MetaData.PrunedAncestor` | kuksa-val-server/src/VssDatabase.cpp:452-458 | every ancestor keeps its own attributes, description and type as text, and exactly one child |
| `MetaData.PrunedTarget` | kuksa-val-server/src/VssDatabase.cpp:439-443 | the target keeps all its attributes, description and type as text, and its full subtree |
| `MetaData.PlainMeans` | kuksa-val-server/src/VssDatabase.cpp:275-292 | plain names, letter by letter |
| `MetaData.RawIsAt` | kuksa-val-server/src/VssDatabase.cpp:409-417 | the dotted prefix query of the tokens selects the ancestor at that depth |
| `VssPath.RoundTrip` | kuksa-val-server/src/VSSPath.cpp:73-103 | for every slash path without quote or bracket, wildcards and empty elements included: converting to JSONPath and back gives the path again if and only if no element is the word children |
| `VssPath.JsonToGen2Exact` | kuksa-val-server/src/VSSPath.cpp:94-103 | what the five erase and replace passes make of any such path: its elements other than children, joined by slashes |
| `VssPath.Gen2ToJsonInjective` | kuksa-val-server/src/VSSPath.cpp:73-92 | gen2tojson is injective on all paths without a closing bracket, wildcards, empty elements and elements named children included |
| `VssPath.BuildJson` | kuksa-val-server/src/VSSPath.cpp:73-92 | the loop with its stream and flag renders the elements with children in between |
| `VssPath.DotAndSlashAgree` | kuksa-val-server/src/VSSPath.cpp:45-71 | slash and dot spelling of one path give objects equal in all three strings if and only if the spelling does not mix both separators |
| `VssPath.Gen1AndGen2Agree` | kuksa-val-server/src/VSSPath.cpp:105-112 | the two fixed constructors agree on the spellings of one path if and only if its slash spelling has no dot |
| `VssPath.FromJsonAgrees` | kuksa-val-server/src/VSSPath.cpp:105-117 | a path object rebuilt from its own JSONPath has the same three strings if and only if no element is the word children |
| `VssPath.TokeniserInverse` | kuksa-val-server/src/VssDatabase.cpp:275-292 | getVSSTokens after gen2tojson returns the elements interleaved with children, for every path length |
| `VssPath.TokensOfRender` | kuksa-val-server/src/VssDatabase.cpp:275-292 | the alternating strtok machine undoes the rendering of any list of names |
| `VssPath.GetVSSTokens` | kuksa-val-server/src/VssDatabase.cpp:275-292 | the counting loop is that machine |
| `VssPath.NextToken` | kuksa-val-server/src/VssDatabase.cpp:282-287 | each round uses the delimiter set its parity demands, and the rest of the string gets shorter |
| `Strings.JoinSplit` | kuksa-val-server/src/VSSPath.cpp:74-75 | joining what was split gives the string back |
| `Strings.SplitJoin` | kuksa-val-server/src/VSSPath.cpp:74-75 | splitting what was joined gives the parts back, if they contain no separator |
| `Strings.StrtokCuts` | kuksa-val-server/src/VssDatabase.cpp:278-287 | strtok skips leading delimiters and cuts at the first delimiter after them |
| `Sanitizer.NumberAcceptedIff` | kuksa-val-server/src/VSSTypeSanitizer.cpp:41-77 | a value is accepted and stored as w if and only if it converts to a number inside its type's range and inside [min, max], and w is that number |
| `Sanitizer.NumberUnchangedIff` | kuksa-val-server/src/VSSTypeSanitizer.cpp:41-77 | the values left alone are exactly the numbers of the type inside [min, max] |
| `TypeTable.IntegerTypes` | kuksa-val-server/src/VSSTypeSanitizer.cpp:134-157 | for each of the eight integer datatypes, by name and bounds: what is accepted is stored as a whole number between the bounds and within min and max, every such number is accepted unchanged, everything else is out of bounds |
| `TypeTable.FloatTypes` | kuksa-val-server/src/VSSTypeSanitizer.cpp:158-163 | the same for float and double between the library limits; infinity is out of bounds |
| `TypeTable.BadLimit` | kuksa-val-server/src/VSSTypeSanitizer.cpp:65-75 | a limit that does not convert makes the check fail as malformed |
| `TypeTable.BooleanType` | kuksa-val-server/src/VSSTypeSanitizer.cpp:79-94 | true and false are stored exactly for the texts true and false, quotes ignored |
| `TypeTable.StringType` | kuksa-val-server/src/VSSTypeSanitizer.cpp:167-175 | a string is accepted, unchanged, if and only if the allowed list and the enum list, where given, contain it |
| `TypeTable.OtherTypes` | kuksa-val-server/src/VSSTypeSanitizer.cpp:180-183 | every other datatype of two characters or more that is no array is unsupported |
| `Sanitizer.SanitizeTwice` | kuksa-val-server/src/VSSTypeSanitizer.cpp:132-185 | sanitising an accepted value again accepts it and changes nothing, for every datatype |
| `Sanitizer.ArrayAcceptedIff` | kuksa-val-server/src/VSSTypeSanitizer.cpp:109-127 | an array is accepted if and only if every element is, and is left unchanged |
| `Sanitizer.OneCharacterType` | kuksa-val-server/src/VSSTypeSanitizer.cpp:176-179 | a one-character datatype counts as an array of itself, because size() - 2 wraps to npos; exactly the values made of nothing but arrays are accepted, and the recursion ends by nesting of the value |
| `Sanitizer.EmptyType` | kuksa-val-server/src/VSSTypeSanitizer.cpp:176-183 | an empty datatype accepts nothing |
| `Sanitizer.CheckAndSanitizeType` | kuksa-val-server/src/VSSTypeSanitizer.cpp:132-185 | the branching on the datatype computes the specification and leaves a rejected value unchanged |
| `Sanitizer.CheckArrayType` | kuksa-val-server/src/VSSTypeSanitizer.cpp:109-127 | accepts if and only if the value is an array of accepted elements |
| `Sanitizer.CheckEnumType` | kuksa-val-server/src/VSSTypeSanitizer.cpp:96-107 | accepts if and only if the value is one of the listed strings |
| `Access.CheckSignalAccess` | kuksa-val-server/src/AccessChecker.cpp:39-61 | a non-empty exact entry decides, otherwise the last matching key in key order, otherwise the empty permission; granted if the required permission stands somewhere in it |
| `Access.LoweredMatchesIff` | kuksa-val-server/src/AccessChecker.cpp:51-54 | a key matches a path if and only if the path can be cut into one piece per character of the key: any run without line ends for a star, one such character for a dot, itself for any other |
| `Access.ExactDecides` | kuksa-val-server/src/AccessChecker.cpp:45-46 | at most one entry is exact, and it alone decides |
| `Access.ContainsIff` | kuksa-val-server/src/AccessChecker.cpp:60-60 | the search for the required permission succeeds if and only if it stands at some index |
| `Access.LastMatchDecides` | kuksa-val-server/src/AccessChecker.cpp:47-60 | at most one entry is the last match, and it alone decides |
| `Access.LastIsGreatest` | kuksa-val-server/src/AccessChecker.cpp:49-58 | in a permission object, which is sorted, it is the greatest matching key |
| `Access.CheckPathWriteAccess` | kuksa-val-server/src/AccessChecker.cpp:77-88 | true if and only if every path of the list may be written |
| `Access.MatchesIff` | kuksa-val-server/src/AccessChecker.cpp:51-54 | a lowered pattern matches a string if and only if the string can be cut into one fitting piece per token |
| `Access.SpellingDoesNotMatter` | kuksa-val-server/src/MQTTPublisher.cpp:140-147 | a pattern of names, dots and stars matches the dot spelling of a path if and only if it matches its slash spelling, in its meaning and as lowered |
| `GrpcSession.SessionInvariant` | kuksa-val-server/src/grpcHandler.cpp:488-592 | in every run the ids in currentSubs are keys of grpcSubsMap, the loop goes on only while that map is non-empty, and it is empty after the cleanup |
| `GrpcSession.NoWriteAfterCleanup` | kuksa-val-server/src/SubscriptionHandler.cpp:205-213 | after the cleanup no run writes to the stream, whatever ids the handler still stores, unless the worker had already looked the stream up; then at most once |
| `GrpcSession.LateWriteReachable` | kuksa-val-server/src/SubscriptionHandler.cpp:205-213 | that one late write can happen: a run from the start of the session does it |
| `GrpcSession.LateWrite` | kuksa-val-server/src/SubscriptionHandler.cpp:205-213 | from every such state the write is the next possible step |
| `GrpcSession.OrphansAreOverwritten` | kuksa-val-server/src/grpcHandler.cpp:494-573 | over every list of requests with fresh ids: the ids in grpcSubsMap that no key of currentSubs leads to are exactly those that a later subscribe of the same key overwrote; unsubscribing reaches none of them |
| `GrpcSession.RunOrphans` | kuksa-val-server/src/grpcHandler.cpp:488-592 | so it is in every run of the session, its handler and the worker |
| `GrpcSession.UnsubscribingAllEnds` | kuksa-val-server/src/grpcHandler.cpp:537-581 | unsubscribing every key, in any order, ends the loop if and only if nothing was overwritten |
| `GrpcSession.ResubscribeLeavesOld` | kuksa-val-server/src/grpcHandler.cpp:524-529 | the shortest case: a key subscribed twice and unsubscribed once keeps its first id in grpcSubsMap |
| `GrpcSession.HandleOk` | kuksa-val-server/src/grpcHandler.cpp:488-586 | every request keeps the two maps consistent |
| `GrpcSession.CleanupLeaves` | kuksa-val-server/src/grpcHandler.cpp:591-592 | the cleanup leaves all but one of the stream's subscriptions under each key in the handler |
| `GrpcSession.TableFollows` | kuksa-val-server/src/grpcHandler.cpp:488-592 | what the handler holds for the stream follows the requests: a subscribe adds its id, a successful unsubscribe removes exactly that of its key, the cleanup one per key, nothing else changes it |
| `GrpcSession.StreamSession.HandleRequest` | kuksa-val-server/src/grpcHandler.cpp:494-576 | one request keeps the two maps consistent, does what the specification says, and leaves exactly the overwritten id without a key |
| `GrpcSession.StreamSession.Serve` | kuksa-val-server/src/grpcHandler.cpp:488-592 | the loop reads up to the first request after which grpcSubsMap is empty, or to the end of the stream, keeps the maps consistent all along, and then clears the map |

## Left out

- JWT decoding and signature checks: a channel's permissions and its right to modify the tree are parameters.
- TLS, HTTP sessions, timers, the acceptor and the websocket handshake: only the write queue, the connection maps and SendToConnection are modelled.
- Schema validation, response texts, time stamp formatting, logging, command line, MQTT connection handling and the record-to-file database: I/O around the core.
- VssCommandGet, VssCommandSubscribe, VssCommandUnsubscribe and the query dispatch: routing that would only add easy members.
- JSON text and number parsing: values are modelled directly, conversion and text of a value are functions in `Library`, constrained by `Sound` where a lemma needs it.
- Floating-point rounding: float and double are bounded reals.
- The clock: a set takes its time stamp as a parameter; subscription ids and connection ids are assumed never to be reused.
- Formal C++ data races: the unlocked reads of the buffer size, of threadRun and of grpcSubsMap are atomic reads of the current value.
- Trees whose "children" member is not an object: it has no children here, where the library visits arrays or throws; quotes inside keys are not escaped in result paths, and the strtok model has no NUL characters.
- Access.CheckSignalAccess: permission keys with regular-expression characters other than '.' and '*' are read as literals; the same holds for publish paths.
- HTTP connections found by SendToConnection: the message is dropped, as in the code.
- DatabaseFrame.SetThenGet: the values of getSignal before they are rendered as strings.
- VssDatabase.VssDatabase.UpdateJsonTree: one atomic step, where the code reads and writes in two lock sections per tree.
- VssDatabase.VssDatabase.UpdateMetaData: one atomic step, where the code reads and writes in two lock sections.
- VssDatabase.VssDatabase.InitJsonTree: opening and parsing the file is not modelled.
- Database.ApplyDefaultValues: returns the new tree instead of updating it by reference; the log path argument has no counterpart.
- MetaData.GetMetaData: names that are empty, contain a quote or bracket or are the word children are only recognised, and the dotted query is taken to accept every other name.
- Sanitizer.CheckAndSanitizeType: NaN, and the texts of error messages, are not modelled.

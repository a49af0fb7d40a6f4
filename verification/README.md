# Verification model of the conferencing server

A model in Dafny of the parts of the server that keep state under concurrency or that must agree
with each other across components, with proofs of what they keep.

**The resource graph** (`Rct*.dfy`, modelling `src/rct`). Routers, transports, producers,
consumers, observers, rooms and room members form a graph under one mutex. Each resource has a
signed reference counter and a closed flag, sits in the child lists of its parents and in two
registry maps. Creating a resource takes two lock-held sections with a wait for the worker in
between; closing cascades down the graph, disposing cascades up. The model is a state machine
whose steps are the lock-held sections: beginning and finishing a creation, refused creations,
borrowing, releasing, closing, owner references, close events, joining, creating rooms.
`RctRefs`, `RctClose` and `RctSteps` define the transitions, `RctInvariant` what is kept,
`RctRelease` and `RctCascade` prove the upward and the downward cascade, `RctCreation`,
`RctProtocol`, `RctOwners` and `RctRooms` the steps, `RctRuns` all interleavings, `RctHistory` what
only grows, `RctTheorems` the results in their own terms. `RctRollback` says what a failed creation
leaves behind in one state; `RctParallel`, `RctParallelRooms`, `RctFewer`, `RctParallelCloses`,
`RctNoTrace` and `RctNotice` compare whole runs with and without it. `RctSurvival` says what a close leaves
behind; `RctGivenUp`, `RctGivenUpBelow`, `RctRouterClose`, `RctInTime` and `RctCloseById` follow closes that
come upon resources whose creators have given them up, `RctClosedParents` joins and rooms below closed
parents, and `RctExact` draws the sum. `RctEvents`, `RctEffects`, `RctSeats` and `RctMeaning` tell the
sections by the fields of the resources, without the functions that define them. `RctBuilding`, `RctGivenUpRuns` and `RctRouterRuns` have concrete
runs. `RctObject` is the same graph as an
object whose methods update their fields in loops; every method is proved to make the transition of
the specification.

A resource is named by its position in the list of all resources ever created. Positions are not
reused: the model treats addresses as unique and uuids as fresh. The hypotheses on a run are in
`RctRuns`: `Assumed` holds by construction of the callers, `Disciplined` is what the code does not
check: children are begun, members join and rooms are created under open parents only, a creator
does not fail after its resource was closed and taken by others, a close comes upon no resource below
that its creator gave up, what was given up itself is closed only if nobody goes on holding it, a
resource has one owner. `StepExactly` says that a step keeps the invariant if and only if it meets
them, `RunExactly` says the same of runs; the single conditions are in `BeginExact`, `JoinExact`,
`CreateRoomExact`, `FinishFailExact`, `CloseExactly`, `CloseByIdExactly` and `AddOwnerExact`, and
`LateChild`, `LateJoin`, `LateFailure` and `LateClose` are runs that break it.
A resource under construction has `RCT_INIT_REFS - 1` references on top of the one of an open
resource; together they are the `RCT_INIT_REFS` of `src/rct/rct.h:71`.

**Rooms over time** (`RoomProtocol.dfy`, `RoomSteps.dfy`): members, the idle timer and the close that
it leads to.

**Codec negotiation** (`Rtp*.dfy`): router capabilities, a producer's mapping and consumable
parameters, a consumer's parameters, and the gate that answers whether consuming makes sense.
`RtpTypes` reads off a configuration whether the router's types are distinct, `RtpPool` whether they
suffice, `RtpPipeline` joins
the stages, `RtpCapabilities`, `RtpProduced` and `RtpFields` tell each stage by the fields of the codecs,
`RtpTwoOnOne` is the case in which gate and builder disagree. The comparison of two H264
profiles and the profile written into an answer are parameters. Where a result needs it, the
comparison is symmetric, or symmetric and transitive with answers that still agree with the router's
codec; it need not be reflexive, and is not for a codec whose profile cannot be read. The types
of RFC 3551 (section 6) and the retransmission codecs of RFC 4588 (section 8.6) appear as in the
code. Deviations between what one might expect and what the code does are kept: a supported codec
whose static type is 0 counts as having none and takes one from the pool (`src/rct/rct_router.c:152`),
and an explicit type that was already handed out is not noticed.

**The durable task queue** (`TaskQueue.dfy`, `TaskOutcomes.dfy`), **the gauge log** (`GaugeLog.dfy`),
**whiteboard synchronization** (`Whiteboard.dfy`, `WhiteboardScenes.dfy`), **the room history on both
sides** (`RoomHistory.dfy`, `HistoryContents.dfy`) and **the generator of C string literals**
(`StringLiteral.dfy`, `LiteralForm.dfy`), the last against a reader that follows the
translation phases of ISO/IEC 9899:2011 (sections 5.1.1.2, 6.4.4.4 and 6.4.5).

`dafny verify dfyconfig.toml` checks everything.

## Model

| member | source | states |
|---|---|---|
| `RctRefs.RefLk` | src/rct/rct.c:258-281 | terminates however far the release goes upwards; disposes but never revives, and neither closes nor reopens anything |
| `RctRefs.RefAllLk` | src/rct/rct_consumer.c:66-69 | releases the parents one after the other; only ever shrinks the set of undisposed resources |
| `RctRelease.RefLkGood` | src/rct/rct.c:258-281 | a release that somebody was entitled to keeps ledger, links, registry and owner index, however far the cascade of disposals reaches |
| `RctRelease.DisposeGood` | src/rct/rct.c:87-118 | disposing a resource whose last holder is gone keeps all of these, and takes it out of both maps |
| `RctRelease.RefLkFrame` | src/rct/rct.c:258-281 | a release touches nothing but counters and disposal, and nothing at the same level of the graph or above except the resource itself |
| `RctRelease.RemoveOrdered` | src/rct/rct_transport.c:67-83 | after unlinking the element is gone and the list is still in order without repetition |
| `RctClose.CloseLk` | src/rct/rct.c:120-150 | terminates: either nothing changes or the set of open resources shrinks strictly |
| `RctCascade.CloseLkSteady` | src/rct/rct.c:120-150 | closing keeps the whole invariant in the middle of an outer cascade, closes nothing outside the part of the graph below the resource, and leaves the resource closed |
| `RctCascade.WalkStep` | src/rct/rct_transport.c:85-95 | the successor saved before a child is closed is still in the list afterwards, and everything before it is closed |
| `RctCascade.SiblingSurvives` | src/rct/rct_producer.c:54-65 | closing one element of a list disposes none of its siblings |
| `RctCascade.ClosedSurvives` | src/rct/rct_transport.c:85-95 | what was closed but undisposed before a nested close is still undisposed after it |
| `RctCascade.WalkSteady` | src/rct/rct_router.c:31-45 | a walk over a child list closes all children |
| `RctSurvival.CloseIsDownwardClosure` | src/rct/rct.c:120-150 | for every kind of resource: an undisposed resource is closed afterwards if and only if it was closed before or depends on the closed one through a chain of parents |
| `RctSurvival.ClosedBelow` | src/rct/rct.c:120-150 | whatever depends on a closed resource, at any distance, is closed |
| `RctSurvival.RemainsExactly` | src/rct/rct.c:120-150 | a close disposes exactly those, above and below, that nobody goes on holding when everything below the closed resource is closed: neither a creator nor a thread nor a resource that is still there itself |
| `RctSurvival.RelabelClose` | src/rct/rct.c:120-150 | what a close does depends neither on how far creators are nor on who holds the references |
| `RctInTime.CloseExactly` | src/rct/rct.c:120-150 | closing a resource of any kind leaves ledger and order as they should be if and only if its creator has not given it up and nothing that the close comes upon below was given up; for a router that means: what was given up is not held any more when the transport above it takes its turn, nor a given-up transport when the turn before its own begins |
| `RctInTime.TransportsMean` | src/rct/rct_router.c:31-45 | the walk over the transports meets nothing given up if and only if all of that is gone in time, as read off the state before the close |
| `RctRouterClose.SmoothTurn` | src/rct/rct_router.c:31-45 | also above given-up resources: if the saved successor is there after a turn, it is still in the list |
| `RctCloseById.CloseByIdExactly` | src/rct/rct.c:152-158 | closing by id keeps the invariant if and only if nothing that the close comes upon below was given up, and if the resource itself was given up then nobody goes on holding it |
| `RctGivenUpRuns.PaidProducer` | src/rct/rct.c:152-158 | a concrete run in which a producer that its creator gave up and only its consumer holds is closed by its id, and all is well |
| `RctGivenUpRuns.PassedProducer` | src/rct/rct_router.c:31-45 | the same producer below a router that is closed: the newer transport takes the consumer along before the older one takes its turn, and all is well |
| `RctGivenUpRuns.LateClose` | src/rct/rct.c:141-145 | a concrete run in which a transport is given up while a thread holds it and is then closed by its id, and the invariant is broken |
| `RctGivenUp.GivenUpIsGone` | src/rct/rct.c:120-150 | for every kind: if a close above a given-up resource leaves everything in order, the resource went away before the close came to it |
| `RctGivenUp.GivenUpItself` | src/rct/rct.c:141-145 | closing a given-up resource of any kind breaks the ledger |
| `RctGivenUp.GivenUpHeld` | src/rct/rct.c:120-150 | closing anything above a given-up resource that a thread holds breaks ledger or order, for every kind |
| `RctProtocol.BeginExact` | src/rct/rct_consumer.c:647-691 | the first section of a creator keeps ledger, links and registry in any case, and keeps "dependents of closed resources are closed" if and only if every parent is open |
| `RctCreation.FinishOkGood` | src/rct/rct_consumer.c:736-740 | a creator that succeeds keeps the invariant whatever happened while it waited |
| `RctCreation.FinishFailExact` | src/rct/rct.c:271-278 | a creator that fails keeps the invariant if and only if nobody closed its resource or nobody else holds it |
| `RctCreation.FinishDisposes` | src/rct/rct_consumer.c:736-740 | no resource goes away before its creator has spoken; after a success it goes away exactly if it was closed and nobody else holds it |
| `RctProtocol.BorrowInv` | src/rct/rct.c:479-493 | looking a resource up and holding it keeps the invariant |
| `RctProtocol.ReleaseInv` | src/rct/rct.c:305-310 | giving a held reference back keeps the invariant |
| `RctProtocol.AddOwnerExact` | src/rct/rct_room.c:1885-1901 | handing a resource to a member keeps the invariant if and only if no other member owns it |
| `RctOwners.DropOwnerInv` | src/rct/rct_room.c:2745-2771 | one round of a close event removes the resource from both sides of the index and nothing else, and keeps the invariant |
| `RctOwners.OnResourceClosedInv` | src/rct/rct_room.c:2729-2778 | after a close event neither side of the index mentions the resource or anything collected below it, and all other entries are as before; `CloseEventExactly` says what that is |
| `RctOwners.CollectTransport` | src/rct/rct_room.c:2696-2706 | below a transport exactly its producers and their consumers are collected, not the consumers that merely receive on it |
| `RctOwners.IndexIsAlive` | src/rct/rct_room.c:324-357 | the index never names a disposed resource or a disposed member |
| `RctEvents.CloseEventExactly` | src/rct/rct_room.c:2677-2778 | a close event takes exactly these out of both sides of the owner index: the resource; for a producer its undisposed consumers; for a transport its producers and their consumers; for a router its open room, its transports, their producers and those producers' consumers. Every other entry stays with its owner, and no identity, flag or borrowed reference changes |
| `RctClosedParents.JoinExact` | src/rct/rct_room.c:547-636 | joining keeps the invariant if and only if the room found is open |
| `RctClosedParents.CreateRoomExact` | src/rct/rct_room.c:689-758 | creating a room keeps the invariant if and only if the router found is open |
| `RctClosedParents.LateJoin` | src/rct/rct_room.c:800-850 | a concrete run in which a user joins a closed room that a thread still holds, and stays open below it |
| `RctExact.StepExactly` | src/rct/rct.c:258-350 | a lock-held section keeps the invariant if and only if it is disciplined |
| `RctExact.RunExactly` | src/rct/rct.c:258-350 | a run keeps the invariant at every step if and only if all its steps are disciplined |
| `RctRuns.RunInv` | src/rct/rct.c:258-350 | every interleaving of sections of any number of threads keeps the invariant |
| `RctTheorems.ReferenceConservation` | src/rct/rct.c:258-281 | in every reachable state the counter is: one if open, one per undisposed child, one per entry in the owner's list, one per borrowed reference, and what the creator added while it is under construction |
| `RctTheorems.NoDanglingLinks` | src/rct/rct.c:87-118 | in every reachable state every parent, list link, map value, owner entry and borrowed reference names an undisposed resource, and no disposed resource was ever touched |
| `RctTheorems.DisposedAfterDependents` | src/rct/rct.c:87-118 | a resource with an undisposed dependent has not been disposed |
| `RctTheorems.RunLater` | src/rct/rct.c:87-150 | along a run nothing is reopened or revived and no identity changes |
| `RctTheorems.HalfMadeSurvives` | src/rct/rct_consumer.c:654-737 | a half-made resource survives any close until its creator has spoken, and then stays if and only if it is open or somebody holds it |
| `RctTheorems.RegistryAgreement` | src/rct/rct.c:332-386 | in every reachable state both maps hold exactly the undisposed resources, loads count the carriers of a worker id, and the gauges are the numbers of undisposed rooms, of members, and of producers and consumers together |
| `RctTheorems.ListAgreement` | src/rct/rct_consumer.c:680-688 | in every reachable state each child list has exactly the linked children, without repetition, newest first; members in join order |
| `RctTheorems.OwnerAgreement` | src/rct/rct_room.c:2745-2771 | in every reachable state the index maps a resource to a member if and only if the undisposed member lists it |
| `RctTheorems.SeatsAreDistinct` | src/rct/rct_room.c:604-610 | in every reachable state open members of one room belong to different users |
| `RctTheorems.LateChild` | src/rct/rct_producer.c:704-760 | a concrete run in which a producer begun on a closed transport stays open below it |
| `RctTheorems.LateFailure` | src/rct/rct.c:271-278 | a concrete run in which a creator fails after its resource was closed and borrowed, and the ledger is broken |
| `RctMeaning.StepMeans` | src/rct/rct.c:258-350 | every section of a run has its effect on the fields of the resources and no other: who is closed, what is new and with which fields, whose progress, owner entries or borrowed references change |
| `RctMeaning.RunMeans` | src/rct/rct.c:258-350 | the same for every step of every run from the empty process |
| `RctMeaning.WorkersAgree` | src/rct/rct.c:354-367 | in every reachable state a transport, producer or consumer counts for the worker of its router; rooms, members and observers count for none |
| `RctEffects.BeginMeans` | src/rct/rct_consumer.c:647-691 | with the parents that its kind needs there, exactly one open resource under construction is added with its parents, uuid and worker, and its creator holds each parent once more; otherwise nothing happens |
| `RctEffects.CloseMeans` | src/rct/rct.c:152-158 | closing by id closes what depends on the resource and is still there, and nothing else, and changes nobody's progress, owner entries or borrowed references |
| `RctEffects.DropOwnerMeans` | src/rct/rct_room.c:2745-2771 | the owner's list loses every entry of the resource and keeps the others in order; no other list changes |
| `RctEffects.CloseEventInAnyOrder` | src/rct/rct_room.c:2739-2771 | in whatever order, and however often, the resources below the closed one are gone through, the resulting states cannot be told apart |
| `RctSeats.JoinMeans` | src/rct/rct_room.c:547-636 | a join closes the previous membership whether or not the room is there; if it is, it closes the user's seat in it and nobody else, and adds one open member of that room and user |
| `RctSeats.CreateRoomMeans` | src/rct/rct_room.c:689-758 | creating a room closes exactly the router's open room, its members and the previous membership, and adds an open room of the router and its first member; without the router nothing happens |
| `RctRollback.Canonical` | src/rct/rct.c:332-386 | identities, closed flags, creators' progress, owner entries and borrowed references determine who is undisposed, all counters, lists, maps, loads, gauges and the owner index |
| `RctRollback.FailedCreationLeavesNoTrace` | src/rct/rct_consumer.c:736-740 | after a failed creation the state cannot be told from any invariant state with the same other resources, flags, owner entries and borrowed references in which the resource was never there; whatever is gone in both does not matter |
| `RctNoTrace.FailedRunLeavesNoTrace` | src/rct/rct_consumer.c:647-740 | whatever run of the others lies between the two sections of a creator, if the creator fails then the process cannot be told from the one in which the creation was refused at once and the others did the same, and there they could; provided that they find nothing that is there because of the half-made resource only, and release only references of their own; where they close a router above something given up, that has to be in order in both |
| `RctNotice.TwinStepExactly` | src/rct/rct.c:258-350 | a step of the others is in order without the half-made resource, and the worlds stay alike, if and only if it is unaware of it in this sense |
| `RctFewer.ClearExactly` | src/rct/rct.c:479-493 | a look-up gives the same with and without the half-made resource if and only if what it names is not there or is kept there by itself, by a thread or by another resource that is kept there |
| `RctNotice.LookUpDiffers` | src/rct/rct.c:479-493 | a concrete run in which a thread looks up a closed router that only the half-made transport and its creator hold: after the failure the router is still there, and without the creation it would have been gone before |
| `RctFewer.KeptExactly` | src/rct/rct.c:258-281 | exactly what is kept without the half-made resource is there without it |
| `RctFewer.OnlyAbove` | src/rct/rct.c:258-281 | a resource that is still there only because of the half-made one is one of its ancestors |
| `RctFewer.Fewer` | src/rct/rct.c:258-281 | a half-made resource makes nothing go away earlier: whatever is there without it is there with it |
| `RctRouterRuns.RouterCloseDiffers` | src/rct/rct_router.c:31-45 | a concrete run in which a router above a given-up transport may be closed beside a half-made producer and, had its creation been refused, may not: the producer keeps a closed transport in the list that takes its turn in between |
| `RctParallelCloses.OtherCloses` | src/rct/rct.c:152-158 | whatever the others close by id, the half-made resource included, the worlds stay alike |
| `RctRollback.BeginThenFail` | src/rct/rct_transport_direct.c:48-95 | a creation that the worker refuses at once leaves the state in which it began |
| `RctRollback.FailEarlyIsNothing` | src/rct/rct_observer_al.c:58-98 | failing because a parent is missing, or before the resource is linked, changes nothing |
| `RctHistory.CloseLkLater` | src/rct/rct.c:120-150 | closing never reopens, revives or renames anything, in any state whatever |
| `RctObject.Rct.RefLk` | src/rct/rct.c:258-281 | in place: exactly the transition of the specification |
| `RctObject.Rct.DisposeLk` | src/rct/rct.c:87-118 | in place: unlink, forget owner entries, release them last first, release the parents, unregister |
| `RctObject.Rct.UnlinkFrom` | src/rct/rct_consumer.c:28-42 | the walk over one list takes out the resource and leaves the rest of the lists alone |
| `RctObject.Rct.RegisterLk` | src/rct/rct.c:332-373 | in place: both maps, the load score and the gauge |
| `RctObject.Rct.UnregisterLk` | src/rct/rct.c:75-85 | in place: the reverse of registration |
| `RctObject.Rct.NumberOf` | src/rct/rct.c:375-386 | walking the id map in any order counts the registered resources of a type |
| `RctObject.Rct.CloseLk` | src/rct/rct.c:120-150 | in place: exactly the transition of the specification |
| `RctObject.Rct.CloseEach` | src/rct/rct_transport.c:85-95 | in place: the loop that reads the successor before it closes a child |
| `RctObject.Rct.BeginCreate` | src/rct/rct_consumer.c:647-691 | in place: parents found and held, resource linked and registered; fails exactly if a parent is missing |
| `RctObject.Rct.FinishCreate` | src/rct/rct_consumer.c:736-740 | in place: the creator's last release |
| `RctObject.Rct.RefuseCreation` | src/rct/rct_consumer.c:647-740 | in place: the early failures |
| `RctObject.Rct.AddOwnerRef` | src/rct/rct_room.c:1885-1901 | in place: one more reference, one entry in the list, one in the index |
| `RctObject.Rct.DropOwnerRef` | src/rct/rct_room.c:2745-2771 | in place: one round of a close event |
| `RctObject.Rct.OnClosedEvent` | src/rct/rct_room.c:2729-2778 | in place: collection and all rounds are the transition that `CloseEventExactly` is about |
| `RctObject.Rct.JoinRoom` | src/rct/rct_room.c:547-636 | in place: joining |
| `RctObject.Rct.CreateRoomLk` | src/rct/rct_room.c:689-758 | in place: a new room with its first member |
| `RctObject.Rct.Perform` | src/rct/rct.c:258-350 | any step of any run made on the object is the step of the model and keeps the invariant of all runs |
| `RoomProtocol.RunInv` | src/rct/rct_room.c:359-448 | over every run: distinct users in join order, at most one idle timer, the flag set exactly while a timer or a router close is under way, and an empty open room is watched unless the scheduler refused |
| `RoomProtocol.AlwaysScheduled` | src/rct/rct_room.c:435-447 | with a scheduler that never refuses no room is ever left unwatched |
| `RoomProtocol.EmptyRoomGoesAway` | src/rct/rct_room.c:359-377 | once the timer has fired on an empty open room, the request to its router stands whatever happens until the router answers, joins included; then nobody is left in the room and it is closed |
| `RoomProtocol.RefusedTimerForgets` | src/rct/rct_room.c:435-447 | a concrete run in which the scheduler refuses and an empty room is left with neither timer nor close |
| `RoomProtocol.UnlinkedRow` | src/rct/rct_room.c:418-433 | leaving takes out the member and nobody else and keeps the order |
| `RoomSteps.JoinMeans` | src/rct/rct_room.c:604-627 | a join gives up the user's earlier seat, keeps everybody else's and puts the new member last; the timer is started exactly if the earlier seat was the only one and no timer watches the room |
| `RoomSteps.LeaveMeans` | src/rct/rct_room.c:418-448 | a departure takes out that member alone, and starts the timer exactly if nobody is left and no timer watches the room |
| `RoomSteps.TimerMeans` | src/rct/rct_room.c:359-377 | the timer requests the close of an empty room with the flag still set; in an occupied room it clears the flag and requests nothing |
| `RoomSteps.RouterMeans` | src/rct/rct_room.c:380-448 | the router's close puts everybody out, closes the room and answers the request |
| `RoomSteps.OnlyEmptyRoomsAreGivenUp` | src/rct/rct_room.c:359-377 | over every run: a request to the router comes from the timer only, and only when the room has no members |
| `RoomSteps.OccupiedRoomStays` | src/rct/rct_room.c:364-367 | over every run: when the timer fires in an occupied room, members stay, no timer is left and no request is made by it |
| `RoomSteps.LastDeparture` | src/rct/rct_room.c:435-447 | over every run: when the last member leaves a room that no timer watches, a timer is started |
| `RoomProtocol.RoomObject.Join` | src/rct/rct_room.c:604-627 | in place: an earlier seat of the user is given up, the new member sits last |
| `RoomProtocol.RoomObject.MemberClose` | src/rct/rct_room.c:418-448 | in place: unlink and start the timer |
| `RoomProtocol.RoomObject.TimerTask` | src/rct/rct_room.c:359-377 | in place: the step that `TimerMeans` is about: ask the router of an empty room to close, otherwise stand down |
| `RtpCodecs.SameSymmetric` | src/rct/rct_utils.c:66-163 | the codec matcher is symmetric if its comparison of H264 profiles is |
| `RtpCodecs.SameIsRtx` | src/rct/rct_utils.c:66-163 | codecs that match are both retransmission codecs or neither is |
| `RtpFields.FitsIs` | src/rct/rct_utils.c:66-163 | two codecs match if and only if name, clock rate and channels are equal, for H264 also the packetization mode and the profiles agree, for VP9 also the profile id |
| `RtpFields.RtxByName` | src/rct/rct.c:599-612 | a retransmission codec is one whose name is something followed by /rtx |
| `RtpRouter.PooledTypesAreFree` | src/rct/rct_router.c:134-170 | a type from the pool lies in 96 to 127 and differs from every type settled before it |
| `RtpRouter.VideoCarriesRtx` | src/rct/rct_router.c:172-199 | each video codec is followed by exactly one retransmission codec, whose apt is its type; there are no others |
| `RtpRouter.TooManyIsTooMany` | src/rct/rct_router.c:153-183 | the negotiation gives up only when all 32 dynamic types are in use, never with fewer than sixteen configured codecs |
| `RtpPool.TooManyExactly` | src/rct/rct_router.c:153-183 | the negotiation gives up if and only if some codec of the configuration draws a type when none is left of the pool; what is left follows from the fixed types and draws before it |
| `RtpPool.TooManyCounted` | src/rct/rct_router.c:153-183 | where every fixed type is fresh that is a matter of counting: some draw comes when as many types were drawn before it as the types fixed before it have left over |
| `RtpTypes.DistinctExactly` | src/rct/rct_router.c:134-199 | all types differ if and only if, going through the configured codecs that the worker supports, no configured or static type was fixed before or is among the pool types drawn before; draws are counted from the configuration |
| `RtpTypes.DrawnIsDistinct` | src/rct/rct_router.c:152-170 | all types differ when no supported codec has a configured or static type |
| `RtpRouter.OnlyFixedTypesRepeat` | src/rct/rct_router.c:134-170 | all types differ if and only if no configured or static type repeats one that was settled before it: types from the pool never do |
| `RtpRouter.LateTypeCollides` | src/rct/rct_router.c:143-150 | a concrete configuration in which a later explicit type meets a pooled one |
| `RtpRouter.CreateCapabilities` | src/rct/rct_router.c:47-210 | in place: the nested loops compute what `CapabilityFields` describes |
| `RtpCapabilities.CapabilityFields` | src/rct/rct_router.c:47-199 | the capabilities are, in the order of the configuration, one media codec for each configured codec and the supported codec that it meets (same name and rate, same channels, for H264 same packetization), with every field and parameter of the configuration and the worker's where the configuration has none, and behind each video codec its retransmission codec; all of them unless the types run out, then all before the one that got none |
| `RtpCapabilities.PooledIsFirstFree` | src/rct/rct_router.c:134-170 | a type from the pool is the first of 100 to 127 and then 96 to 99 that is not in use yet |
| `RtpProducer.PayloadTypesRecovered` | src/rct/rct_producer.c:452-617 | with distinct types on both sides the result is the intended one for any order of walking the hash map; the assertion failures of the last loop cannot happen |
| `RtpProducer.Recovered` | src/rct/rct_producer.c:548-573 | looking a media codec up by its type, the mapped type and the router's type leads back to the codec it was matched with |
| `RtpProducer.IntendedPaired` | src/rct/rct_producer.c:595-617 | in consumable parameters each retransmission codec stands right behind the media codec whose type it names |
| `RtpProducer.SeparateExactly` | src/rct/rct_producer.c:452-464 | consumable media codecs have distinct types if and only if no two codecs of the producer were matched with one codec of the router |
| `RtpProducer.ProduceInput` | src/rct/rct_producer.c:407-620 | in place: the loops compute the specification, errors included |
| `RtpProducer.FindMatched` | src/rct/rct_producer.c:351-363 | the first codec that matches, if any, where matching is what `FitsIs` says |
| `RtpProduced.UnsupportedExactly` | src/rct/rct_producer.c:452-464 | a producer is refused as unsupported if and only if one of its media codecs has no router codec with equal name, rate and channels and equal codec-specific fields |
| `RtpProduced.NoAssociatedExactly` | src/rct/rct_producer.c:466-504 | where retransmission codecs name media codecs, matching them fails if and only if one names no codec of the producer or the router has no retransmission codec for what its media codec became |
| `RtpProduced.ProducedFields` | src/rct/rct_producer.c:539-617 | with distinct types the consumable parameters are, in order, each media codec of the producer with the name, rate, channels, type and feedback of the first router codec that fits it and its own parameters, followed by the router's retransmission codec for that type, and nothing else |
| `RtpProduced.OfferExactly` | src/rct/rct_producer.c:546-615 | for codecs with whatever types: an offer is made if and only if the three look-ups by type succeed without meeting a missing type, and it is the router's codec under the parameters of the producer's, with the first retransmission codec for its type if there is one |
| `RtpProduced.MappingFields` | src/rct/rct_producer.c:506-516 | the worker is told once for each codec of the producer which of its types becomes which type of the router's codec that fits it |
| `RtpConsumer.PruningFilters` | src/rct/rct_consumer.c:344-366 | walking and removing in place keeps exactly the media codecs and the retransmission codecs that have one, in order |
| `RtpConsumer.ConsumedIsChosen` | src/rct/rct_consumer.c:330-366 | the consumer's codecs are the surviving consumable codecs in their order |
| `RtpConsumer.RtxSurvivesExactly` | src/rct/rct_consumer.c:344-366 | a retransmission codec survives if and only if it and its media codec were both matched, where media codecs of one type are matched together |
| `RtpConsumer.BuilderExactly` | src/rct/rct_consumer.c:368-373 | building succeeds if and only if no surviving retransmission codec stands before the first matched media codec; then the gate has said yes |
| `RtpConsumer.GateAgreesWithBuilder` | src/rct/rct_consumer.c:579-585 | the gate says yes if and only if building does not fail, where media codecs of one type are matched together |
| `RtpConsumer.ConsumedPaired` | src/rct/rct_consumer.c:368-373 | the result begins with a media codec and is closed under apt, where media codecs of one type are matched together |
| `RtpConsumer.ConsumeInput` | src/rct/rct_consumer.c:330-373 | in place: filter, sanitize, check; `ConsumedFields` says what comes out |
| `RtpFields.ConsumedFields` | src/rct/rct_consumer.c:330-373 | what a consumer receives are consumable codecs in their order and with all their fields, each of which some capability of the consumer equals in name, rate, channels and the codec-specific fields, with the feedback of the first such capability; and every media codec that has such a capability is received |
| `RtpConsumer.ProducerCanConsume` | src/rct/rct_consumer.c:579-585 | in place: the loop of the gate, which `CanConsumeExactly` describes |
| `RtpFields.CanConsumeExactly` | src/rct/rct_consumer.c:579-585 | the gate says yes if and only if some media codec has a capability with equal name, rate, channels and codec-specific fields |
| `RtpPipeline.AptClosure` | src/rct/rct_consumer.c:330-373 | through all three stages every retransmission codec follows the media codec that it retransmits, for any comparison of profiles and codecs matched one to one |
| `RtpPipeline.AptClosureByProfile` | src/rct/rct_consumer.c:330-373 | with H264 codecs compared by profile the same holds for every producer that the code accepts, several codecs on one codec of the router included |
| `RtpPipeline.SurvivalByProfile` | src/rct/rct_consumer.c:344-366 | there a retransmission codec survives if and only if it and its media codec were both matched |
| `RtpPipeline.GateHolds` | src/rct/rct_consumer.c:579-585 | gate and builder agree for whatever the first two stages make of codecs matched one to one |
| `RtpPipeline.GateHoldsByProfile` | src/rct/rct_consumer.c:579-585 | with H264 codecs compared by profile they agree for every producer that the code accepts |
| `RtpTwoOnOne.GateSaysYesBuilderFails` | src/rct/rct_consumer.c:368-373 | a symmetric comparison that is not transitive and a concrete configuration, producer and consumer, taken through all stages, for which the gate says yes and building fails |
| `TaskQueue.EarlyStopIsFullFilter` | src/gr_task_worker.c:145-161 | where the unfinished tasks are the newest ones the walk that stops at a finished task collects what a full filter would |
| `TaskQueue.WalkSeesAll` | src/gr_task_worker.c:145-161 | in every reachable state of submitting and working the unfinished tasks are the newest ones, so the early-stopping walk sees all of them; `QueueIsSubmissions` says which tasks there are |
| `TaskQueue.FinishedInOrder` | src/gr_task_worker.c:198-261 | tasks are finished in the order of submission, each at most once, none left out of those that `QueueIsSubmissions` puts in the queue |
| `TaskOutcomes.QueueIsSubmissions` | src/gr_task_worker.c:271-305 | over every run: the queue holds what it held at the start and then, in order and with their kinds, exactly the submitted tasks of a kind that has a handler |
| `TaskOutcomes.StatusIsOutcome` | src/gr_task_worker.c:222-251 | over every run: a task that was finished has the status its handler answered, or -1 and then its kind has no handler |
| `TaskOutcomes.FinishedStays` | src/gr_task_worker.c:145-161 | over every run: a finished task is never touched again |
| `TaskOutcomes.TakeMeans` | src/gr_task_worker.c:211-245 | the worker takes the oldest unfinished task, gives it to its handler or marks it as failed, and goes on with what is pending |
| `TaskOutcomes.AnswerMeans` | src/gr_task_worker.c:246-251 | the answer becomes the status of the task that was handled and of no other; the answer 0 leaves the task and sends the worker to rest |
| `TaskOutcomes.OutOfPlace` | src/gr_task_worker.c:198-261 | waking starts a search, a shutdown stops the worker between two tasks, and no step has an effect out of place |
| `TaskOutcomes.WorkedOff` | src/gr_task_worker.c:198-261 | a worker that is woken and left alone can go on by its own steps until every task is dealt with up to the first postponed one, with the statuses that `DrainedIs` gives |
| `TaskQueue.PostponedStays` | src/gr_task_worker.c:246-249 | a postponed task and everything newer stays unfinished, and the next walk begins with it |
| `TaskQueue.DrainedIs` | src/gr_task_worker.c:210-252 | an undisturbed run gives the unfinished tasks in order the answer of their handler, or -1 if there is none, up to the first postponed one, and touches nothing else |
| `TaskQueue.TaskStore.RunWorker` | src/gr_task_worker.c:198-261 | in place: the nested loops of the worker |
| `TaskQueue.TaskStore.Pending` | src/gr_task_worker.c:145-161 | in place: the early-stopping walk |
| `GaugeLog.CompactionPreservesLevels` | src/gr_gauges.c:88-127 | over any run of set, maintain and prune the level at any time from the oldest surviving entry on is that of the log of all sets |
| `GaugeLog.WithoutPruning` | src/gr_gauges.c:289-326 | without pruning the levels agree at every time |
| `GaugeLog.MaintainLevel` | src/gr_gauges.c:289-326 | maintaining changes the level at no time |
| `GaugeLog.MaintenanceIsBounded` | src/gr_gauges.c:289-326 | repeated maintenance adds at most one entry, and exactly when it adds one |
| `GaugeLog.PruneIsSuffix` | src/gr_task_worker.c:101-111 | pruning leaves exactly the part of the log that begins with the first point that is not older |
| `GaugeLog.SetMeans` | src/gr_gauges.c:88-127 | setting a level appends one point exactly if the level differs from the newest one, and leaves the rest |
| `GaugeLog.RunCompact` | src/gr_gauges.c:289-326 | over every run: no three points in a row have the same level |
| `GaugeLog.GaugeStore.SetLevel` | src/gr_gauges.c:88-127 | in place: touches the log of its gauge only |
| `GaugeLog.GaugeStore.MaintainType` | src/gr_gauges.c:289-326 | in place: rewrite or copy; the second look never deletes the copy |
| `GaugeLog.GaugeStore.DeleteOlder` | src/gr_task_worker.c:101-111 | in place: prunes the logs of all gauges at once |
| `Whiteboard.DiffLaw` | front-whiteboard/src/utils.ts:11-31 | assigning the difference onto the old object gives the new one with removed properties set to null |
| `Whiteboard.DiffAgain` | front-whiteboard/src/utils.ts:11-31 | a difference taken again reports exactly the removed properties, so it is empty if and only if there are none |
| `Whiteboard.SecondSendIsEmpty` | front-whiteboard/src/collab.ts:144-212 | after a successful send, sending the same scene again sends no elements |
| `WhiteboardScenes.SentExactly` | front-whiteboard/src/collab.ts:150-163 | an element of the scene is sent if and only if it is on record in another version, or not on record and not deleted; and then as its difference from the record: what changed with its new value, what is gone as null |
| `WhiteboardScenes.RecordedAsInScene` | front-whiteboard/src/collab.ts:186-196 | a sent element goes on record as it is in the scene, with null for the properties that it has lost; one that was deleted since goes off the record |
| `WhiteboardScenes.RecordedElse` | front-whiteboard/src/collab.ts:186-196 | whatever is not sent stays on record as it was |
| `WhiteboardScenes.ReceivedMeans` | front-whiteboard/src/collab.ts:93-101 | receiving takes what the message marks as deleted off the record, takes over the properties of the others one by one with the key as id, and leaves all others alone |
| `WhiteboardScenes.SessionStarts` | front-whiteboard/src/collab.ts:68-76 | the first message of a session becomes the whole record, each element under its key |
| `Whiteboard.ReplicaFollows` | front-whiteboard/src/collab.ts:93-101 | a replica with the same map that receives the difference ends with the sender's map, and keys stay in step with ids |
| `Whiteboard.ReplicaStaysInStep` | front-whiteboard/src/collab.ts:93-101 | so it does through any sequence of sends |
| `Whiteboard.Collab.PeriodicSend` | front-whiteboard/src/collab.ts:144-212 | in place: what is sent and what is recorded, and that nothing is recorded when nothing was sent |
| `Whiteboard.Collab.OnElements` | front-whiteboard/src/collab.ts:93-101 | in place: deletions and merged elements, in any order of the keys |
| `Whiteboard.Collab.ObjectDiff` | front-whiteboard/src/utils.ts:11-31 | in place: the two loops over the keys |
| `RoomHistory.BoundedIsPrefix` | src/grh_ws_user.c:134-164 | after any joins the server's list is the first entries of the client's list, one more than the bound, for every bound |
| `RoomHistory.JoinIsPrefixExactly` | src/grh_ws_user.c:134-144 | for one join on any list the server cuts as the client's prefix would if and only if the list was not overlong or the room is not found before the cut |
| `RoomHistory.ServerHistory` | src/grh_ws_user.c:134-164 | the server's list has no duplicates, bounded length and the latest room first |
| `HistoryContents.ServerLists` | src/grh_ws_user.c:134-164 | starting from nothing, after any joins the server's list is the entry of the last join of each room, the latest first, as many as the bound allows |
| `HistoryContents.ClientLists` | front/src/user.ts:52-58 | starting from nothing, after any joins the client's list is exactly the entry of the last join of each room, the latest first |
| `RoomHistory.History.OnMemberJoin` | src/grh_ws_user.c:134-164 | in place: remove or cut, then prepend |
| `RoomHistory.User.AddRoomHistoryEntry` | front/src/user.ts:52-58 | in place: splice and unshift |
| `StringLiteral.RoundTrip` | tools/strliteral.c:118-175 | for every input, line length and mode a C compiler reads the emitted literals back as the input |
| `StringLiteral.LiteralsAreWhole` | tools/strliteral.c:155-167 | no escape is split across literals, and the pieces of the literals in a row are the input |
| `StringLiteral.LineLengths` | tools/strliteral.c:155-167 | every literal but the last has the asked length, and at most three characters more |
| `StringLiteral.EscapeRead` | tools/strliteral.c:119-151 | an escaped byte is read back as that byte whatever follows it |
| `LiteralForm.EscapeForm` | tools/strliteral.c:119-151 | printable bytes stand for themselves unless they could begin a trigraph, digraph or format, five have a two-character escape, and all others, or all on demand, are three octal digits |
| `LiteralForm.TextForm` | tools/strliteral.c:112-175 | the output consists of characters that no trigraph, digraph or format uses, and has one line for each literal |
| `StringLiteral.Generate` | tools/strliteral.c:112-175 | in place: the loop with its buffer of the line length plus four, which is never written past its end |

## Left out

- Data producers, data consumers, exports and recording: the same life cycle, tied to other processes.
- Allocation failure, and every error of the JSON library, the database and the thread pool except the ones named in the table.
- Messages to workers, websockets, event delivery and timers: they are steps that happen at any time, or parameters that say how they ended.
- `rct_transport_next_id_lk` (`src/rct/rct_transport.c:246-249`): it tests one slot and marks another, so ids of streams need not be unique.
- H264 profiles (`src/rct/rct_h264.c`): a finite table; the matcher takes the comparison as a parameter.
- RctClosedParents.JoinExact: the new member is linked after the user's earlier seat was closed and is created with its one lasting reference, because the large initial count is added and taken back in the same section; an event that closes the room in between cannot occur.
- RctClosedParents.CreateRoomExact: the room, too, is linked after the previous one was closed and created with its one lasting reference, for the same reason.
- RctNoTrace.FailedRunLeavesNoTrace: when the others close a router above something given up, it is not concluded but asked that this is in order without the half-made resource: the half-made resource may keep a closed transport there, and so decide which transport is remembered as the next one (`RouterCloseDiffers`).
- RctOwners.DropOwnerInv: the entries leave the member's list before the references are released; in the code each entry is removed right after its release, under the same lock.
- RctOwners.OnResourceClosedInv: stated for a close event whose rounds are not interrupted; a handler that adds an owner reference for the resource between two rounds leaves a new entry.
- Rooms are closed through their router only, as in the code; closing a room by its own id is not a step.
- Load scores are kept as the calls ask for them; `wrc_ajust_load_score` itself does nothing with them yet.
- Resource types of transports are one kind in the model; the four variants share their life cycle.
- Mime types are in lower case; the code compares them without regard to case but recognizes retransmission codecs with regard to it.
- Header extensions, encodings and feedback reduction: lists without an interplay with codec selection.
- Setting and maintaining a gauge at the same time: the check after the copy does not cover every interleaving, so the log is treated as sequential.
- Removing a room from the history by hand: afterwards the two lists differ in length by design.
- StringLiteral.Generate: the line length is a natural number; a negative argument, which the program turns into a huge one, is not modelled, nor is the 32-bit truncation of the printed length.
- Whiteboard collaborators, pointers and scene rendering: no law connects them with the elements.

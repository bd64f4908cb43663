# Verification of obd's daemon cores

This project models the concurrent and arithmetic cores of the lnd-derived daemon in `oblnd/` and the hop walking in
`experimental/admin/`, and proves what they guarantee over every run.

**The peer-session manager** (`oblnd/server.go`). `SessionState.dfy` gives the server's maps as a value, the effect of
each critical section under `s.mu` as a function, and a step relation in which accept handlers, explicit disconnects,
initializers, late termination watchers and notification requests interleave freely. An `Oracle` carries what the
environment decides during a critical section: the answers of the two `Stopped()` reads (the first may be stale, so the
flag can flip at any point) and whether a removed peer's disconnect stores an error. `SessionInvariants.dfy`,
`SessionListeners.dfy` and `SessionSteps.dfy` prove the whole-state invariant; `SessionProperties.dfy` and
`SessionRefinement.dfy` state the guarantees for every run from empty maps, `SessionBackoff.dfy` the exact condition under
which the stored backoffs stay in range, `SessionBuffers.dfy` that error buffers are never shared between keys, and
`SessionEffects.dfy` what each operation does to retries, persistence and listeners; `Server.dfy` is the same object in imperative form, each method proved to
perform its step and never to close a closed channel. The registry facts are claimed before shutdown, because `addPeer`
and `removePeer` freeze the maps afterwards; closing channels and the backoff map are safe in every state.

**Reconnect backoff** (`Backoff.dfy`) follows Go's `int64` arithmetic. The comment on `computeNextBackoff` promises a
duration randomized in either direction by a twentieth; the code discards the random number, so the result is the
truncated double plus a twentieth, or the truncated double itself when no number could be drawn, and the model does the
same.

**The preimage beacon** (`oblnd/witness_beacon.go`). `BeaconState.dfy` splits `AddPreimages` into its cache write and
its locked snapshot; deliveries send one preimage at a time into channels of capacity ten. `BeaconProperties.dfy` proves
that subscribing and then looking up misses nothing, that the cache holds what was added, and that delivery is exactly
once and in order.

**The payment stream dispatcher** (`oblnd/rpcserver.go`). `PaymentState.dfy` has the receiver, the send loop, the
workers, the token semaphore and the one-slot error channel. `PaymentProperties.dfy` proves token conservation, the
meaning of a nil return and exactly when one can still come, that no error is lost or made up, and that the final wait ends with one once the payments under way end. The only step that
could block for good is the push of a
marshal error, which nobody reads once the client has closed the stream; `MarshallRoute`
(`oblnd/lnrpc/routerrpc/router_backend.go:400-457`) never returns an error, so no run of this code takes it. The model
keeps the step, as `sendPayment` does, and states exactly from which states the call could still return.

**Smaller cores.** `ChannelNotifier.dfy`: which channels the backup holds, and exactly when cancelling cuts the stream
short. When `quit` wins over the send of an open event only the closure returns, so a later event can still be put into
the one-slot update channel; the sub-swapper has stopped reading by then (`oblnd/chanbackup/pubsub.go:249`), so its
backup always is what it should have been at some earlier event. `ChannelRestore.dfy`: the two loops that repair channel heights. `HtlcRoute.dfy`: forward and backward hop walking with
per-hop fees in exact arithmetic. `FundingPolicy.dfy`: confirmations, delays and reserves with wrap-around. The number of
confirmations falls for one more satoshi where `6 * stake` passes a multiple of 2^64. The reservation made just before
(`oblnd/funding/manager.go:1374`) tests the sign of the funder's balance as an int64 (`oblnd/lnwallet/reservation.go:266`),
which stops the pushed amounts below 2^63 at which this happens and lets those above through.

## Model

| member | source | states |
|---|---|---|
| Backoff.ComputeNextBackoffBounds | oblnd/server.go:4323-4345 | without overflow or zero margin a step lands on min(2b, MaxBackoff) if no random number could be drawn, strictly above it otherwise, and at most a twentieth (plus 1 ns) above MaxBackoff |
| Backoff.PanicsExactlyOnZeroMargin | oblnd/server.go:4330-4337 | `rand.Int` is asked for a number below zero margin exactly when the truncated double is below 10 ns in magnitude |
| Backoff.EscalatesExactlyWhen | oblnd/server.go:4323-4345 | for a non-negative backoff the step stays between the truncated double and the ceiling if and only if doubling fits into an int64 and the truncated double is at least 10 ns; for a negative one if and only if it doubles as it is without a wiggle, or wraps to at least 10 ns |
| Backoff.NextPeerBackoffInRange | oblnd/server.go:3193-3233 | whatever the session was, the next backoff stays between MinBackoff and the ceiling and the computation does not panic |
| Backoff.StableSessionReset | oblnd/server.go:3218-3232 | a stable session resets the backoff to MinBackoff exactly when it lasted at least the next backoff minus MinBackoff |
| Backoff.NextPeerBackoffCases | oblnd/server.go:3193-3233 | the first backoff is the minimum, a failed start or a session below ten minutes escalates, and a longer session takes its uptime off the next backoff |
| Backoff.AfterSessionsInRange | oblnd/server.go:3193-3233 | the bounds hold after any series of sessions |
| Backoff.RunsInRangeExactlyWhen | oblnd/config.go:1573-1577 | of the configurations the check accepts, exactly those with a minimum of 5 ns, a maximum of 10 ns and no overflow in doubling the largest backoff keep every series of sessions in range without a panic |
| Backoff.FailuresEscalate | oblnd/server.go:3206-3216 | after k failed or short sessions the backoff is at least min(2^k * b, MaxBackoff) |
| Backoff.StaysAtMaximum | oblnd/server.go:4323-4328 | once at MaxBackoff it stays there while sessions keep failing |
| SessionInvariants.AddKeepsRegistry | oblnd/server.go:3646-3671 | registering a fresh peer keeps watchers, indexes, handovers and connection places consistent and uses up the connection in hand |
| SessionInvariants.DetachKeepsRegistry | oblnd/server.go:4215-4219 | unregistering a peer and ignoring its watcher keeps the registry consistent |
| SessionInvariants.ScheduleKeepsRegistry | oblnd/server.go:3331-3335 | scheduling a connection for a key whose ignored peer is pending keeps the registry consistent |
| SessionInvariants.LeaveKeepsRegistry | oblnd/server.go:3823-3825 | a registered peer's own watcher keeps the registry consistent |
| SessionInvariants.ForgetKeepsRegistry | oblnd/server.go:3804-3819 | an ignored peer's watcher, taking the scheduled callback, leaves exactly that connection in hand |
| SessionListeners.CloseOfflineOnce | oblnd/server.go:3797-3800 | closing a key's offline listeners moves every channel from stored to closed, each closed exactly once, and leaves other keys alone |
| SessionListeners.CancelRetryOnce | oblnd/server.go:3464-3470 | cancelling a key's retries closes its canceller once and forgets it; every channel stays in as many places as before |
| SessionListeners.EnsureRetryOnce | oblnd/server.go:3907-3911 | a retry canceller is created exactly when the key has none, and the new channel is in that one place |
| SessionListeners.FlushAnswersOnce | oblnd/server.go:3730-3737 | the initializer's loop sends its peer to every waiting registration of its key, once, and to no other |
| SessionListeners.OnlineRequestAnswersOnce | oblnd/server.go:3095-3123 | a registration is sent the registered peer at once, or waits at the end of its key's list, never both |
| SessionListeners.OfflineRequestOnce | oblnd/server.go:3128-3151 | the channel handed out is new and ends up in exactly one place: closed if the key is not registered, stored if it is |
| SessionSteps.NextKeepsInv | oblnd/server.go:3255-4222 | every critical section keeps the whole invariant |
| SessionSteps.RunKeepsInv | oblnd/server.go:3255-4222 | so does every run, shutdown included |
| SessionProperties.PendingWatchers | oblnd/server.go:3751-3825 | before shutdown the pending watchers are exactly the disjoint union of registered and ignored peers |
| SessionProperties.LateWatcherSparesSuccessor | oblnd/server.go:3802-3825 | an ignored watcher leaves every registered peer in place, any other removes exactly its own entry |
| SessionProperties.HandoverSafety | oblnd/server.go:3326-3336 | a scheduled key is unregistered and an ignored peer of it has a pending watcher |
| SessionProperties.IndexesSplitRegistry | oblnd/server.go:3665-3671 | `peersByPub` is the disjoint union of `inboundPeers` and `outboundPeers` |
| SessionProperties.TieBreakUnreachable | oblnd/server.go:3304-3319 | an incumbent at the replace step has the new connection's direction, and the handlers' effect does not depend on the key order |
| SessionProperties.GreaterIsLexicographic | oblnd/server.go:3242-3250 | keys are compared at the first different byte, and a proper prefix is less |
| SessionProperties.OneSideDrops | oblnd/server.go:3242-3250 | of two different keys exactly one drops its local connection |
| SessionProperties.ConnectionsConserved | oblnd/server.go:3265-3449 | every connection handed over is in exactly one place: closed by a handler, in one callback, or owned by one peer object |
| SessionProperties.PlacesAreFinal | oblnd/server.go:3525-3642 | connections stay accounted for: closed stays closed, owned stays owned |
| SessionProperties.ClosedOnce | oblnd/server.go:3464-3470 | in every state no channel has been closed twice, and every stored listener or canceller is open and stored once |
| SessionProperties.OfflineIsWatched | oblnd/server.go:3144-3151 | a stored offline channel has a pending watcher of its key |
| SessionProperties.OnlineAnsweredOnce | oblnd/server.go:3723-3737 | every online registration waits once or was answered once, and never waits behind a registered peer that has already notified |
| SessionProperties.BackoffBounded | oblnd/server.go:3828-3903 | over whole runs backoffs exist only for persistent peers, within range under a sane configuration |
| SessionBackoff.SeriesHappens | oblnd/server.go:3827-3911 | every series of sessions is the backoff history of some run of the whole manager |
| SessionBackoff.BackoffBoundedExactlyWhen | oblnd/config.go:1573-1577 | the backoffs of the whole manager stay in range over every run, without a panic, if and only if the configuration meets that condition |
| SessionBuffers.BuffersAreNeverShared | oblnd/server.go:3548-3557 | in every reached state peers with the same error buffer have the same key, and a kept buffer is that of an earlier peer of its key |
| SessionBuffers.NewPeersGetOwnBuffers | oblnd/server.go:3548-3557 | a new peer takes over the kept buffer of its key, or gets one no peer ever had |
| SessionBuffers.ErrorsAreFiledByOwner | oblnd/server.go:4036-4073 | a buffer counts exactly the errors stored for a peer that has it and the disconnect errors of such a peer when it is removed |
| SessionEffects.AcceptedInboundEndsRetries | oblnd/server.go:3265-3336 | the connection is closed exactly for a key with an outbound peer or a waiting connection; otherwise the key loses its requests and its canceller, which is closed once, and other keys keep theirs |
| SessionEffects.AcceptedOutboundEndsRetries | oblnd/server.go:3357-3449 | the same for outbound connections, where a cancelled request is another reason to close |
| SessionEffects.DisconnectEndsRetries | oblnd/server.go:4190-4222 | disconnecting a registered peer ends its retries and its persistence and touches no other key; otherwise nothing happens |
| SessionEffects.PruneSparesPermanent | oblnd/server.go:3021-3039 | exactly a persistent, non-permanent key is pruned, with its retries; everything else stays |
| SessionEffects.ConnectRefusesRegistered | oblnd/server.go:4100-4105 | a registered key is refused and nothing changes |
| SessionEffects.ConnectMakesPermanent | oblnd/server.go:4117-4141 | the key is permanent, keeps its backoff or gets the minimum, and has one more request |
| SessionEffects.PermanentSurvives | oblnd/server.go:3021-3039 | a permanent key stays permanent over every run without its explicit disconnect or its set-up at start |
| SessionEffects.PersistenceHasCause | oblnd/server.go:1334-1339 | over every run a permanent key was connected with `perm` and any other persistent key got a channel or was set up at start |
| SessionEffects.NewChannelKeepsFlag | oblnd/server.go:1334-1339 | a new channel makes a key persistent and leaves the flag of a persistent key alone |
| SessionEffects.StartupMakesPersistent | oblnd/server.go:2961-2969 | the start-up makes a key persistent, not permanent, with its backoff or the minimum |
| SessionEffects.WatcherSchedulesRetry | oblnd/server.go:3827-3911 | the live peer of a persistent key with an address left leaves the next backoff and a retry canceller behind; any other watcher leaves reconnecting alone |
| SessionEffects.ReconnectStores | oblnd/server.go:3987-3993 | the kept requests are stored and a retry canceller exists, the old one if there was one |
| SessionEffects.RequestIsAppended | oblnd/server.go:4012-4017 | a staggered request is appended to its key's |
| SessionEffects.WatcherClosesOffline | oblnd/server.go:3797-3800 | a watcher closes all offline channels of its key, each once, and no other channel |
| SessionEffects.InitializerNotifies | oblnd/server.go:3723-3737 | every registration waiting for the key is sent exactly the new peer, and no other one is answered |
| SessionEffects.InitializerCutShort | oblnd/server.go:3730-3737 | when quit is chosen after some sends, exactly those registrations were answered and the list stays |
| SessionEffects.StoppedDoNothing | oblnd/server.go:3256-3260 | whoever sees at once that the server is stopping does nothing |
| SessionEffects.ShutdownFreezesMaps | oblnd/server.go:3652-3655 | once the server is stopping the maps of registered peers never change again |
| SessionRefinement.StepRefines | oblnd/server.go:3255-3450 | each step is, for every key at once, a step of the machine Absent / Live / Handing; a watcher ends a live session exactly when the live connection is its own |
| SessionRefinement.RunRefines | oblnd/server.go:3255-3450 | the maps always say about a key what its machine says, and never both a registered and a waiting connection |
| SessionRefinement.DrainShrinks | oblnd/server.go:3804-3825 | while no connection arrives every launch or run of a watcher shrinks the backlog, even one that starts a waiting connection, and nothing else grows it |
| SessionRefinement.HandoversDrain | oblnd/server.go:3804-3825 | with no arrivals, whatever else happens, only boundedly many watchers are launched and run, some such step is possible while one is pending, and at the end nothing is registered, ignored or scheduled |
| SessionRefinement.ErrorHistorySurvives | oblnd/server.go:3548-3557 | a key's non-empty error buffer is the one every later peer of the key gets |
| SessionRefinement.RemovalStartsHistory | oblnd/server.go:4069-4073 | a peer removed with a non-empty buffer leaves it as its key's history; no key is both registered and in `peerErrors` |
| Server.Server.constructor | oblnd/server.go:599-617 | the manager starts with empty maps |
| Server.Server.CancelConnReqs | oblnd/server.go:3464-3501 | closes the retry canceller, which must be open, and discards the requests |
| Server.Server.AddPeer | oblnd/server.go:3646-3671 | indexes the peer, or nothing during shutdown |
| Server.Server.PeerConnected | oblnd/server.go:3525-3642 | makes the peer with the kept or a fresh buffer, registers it and drops the kept buffer |
| Server.Server.RemovePeer | oblnd/server.go:4036-4073 | unregisters the peer and keeps a non-empty buffer, or nothing during shutdown |
| Server.Server.InboundPeerConnected | oblnd/server.go:3255-3337 | performs the inbound step of the session manager and keeps channels sound |
| Server.Server.OutboundPeerConnected | oblnd/server.go:3342-3450 | performs the outbound step and keeps channels sound |
| Server.Server.DisconnectPeer | oblnd/server.go:4190-4222 | performs the disconnect step; reports failure exactly when the key is not registered |
| Server.Server.PeerInitializer | oblnd/server.go:3690-3709 | starts the watcher unless the server is stopping |
| Server.Server.NotifyListeners | oblnd/server.go:3723-3737 | sends the peer to every waiting listener in order and forgets them, or stops at the closed quit channel |
| Server.Server.CloseOfflineListeners | oblnd/server.go:3797-3800 | closes every offline listener of the key, each still open when it is closed |
| Server.Server.ScheduleReconnect | oblnd/server.go:3827-3911 | records the next backoff and ensures a retry canceller for a persistent peer |
| Server.Server.PeerTerminationWatcher | oblnd/server.go:3751-3911 | performs the watcher's step and keeps channels sound |
| Server.Server.NotifyWhenOnline | oblnd/server.go:3095-3123 | answers at once when the peer is registered, otherwise stores the listener |
| Server.Server.NotifyWhenOffline | oblnd/server.go:3128-3151 | returns a channel that is closed exactly when the peer is not registered |
| Server.Server.ConnectToPeer | oblnd/server.go:4088-4147 | refuses when the peer is registered; otherwise marks it permanent with a default backoff and a request, or changes nothing and goes on to dial |
| Server.Server.PrunePersistentPeerConnection | oblnd/server.go:3021-3039 | forgets a persistent peer that was not requested as permanent |
| Server.Server.WatchNewChannel | oblnd/server.go:1334-1339 | marks the channel peer persistent unless it already is |
| Server.Server.EstablishPersistentConnection | oblnd/server.go:2961-2969 | marks a known peer persistent with a default backoff |
| Server.Server.ConnectToPersistentPeer | oblnd/server.go:3987-3993 | stores the requests and ensures a retry canceller |
| BeaconProperties.SubscribeThenLookupNeverMisses | oblnd/witness_beacon.go:83-121 | each preimage of an announced batch was cached when an uncancelled subscriber subscribed, or is received, buffered or queued for it |
| BeaconProperties.DeliveredOnceInOrder | oblnd/witness_beacon.go:106-118 | at most ten preimages are buffered, and what a subscriber in the snapshot got plus what is queued is the batch, in order and once; a cancelled one got a prefix, others nothing |
| BeaconProperties.LookupFindsAdded | oblnd/witness_beacon.go:65-101 | a lookup finds every preimage ever added, unless a different one with the same hash was written |
| BeaconProperties.WriteStores | oblnd/witness_beacon.go:98-101 | a batch write stores each preimage that no later one of the batch replaces |
| BeaconProperties.WriteLeavesOthers | oblnd/witness_beacon.go:98-101 | and leaves every other hash as it was |
| BeaconProperties.EverythingCanArrive | oblnd/witness_beacon.go:106-118 | from every reached state a subscriber in a call's snapshot gets the whole batch by its own reads and its delivery's sends |
| BeaconProperties.LookupFindsKnown | oblnd/witness_beacon.go:65-79 | a lookup after the subscription finds, under the hash asked for, whatever was cached before it: the latest preimage written for that hash |
| BeaconProperties.RunInv | oblnd/witness_beacon.go:33-121 | the beacon's invariant holds after every step of every interleaving |
| Beacon.PreimageBeacon.SubscribeUpdates | oblnd/witness_beacon.go:33-51 | registers a fresh client under the next id |
| Beacon.PreimageBeacon.CancelSubscription | oblnd/witness_beacon.go:52-59 | removes the client and closes its quit channel, once |
| Beacon.PreimageBeacon.LookupPreimage | oblnd/witness_beacon.go:65-79 | returns exactly what the cache holds under the hash |
| Beacon.PreimageBeacon.AddWitnesses | oblnd/witness_beacon.go:98-101 | the loop stores every preimage of the batch under its hash, later ones winning |
| Beacon.PreimageBeacon.NotifySubscribers | oblnd/witness_beacon.go:103-118 | starts one delivery of the whole batch for every current subscriber |
| Beacon.PreimageBeacon.AddPreimages | oblnd/witness_beacon.go:83-121 | does nothing for an empty batch or a failed write, otherwise caches and then announces |
| Beacon.PreimageBeacon.DeliverNext | oblnd/witness_beacon.go:110-116 | a delivery sends its next preimage, or returns when quit is closed |
| PaymentProperties.TokensConserved | oblnd/rpcserver.go:5830-5834 | free tokens and holders always make 2000, so returning a token never blocks |
| PaymentProperties.AtMostOneAnswer | oblnd/rpcserver.go:5850-6018 | each request causes at most one send |
| PaymentProperties.NilReturnAnsweredAll | oblnd/rpcserver.go:6022-6024 | on a nil return all goroutines are done and every request had one send, or none if its dispatch ended in a save or marshal error |
| PaymentProperties.RequestsAreSorted | oblnd/rpcserver.go:5876-5950 | every well-formed request is handed over and gets a worker unless the call has returned; a malformed one is answered by the receiver and never gets a worker |
| PaymentProperties.ReceiverStops | oblnd/rpcserver.go:5863-5903 | the receiver reads nothing more after the end of the stream, a failed receive or a failed reply |
| PaymentProperties.ErrorReturnIsFinal | oblnd/rpcserver.go:5916-5923 | an error taken by the send loop, or the shutdown, ends the call with an error for good |
| PaymentProperties.ErrorReturnFrees | oblnd/rpcserver.go:5919-5950 | returning an error lets waiting workers give up, a blocked one push, and the receiver stop |
| PaymentProperties.NilReachableExactlyWhen | oblnd/rpcserver.go:5850-6024 | after any run nil can still be returned if and only if no error was returned, the receiver is there or saw the end of the stream, and nobody is blocked on a marshal error, or one worker is and errChan is empty |
| PaymentProperties.EofLetsTheCallReturn | oblnd/rpcserver.go:5863-5866 | once the client has closed the stream the send loop can leave, and with no worker blocked the call can return nil |
| PaymentProperties.ErrorsAreReported | oblnd/rpcserver.go:5867-5903 | after a failed receive, send or save errChan is full or the send loop has been left |
| PaymentProperties.ErrorsHaveCause | oblnd/rpcserver.go:5916-5926 | errChan is only full, and an error only returned, after such a failure, a pushed marshal error or the shutdown |
| PaymentProperties.WaitReturnsNil | oblnd/rpcserver.go:6022-6024 | without marshal errors the final wait takes boundedly many steps under every schedule and goes on until the call has returned nil |
| PaymentProperties.ReturnsExactlyWhen | oblnd/rpcserver.go:5998-6024 | from the final wait a run to the return of nil exists if and only if nobody is blocked on a marshal error, or one worker is and errChan is empty |
| PaymentProperties.DrainIsFinite | oblnd/rpcserver.go:6022-6024 | every step of the final wait brings it closer to the return |
| PaymentProperties.BlockedByMarshalError | oblnd/rpcserver.go:5995-6001 | a worker blocks only because its own route could not be marshalled |
| PaymentStream.FillSemaphore | oblnd/rpcserver.go:5830-5834 | the loop puts 2000 tokens into the semaphore |
| PaymentStream.Stream.Receive | oblnd/rpcserver.go:5858-5883 | the receiver's step for end of stream, failure, malformed request and payment |
| PaymentStream.Stream.ReplyMalformed | oblnd/rpcserver.go:5886-5903 | one error reply per malformed request; the receiver ends if the send fails |
| PaymentStream.Stream.HandOver | oblnd/rpcserver.go:5928-5940 | the send loop accepts the request and starts its worker |
| PaymentStream.Stream.TakeToken | oblnd/rpcserver.go:5946-5950 | a worker takes a token or gives up after the call has returned |
| PaymentStream.Stream.Complete | oblnd/rpcserver.go:5955-6017 | the outcomes of a dispatch: save error, payment error or answer, marshal error |
| PaymentStream.Stream.PushError | oblnd/rpcserver.go:5998-6001 | the blocking push of a marshal error |
| PaymentStream.Stream.ReturnToken | oblnd/rpcserver.go:5951-5953 | the deferred return of the token |
| PaymentStream.Stream.Leave | oblnd/rpcserver.go:5916-5934 | the send loop's other choices and the return of nil |
| ChannelNotifier.ProxyEvents | oblnd/channel_notifier.go:97-183 | the loop forwards exactly the events its specification forwards, under every choice of `select` |
| ChannelNotifier.BackupHoldsUnreleased | oblnd/channel_notifier.go:106-176 | folding what the loop has put out gives exactly the channels present at the start or opened and not released since; our own force close does not release |
| ChannelNotifier.BackupIsAtSomeEvent | oblnd/chanbackup/pubsub.go:246-310 | what the sub-swapper holds, which stops reading before it cancels, is always exactly what it should have held at some event before the cancel, with at most one update missing |
| ChannelNotifier.ForwardsEverything | oblnd/channel_notifier.go:97-183 | without a cancel every relevant event is forwarded in order |
| ChannelNotifier.ForwardedAreUpdates | oblnd/channel_notifier.go:106-176 | the positions to forward are exactly those of the events the backup cares about, in order |
| ChannelNotifier.CancelYieldsPrefixExactlyWhen | oblnd/channel_notifier.go:77-81 | what the consumer receives is a prefix under every schedule if and only if it stops reading before it cancels, or no open event from the cancel on is followed by another event to forward |
| ChannelNotifier.CancelCanSkip | oblnd/channel_notifier.go:77-81 | of two channels opened after the cancel the second can be put into the update channel without the first, where nobody reads it |
| ChannelNotifier.CancelKeepsThePast | oblnd/channel_notifier.go:178-182 | nothing put out before the cancel is lost |
| ChannelRestore.RestoreChansFromSingles | oblnd/chanrestore.go:196-264 | fails exactly when a backup cannot be opened, panics exactly on an empty batch, otherwise repairs every shell with the batch's hint |
| ChannelRestore.FirstHeightIsMinimum | oblnd/chanrestore.go:198-209 | the first loop finds the smallest known height |
| ChannelRestore.RepairLeavesUsableShells | oblnd/chanrestore.go:239-264 | a backup with height and index keeps both and is untouched; one without an index gets height zero and its encoded height as broadcast height; one without a height gets a non-zero broadcast height |
| ChannelRestore.UnknownBatchStartsAtLaunch | oblnd/chanrestore.go:212-230 | with no known height shells are watched from block 571800 on mainnet, 1489300 on testnet, and 1 elsewhere |
| ChannelRestore.HintIsEarlyEnough | oblnd/chanrestore.go:214-249 | a shell with no known height is watched from no later than any known height of the batch |
| HtlcRoute.InterUserGetNextNode | experimental/admin/htlc_r.go:25-55 | the loop and the branches after it find the next hop that `NextNodeIsOtherParty` and `NextNodeFound` describe |
| HtlcRoute.InterUserGetHtlcRFromLocalForPreNode | experimental/admin/htlc_r.go:57-84 | the loop and the branches after it find the previous hop that `PreviousNodeIsOtherParty` and `PreviousNodeFound` describe |
| HtlcRoute.NextNodeIsOtherParty | experimental/admin/htlc_r.go:38-52 | H goes to the other party of the next channel, never to the sender itself, on the node the tracker knows, with the amount of that place in the route |
| HtlcRoute.NextNodeFound | experimental/admin/htlc_r.go:38-55 | on distinct channels the next hop is found exactly when the tracker knows the other party's node |
| HtlcRoute.PreviousNodeIsOtherParty | experimental/admin/htlc_r.go:67-81 | R goes to the other party of the previous channel, on the node the tracker knows |
| HtlcRoute.PreviousNodeFound | experimental/admin/htlc_r.go:67-84 | on distinct channels the previous hop is found exactly when the tracker knows the other party's node |
| HtlcRoute.BackwardInvertsForward | experimental/admin/htlc_r.go:28-69 | on distinct channels the backward step undoes the forward step and the other way round |
| HtlcRoute.WalkReachesEveryHop | experimental/admin/htlc_r.go:28-38 | n-1 forward steps from the first channel reach the last, and no step leads beyond it |
| HtlcRoute.AmountsDropByFee | experimental/admin/htlc_r.go:46 | the forwarded amount drops from hop to hop by amount * rate up to one unit, and never grows |
| HtlcRoute.AmountsNeverGrow | experimental/admin/htlc_r.go:46 | amounts never grow between any two hops |
| HtlcRoute.Round8Odd | experimental/admin/htlc_r.go:46 | amounts are rounded to eight decimals, halves away from zero on both sides |
| HtlcRoute.LastAmountIsPayees | experimental/admin/htlc_r.go:46 | the last hop carries the rounded payee amount |
| FundingPolicy.ConfsInRange | oblnd/server.go:1230-1275 | without an override three to six confirmations are required for all amounts |
| FundingPolicy.ConfsBySixths | oblnd/server.go:1262-1274 | where nothing wraps, at least four, five or six confirmations are required from that many sixths of the largest channel on |
| FundingPolicy.WumboConfs | oblnd/server.go:1254-1258 | a channel beyond the largest size requires six |
| FundingPolicy.OverridesAreReturned | oblnd/server.go:1243-1289 | a positive 16-bit setting replaces both scales |
| FundingPolicy.ConfsMonotoneExactlyWhen | oblnd/server.go:1257-1274 | the requirement grows with the channel, across the wumbo boundary, if and only if the product wraps equally often at both ends of the scale |
| FundingPolicy.ConfsMonotoneForHonestPush | oblnd/server.go:1257-1274 | so it does whenever no more than the largest capacity is pushed |
| FundingPolicy.ConfsDropAtWrap | oblnd/server.go:1266-1274 | where it wraps, one satoshi more takes the requirement from six to three |
| FundingPolicy.ConfsMonotoneBelowHalf | oblnd/lnwallet/reservation.go:257-271 | a push below 2^63 that passes the reservation's balance test keeps the requirement growing with the channel |
| FundingPolicy.ConfsDropConcretely | oblnd/server.go:1266-1274 | for two sizes above the minimum channel and a push that passes the reservation's balance test, one satoshi more takes the requirement from six to three |
| FundingPolicy.DelayIsExact | oblnd/server.go:1315-1316 | on the scale neither the uint64 product nor the uint16 conversion loses anything |
| FundingPolicy.DelayEndpoints | oblnd/server.go:1294-1321 | the smallest delay is 144 blocks, 576 on Litecoin and 9 for assets on test networks; from the largest size on it is 2016, 8064 on Litecoin |
| FundingPolicy.DelayIsLinear | oblnd/server.go:1315-1322 | in between it is the linear one, rounded down |
| FundingPolicy.DelayInRangeAndMonotone | oblnd/server.go:1276-1324 | without an override the delay lies between its minimum and maximum and grows with the channel, for every asset |
| FundingPolicy.ReserveMeetsDust | oblnd/server.go:1349-1366 | the reserve is one percent rounded down, raised to the dust limit for bitcoin only |
| FundingPolicy.AssetCapacitySplits | oblnd/server.go:1349-1376 | reserve and maximum in flight of an asset channel make up its capacity |
| FundingPolicy.BitcoinCapacitySplitsExactlyWhen | oblnd/server.go:1349-1376 | for bitcoin they cover the capacity, with equality unless the dust floor applies, if and only if the flow fits into a uint64 of millisatoshis |

## Left out

- Calls into the connection manager, htlc switch, funding manager and gossiper, and all databases and sockets: library or I/O code.
- Server.Server.CancelConnReqs: discards a key's requests without the loop of `connMgr.Remove` calls, so the skipped request id has no effect.
- Server.Server.ScheduleReconnect: the watcher's address bookkeeping is one input that says whether an address is left; it compares strings of types that are not part of this model.
- Server.Server.ConnectToPersistentPeer: the reconciliation of requests and addresses compares such strings too; the requests kept are an input.
- Backoff.EscalatesExactlyWhen: negative maxima, and maxima above nine tenths of the int64 range (262 years of nanoseconds), where the wiggle itself can overflow and a twice wrapped value can land in range by accident.
- `establishPersistentConnections` marks all known peers under one lock; the model marks them one by one, which only adds interleavings.
- A send on a listener's channel and the wait for a disconnect are taken to complete; a listener that never receives would keep the server's lock.
- Registry facts after shutdown has begun: the maps are frozen then and peers may be both registered and ignored.
- Randomness in `computeNextBackoff`: the number drawn is not used.
- Backoff.RunsInRangeExactlyWhen: negative minima, and the same maxima; `SessionBackoff.BackoffBoundedExactlyWhen` shares both limits.
- Preimage deletion from the witness cache, and wrap-around of the 64-bit subscriber counter.
- A second call of a subscription's cancel function closes a closed channel and panics; callers must not do it.
- `SendToRoute` and the contents of payments and replies: only who is answered, how often, and how the call ends.
- The early return of `sendPayment` while the server is still starting, before any goroutine exists.
- FundingPolicy.RequiredRemoteMaxValue: amounts of 2^63 and more, which turn negative in the conversion to `btcutil.Amount`.
- HtlcRoute.HopAmount: fees are computed in exact arithmetic; the source converts through binary floating point before and after.
- The channel shell's keys, channel type and the database insert of a restore: they do not touch heights.
- The signing helpers of `experimental/admin`, the tracker and the storage queries: straight-line calls into services whose answers are inputs here.

# Verified model of the Aloqa server core

This project models the stateful core of the Aloqa collaboration server and proves what
that core keeps over every run, every interleaving and every input.

- **Adaptive video** (`Quality`, `Adaptive`, `Decisions`, `Smoothing`, `Monotone`,
  `Upswitch`, `ClosedLoop`). The controller smooths network samples, scores them, chooses
  a simulcast layer, clamps it to the layers that exist and applies hysteresis. Metrics
  are reals, times are integers in nanoseconds.
- **Media room** (`RoomState`, `Room`, `RoomRules`, `RoomProofs`, `RoomLocals`,
  `RoomLayers`, `RoomSenders`, `RoomWitness`, `RoomRaces`). `RoomState` gives the room as
  a state and its atomic steps, `Room` the in-place server code proved step by step
  against it, the others what every reachable state keeps and short runs to what it does
  not. A sender is the identity of the local track it carries. `RoomRaces` separates the
  policy check of a track from its publication.
- **Call protocols** (`WebhookLease`, `CallLifecycle`, `HostTransfer`). Each SQL statement
  is one atomic step on maps of rows; claimants and transactions are interleaved statement
  by statement, with row locks where the statements lock.
- **Reminders** (`ReminderDiscovery`, `ReminderOutbox`, `OutboxRuns`, `ReminderDiff`). The
  polling window and its dispatch table, the bounded-retry outbox alone and under
  concurrent transactions, and the replacement of reminder definitions. A recurrence rule
  (section 3.3.10 of RFC 5545) is the set of instants it generates.
- **WebSocket hub** (`Hub`, `HubRuns`, `HubWitness`). `Hub` holds the two maps, the
  channels and the drop counters; a client object is a reference into a heap, so that two
  objects may carry one ID. `HubRuns` interleaves broadcasts, client by client, with
  everything that writes.
- **File library** (`Lists`, `Sorting`, `FileLibrary`, `FileFacets`, `FilePaging`,
  `ListingRules`). Filter, total order, facets and cursor paging.

Classes follow the server's objects and tables: each method is proved equal to a function
or step of a value state, and the theorems are about runs of those steps. What one step
means in terms of its inputs, when it succeeds and what it leaves alone, is proved about
the step as well (`Decisions`, `RoomRules`, `ListingRules` and the lemmas named `...Exactly`
in the other modules). Maps that the server walks in an unspecified order are walked in an
arbitrary order here too. Dafny's automatic induction is switched off for every lemma:
inductive proofs recurse explicitly.

Where the code does not have a property, the model keeps the code and states exactly when
it holds:

- Video suspension bypasses the device cap, so a worse network can raise the wanted layer
  (`Monotone.DesiredMonotoneExactly`, with `Monotone.SuspensionBypassesDeviceCap`).
- A bandwidth estimate that rounds to zero reads as unlimited: it can raise the layer, end
  a suspension and hide a critical grade (`Monotone.RawLayerMonotoneExactly`,
  `Monotone.SuspensionMonotoneExactly`, `Monotone.GradeMonotoneExactly`, with
  `Monotone.UnknownBandwidthReadsAsUnlimited`).
- Every unrecognised RID counts as full resolution and a layer is replaced without looking:
  a publisher with two such RIDs leaves its listeners recorded on a layer whose local track
  their senders do not carry (`RoomLayers.AddingLayerAgreesExactly`, with
  `RoomWitness.DistinctRIDsCanShareALayer`).
- A track published again under its own live ID strands its listeners on the old router
  (`RoomSenders.PublishingAgreesExactly`, with `RoomWitness.RepublishingStrandsViewer`).
- A presenter that republishes another presenter's live track ID keeps receiving itself, a
  track under a stream's ID reaches no viewer, and a presenter that asks for a layer of its
  own stream receives itself (`RoomProofs.TrackKeepsFanOutExactly`,
  `RoomProofs.StreamKeepsFanOutExactly`, `RoomProofs.SwitchKeepsFanOutExactly`, with
  `RoomWitness.TakeoverReceivesItself`).
- The limit on published tracks is passed by a publisher that reuses the ID of its own
  stream for a track, or of its own track for a stream, and by relay packets, which are not
  checked (`RoomLayers.PublishedTrackKeepsCapExactly`,
  `RoomLayers.PublishedLayerKeepsCapExactly`, `RoomLayers.RelayKeepsCapExactly`, with
  `RoomWitness.OwnStreamIDExceedsCap`, `RoomWitness.OwnTrackIDExceedsCap` and
  `RoomWitness.RelaysExceedCap`).
- The policy check of a track and its publication take the room's lock separately, so
  tracks that overlap can pass the limit: by as many as were waiting at most, and that many
  are reached (`RoomRaces.OverlapBoundsExcess`, `RoomRaces.ExcessIsReached`).
- The role update is documented as keeping the host slot single, but its guard looks only
  at the old role, so it may write a second host, which then stays
  (`HostTransfer.AlwaysOneHost`). The call service refuses the host role before it gets
  there (internal/service/call/service.go:2243-2246).
- A reminder due between two polls further apart than the 30-second window can be lost.
  The worker's ticker interval equals the window, so a poll that is delayed beyond it is
  enough (`ReminderDiscovery.DispatchedExactly`, `ReminderDiscovery.WiderGapLosesReminder`).
- The hub trusts its callers with IDs and client objects. Registering under an ID in use
  leaves the earlier client's channel open until somebody registers that client again
  (`HubRuns.OrphansAreDisplaced`, `HubRuns.OrphanForGood`). Registering under an ID that
  waits for eviction gets the newcomer evicted instead of the slow client
  (`HubRuns.ConnectKeepsHoldersSlowExactly`, `HubRuns.AgainKeepsHoldersSlowExactly`,
  `HubRuns.ListedIDEvictsNewcomer`, `HubRuns.ListedIDEvictsReturner`, with
  `HubWitness.WrongEvictionIsReached`). Registering a client object again after its channel
  was closed makes the next broadcast to it panic (`HubRuns.SafeStepExactly`,
  `HubRuns.RevivedClientPanics`). The server's handler makes a new client with a new ID for
  every connection and registers it once.
- An ID with the separator in it makes the controller forget other users' or streams'
  state (`Upswitch.ForgetUserExactly`, `Upswitch.ForgetStreamExactly`).
- `BestAvailableLayer` is documented as never exceeding the requested layer; the code goes
  above it exactly when nothing at or below exists (`Quality.BestKnownIsClosest`).

The run theorems state their assumptions on the runs in predicates, and lemmas beside them
say exactly which steps break what they guard: `RoomProofs.KeepsIDs` (track and stream IDs
disjoint, no live ID republished by another presenter, no presenter asking for its own
stream), `RoomLayers.ReplacesNoLayerInUse`, `RoomSenders.StrandsNobody`,
`RoomLayers.ReusesOwnID`, `RoomLayers.NoLocalRelay`, `HubRuns.NoRevival` and
`HubRuns.SparesListed`. The `Enabled` predicates of the interleaved machines say which
steps exist at all (unique tokens and a monotone database clock for leases).

## Model

| member | source | states |
|---|---|---|
| Quality.LayerFromRID | internal/media/sfu/simulcast.go:26-37 | every RID maps to one of the three known layers; the standard ones to themselves, any other to full |
| Quality.LayerPriority | internal/media/sfu/simulcast.go:378-389 | the trial order is a permutation of the three known layers, starts with a known preference and lists the rest best first: below the preference descending, then above it ascending |
| Quality.BestKnown | internal/media/sfu/simulcast.go:185-202 | with a known layer present the answer is in the stream and serves the preference better than any other layer there |
| Quality.BestKnownIsClosest | internal/media/sfu/simulcast.go:185-202 | the resolved layer stays at or below the preference if and only if some known layer does, and is then the highest such; else it is the lowest one there is |
| Quality.BestKnownMonotone | internal/media/sfu/simulcast.go:378-389 | asking for a higher layer never resolves to a lower one |
| Adaptive.AdaptiveController.constructor | internal/media/sfu/adaptive.go:147-152 | a new controller has usable options and no state |
| Adaptive.AdaptiveController.Decide | internal/media/sfu/adaptive.go:178-261 | table and decision after one sample: only the sample's key changes, and state and decision are those of the decision function the run theorems are about |
| Adaptive.AdaptiveController.ApplyHysteresis | internal/media/sfu/adaptive.go:207-237 | agreement counters, hold flag, switch time and last layer |
| Adaptive.AdaptiveController.ForgetUser | internal/media/sfu/adaptive.go:154-164 | exactly the entries whose key starts with the user's prefix go |
| Adaptive.AdaptiveController.ForgetStream | internal/media/sfu/adaptive.go:166-176 | exactly the entries whose key ends with the stream's suffix go |
| Adaptive.RawQualityMeaning | internal/media/sfu/adaptive.go:299-379 | when the policy wants the full layer and when the low one, as conditions on the metrics in both directions; a suspended video wants low |
| Adaptive.ClampQuality | internal/media/sfu/adaptive.go:400-414 | the clamped layer is the available one that serves the wish best, the first listed if none is known, or the wish itself if none is listed |
| Decisions.DownswitchExactly | internal/media/sfu/adaptive.go:199-237 | a wish below the current layer is granted at once if the grade is critical, the audio has priority, the video is suspended or the device is constrained; any other is held if and only if too few poor samples came in a row or the last switch is too recent; counters and switch time after it |
| Decisions.UpswitchExactly | internal/media/sfu/adaptive.go:207-237 | a wish above the current layer is held if and only if too few good samples came in a row or the last switch is too recent, and nothing makes it immediate |
| Decisions.LevelWishExactly | internal/media/sfu/adaptive.go:207-237 | a wish of the same rank is granted at once and ends both streaks |
| Decisions.WishExactly | internal/media/sfu/adaptive.go:197-205 | the wish is the clamped raw layer, lowered to what the device may have; suspended video asks for low and nothing caps it |
| Decisions.FlagsExactly | internal/media/sfu/adaptive.go:239-261 | audio priority, suspension, grade, estimate and score of a decision as conditions on the smoothed metrics it leaves behind, in both directions |
| Decisions.ObservedIsStandIn | internal/media/sfu/adaptive.go:263-267 | decisions depend on the available bandwidth, and on the observed one only where none is available |
| Decisions.LossPrice | internal/media/sfu/adaptive.go:302-302 | each quarter percent of loss costs one point, whatever the other metrics are |
| Decisions.RoundTripPrice | internal/media/sfu/adaptive.go:303-303 | each eight milliseconds of round trip over 120 cost one point |
| Decisions.JitterPrice | internal/media/sfu/adaptive.go:304-304 | each two milliseconds of jitter over 20 cost one point |
| Decisions.DroppedPrice | internal/media/sfu/adaptive.go:305-305 | each half percent of dropped frames costs one point |
| Decisions.DecodePrice | internal/media/sfu/adaptive.go:306-306 | each half millisecond of decoding over 24 costs one point |
| Decisions.EventPrices | internal/media/sfu/adaptive.go:307-318 | a freeze costs 15 points and 4 a piece, a picture loss 3, a retransmission request 1 up to 30 |
| Decisions.PerfectScore | internal/media/sfu/adaptive.go:301-320 | a stream with nothing to complain about scores 100 |
| Decisions.TruncDropsFraction | internal/media/sfu/adaptive.go:301-306 | a penalty is the whole part of the excess, on either side of zero |
| Decisions.EstimateIsNearest | internal/media/sfu/adaptive.go:256-256 | the estimate is the smoothed bandwidth to the nearest kilobit |
| Decisions.UnsetOptions | internal/media/sfu/adaptive.go:47-75 | the settings an operator leaves unset |
| Smoothing.SmoothedIsWeighted | internal/media/sfu/adaptive.go:263-297 | after any run of samples each metric is the exponentially weighted sum of exactly the readings that count for it |
| Smoothing.SmoothedInHull | internal/media/sfu/adaptive.go:263-297 | any interval holding those readings holds the smoothed value |
| Smoothing.SmoothedContracts | internal/media/sfu/adaptive.go:263-297 | n further equal samples turn a distance d into exactly (1 - alpha)^n * d |
| Smoothing.BlendInHull | internal/media/sfu/adaptive.go:381-383 | repeated blending stays in the hull of its inputs |
| Smoothing.PulledContracts | internal/media/sfu/adaptive.go:381-383 | repeated blending with one value contracts at the rate 1 - alpha |
| Monotone.WorseNeverLooksBetter | internal/media/sfu/adaptive.go:299-414 | for every pair of networks: score and audio priority are monotone; suspension, grade and clamped layer are monotone if and only if named conditions hold, which they do whenever the lower bandwidth estimate is known or the higher is not |
| Monotone.ScoreMonotone | internal/media/sfu/adaptive.go:301-318 | the score is monotone in every penalty |
| Monotone.SuspensionMonotoneExactly | internal/media/sfu/adaptive.go:365-369 | a worse network keeps video suspended if and only if its estimate is comparable, the better one is not critical, or its own audio suspends |
| Monotone.GradeMonotoneExactly | internal/media/sfu/adaptive.go:320-347 | a worse network has no better grade if and only if its estimate is comparable, the better one is not critical, or its own transport or score is critical |
| Monotone.RawLayerMonotoneExactly | internal/media/sfu/adaptive.go:326-363 | a worse network wants no higher layer if and only if its estimate is comparable, it is low anyway, the better bandwidth allows the full layer, or it is capped at medium and the better one wants that |
| Monotone.ClampSeparatesExactly | internal/media/sfu/adaptive.go:400-414 | clamping keeps a lower and a higher wish apart if and only if the available layers do |
| Monotone.DesiredMonotoneExactly | internal/media/sfu/adaptive.go:198-205 | after clamp, suspension and device cap the wanted layer is monotone if and only if a stated condition holds, for every pair of networks on one device |
| Monotone.SuspensionBypassesDeviceCap | internal/media/sfu/adaptive.go:199-205 | a concrete family where losing audio raises the wanted layer on a legacy device |
| Monotone.UnknownBandwidthReadsAsUnlimited | internal/media/sfu/adaptive.go:326-342 | a lost bandwidth estimate looks better than a known low one, ends suspension and hides a critical grade |
| Upswitch.UpswitchRateBound | internal/media/sfu/adaptive.go:178-237 | over any run with any mix of keys and forgets, the upswitches of a key number at most elapsed time over the minimum interval |
| Upswitch.AlwaysPaid | internal/media/sfu/adaptive.go:218-237 | the inductive reason: each upswitch has used up an interval of its own since the first decision |
| Upswitch.UpswitchEndsGoodStreak | internal/media/sfu/adaptive.go:207-224 | each upswitch ends a run of enough consecutive decisions that wanted a higher layer |
| Upswitch.ForgetUserExactly | internal/media/sfu/adaptive.go:154-164 | forgetting drops exactly the keys that look like the user's, which are exactly the user's own when IDs contain no separator, and keeps the rest as they were |
| Upswitch.ForgetStreamExactly | internal/media/sfu/adaptive.go:166-176 | forgetting a stream drops exactly the keys that look like the stream's, which are exactly its own when IDs contain no separator, and keeps the rest as they were |
| ClosedLoop.ChangesAtMostOnce | internal/media/sfu/room.go:858-915 | with equal samples and fixed known layers, whatever the timestamps, map order and earlier record, the recorded layer changes at most once and only to one goal layer |
| ClosedLoop.ReachesGoal | internal/media/sfu/room.go:858-915 | after enough reports over long enough the subscriber is on the goal layer |
| ClosedLoop.StepSeesWish | internal/media/sfu/adaptive.go:178-261 | with a constant sample each adaptation sees one constant wish, whatever the controller remembers |
| ClosedLoop.StepKeepsOrReaches | internal/media/sfu/room.go:891-915 | one adaptation leaves the record alone or moves it to the goal |
| ClosedLoop.SteadyVerdict | internal/media/sfu/adaptive.go:263-379 | smoothing equal samples leaves the verdict on the sample itself |
| ClosedLoop.ClampIgnoresOrder | internal/media/sfu/adaptive.go:400-414 | the order in which available layers are listed does not matter |
| ClosedLoop.HeldSuspensionReachesGoal | internal/media/sfu/room.go:891-902 | re-applying a held layer during suspension resolves to the goal anyway |
| MediaRoom.Room.constructor | internal/media/sfu/room.go:73-95 | an empty open room with its limits defaulted |
| MediaRoom.Room.AddPresenter | internal/media/sfu/room.go:153-195 | admitted exactly when the room is open, the user new and there is space; the join is one step of the room |
| MediaRoom.Room.AddViewer | internal/media/sfu/room.go:199-240 | the same for viewers |
| MediaRoom.Room.SubscribePeerToExistingTracks | internal/media/sfu/room.go:934-970 | the newcomer listens to every track and stream it should, on the best layer for its role, with senders carrying the recorded layer |
| MediaRoom.Room.RemovePeer | internal/media/sfu/room.go:245-298 | the leave is one step of the room, and the controller forgets the user and the streams that went |
| MediaRoom.Room.RemovePresenterTracks | internal/media/sfu/room.go:975-1034 | everything the presenter published goes, from the tables and from every remaining peer, and nothing else |
| MediaRoom.Room.RemoveViewerSubscriptions | internal/media/sfu/room.go:1038-1045 | the viewer leaves every subscriber table |
| MediaRoom.Room.Close | internal/media/sfu/room.go:393-446 | an open room is emptied and closed, a closed one is left alone |
| RoomRules.CloseEmpties | internal/media/sfu/room.go:393-446 | a close takes out everybody and everything, a second one changes nothing |
| RoomRules.ClosedRoomIsDeserted | internal/media/sfu/room.go:153-446 | over every run a room is closed if and only if a close happened, and then it has no presenters and no viewers, for good |
| RoomRules.ClosedRoomHoldsOnlyRelays | internal/media/sfu/room.go:393-708 | after a close a room holds no tracks and no streams until a relay packet brings one |
| RoomRules.JoinSucceedsExactly | internal/media/sfu/room.go:153-240 | a join succeeds if and only if the room is open, the user not in it and the role has a place left; everybody else stays |
| RoomRules.NewcomerHearsTracks | internal/media/sfu/room.go:934-970 | a newcomer has a sender for a track if and only if it is another source's or the newcomer a viewer, carrying the router's local track |
| RoomRules.NewcomerSeesStreams | internal/media/sfu/room.go:934-970 | a presenter starts on the best layer for high, a viewer on the best for medium, in record and sender |
| RoomRules.OtherStreamsUntouched | internal/media/sfu/room.go:934-970 | a newcomer gets no sender for its own streams or streams without a layer |
| RoomRules.PresenterLeavesExactly | internal/media/sfu/room.go:245-298 | its tracks and streams go, everybody loses exactly the senders for those, and nothing else changes |
| RoomRules.ViewerLeavesExactly | internal/media/sfu/room.go:245-298 | a leaving viewer is off every router and stream record, and nothing else changes |
| RoomRules.StrangerLeavesNothing | internal/media/sfu/room.go:245-298 | nobody else can be removed |
| RoomRules.PublishSucceedsExactly | internal/media/sfu/room.go:451-535 | a track is published if and only if the room is open and the publisher owns the ID or is below its limit; what is new and what stays |
| RoomRules.LayerSucceedsExactly | internal/media/sfu/room.go:541-632 | the same for a layer that makes a new stream; an existing stream takes any further layer; the RID decides which |
| RoomRules.FirstLayerReachesAll | internal/media/sfu/room.go:541-632 | everybody but the publishing presenter starts on the first layer of a new stream, in record and sender |
| RoomRules.RelaySucceedsExactly | internal/media/sfu/room.go:634-708 | a relay packet makes its track or layer if it is not there, in any room |
| RoomRules.SwitchSucceedsExactly | internal/media/sfu/room.go:771-829 | a layer request of somebody in the room ends on the best known layer for it, in record and sender |
| RoomRules.SwitchRefusedExactly | internal/media/sfu/room.go:771-829 | a request of anybody else, or for an unknown stream, does nothing |
| RoomRules.SwitchSparesOthers | internal/media/sfu/room.go:771-829 | a switch changes no other peer |
| RoomRules.LimitsExactly | internal/media/sfu/room.go:73-95 | limits that are not positive are replaced by 50, 10000 and 8 |
| MediaRoom.LeaverForgottenExactly | internal/media/sfu/room.go:245-298 | the controller forgets exactly the keys that begin with the leaver or end with one of its streams |
| MediaRoom.Room.HandleNewTrack | internal/media/sfu/room.go:451-535 | a publish within policy reaches every presenter but the source and every viewer |
| MediaRoom.Room.HandleSimulcastTrack | internal/media/sfu/room.go:541-632 | a first layer creates the stream and puts every listener on it; a later one only adds the layer |
| MediaRoom.Room.InjectRelayPacket | internal/media/sfu/room.go:371-389 | missing descriptor fields get stand-ins and the packet makes one relay step |
| MediaRoom.Room.AddRouter | internal/media/sfu/room.go:634-662 | a new router and exactly its new subscribers |
| MediaRoom.Room.AddStream | internal/media/sfu/room.go:664-708 | a new stream with its first layer and every listener on it |
| MediaRoom.Room.CanPublishTrack | internal/media/sfu/room.go:716-727 | publishing is allowed exactly below the cap or for an ID the user already owns |
| MediaRoom.Room.PublisherTrackCount | internal/media/sfu/room.go:729-742 | the count is the number of tracks plus streams the user owns |
| MediaRoom.Room.SetSubscriberQuality | internal/media/sfu/room.go:771-829 | record and sender move together to the best available layer, and a live subscriber of a stream with layers always ends on it |
| MediaRoom.Room.PlanSubscriberAdaptation | internal/media/sfu/room.go:858-888 | a decision is made exactly for a named user, a stream that resolves and a live peer, on the recorded layer (medium if none) and the stream's layers |
| MediaRoom.Room.ApplyAdaptiveDecision | internal/media/sfu/room.go:891-902 | a change or suspension is a layer switch, anything else leaves the room alone |
| MediaRoom.Room.AdaptSubscriber | internal/media/sfu/room.go:906-915 | plan and apply are one turn of the closed loop, and at most a layer switch of the room |
| MediaRoom.BestAvailableLayer | internal/media/sfu/simulcast.go:185-202 | the first available layer of the order, else any, else full |
| MediaRoom.AvailableLayers | internal/media/sfu/simulcast.go:265-274 | exactly the stream's layers, in some order |
| MediaRoom.SubscribeAll | internal/media/sfu/peer.go:111-150 | every listed peer without that ID gains a sender for it, once |
| MediaRoom.UnsubscribeAll | internal/media/sfu/peer.go:153-178 | every peer loses that ID and nothing else |
| MediaRoom.JoinStream | internal/media/sfu/room.go:746-766 | record and sender of a newcomer agree on one existing layer |
| MediaRoom.Node.CreateRoom | internal/media/sfu/sfu.go:241-264 | refused exactly for a taken ID or a full node; the room limit holds afterwards |
| MediaRoom.Node.CloseRoom | internal/media/sfu/sfu.go:277-290 | the room is closed and gone; the room limit holds afterwards |
| RoomProofs.FanOutIsExact | internal/media/sfu/room.go:153-298 | in every reachable state a presenter's subscriptions are exactly the live IDs of other sources and a viewer's all of them |
| RoomProofs.FanOutAsSets | internal/media/sfu/room.go:934-970 | the same as equalities of ID sets |
| RoomProofs.TrackKeepsFanOutExactly | internal/media/sfu/room.go:451-535 | publishing a track keeps exact fan-out if and only if its ID is no stream's and not another source's track taken over by a live presenter |
| RoomProofs.StreamKeepsFanOutExactly | internal/media/sfu/room.go:541-632 | a new stream keeps exact fan-out if and only if its ID is no track's |
| RoomProofs.SharedIDReachesNoViewer | internal/media/sfu/room.go:451-535 | a track published under a stream's ID reaches no viewer |
| RoomWitness.TakeoverReceivesItself | internal/media/sfu/room.go:451-535 | a run in which a presenter takes over another's track ID and receives its own track |
| RoomProofs.SwitchKeepsFanOutExactly | internal/media/sfu/room.go:771-829 | a layer switch keeps exact fan-out if and only if it does not put a presenter on its own stream |
| RoomProofs.PeersWithinLimits | internal/media/sfu/room.go:153-240 | presenters and viewers stay disjoint and within their maxima in every reachable state |
| RoomProofs.FanOutStep | internal/media/sfu/room.go:451-708 | every step keeps exact fan-out |
| RoomLayers.BookkeepingAgrees | internal/media/sfu/simulcast.go:83-209 | in every reachable state a live peer is recorded by a stream exactly when it has a sender for it, the recorded layer exists and the sender carries its local track; the runs may add layers as they like, except over one somebody is on |
| RoomLayers.SenderTellsLayer | internal/media/sfu/simulcast.go:83-209 | in every reachable state the local track a sender carries is that of the recorded layer and of no other layer or track |
| RoomLayers.AddingLayerAgreesExactly | internal/media/sfu/simulcast.go:83-116 | adding a layer keeps records and senders together if and only if it is new or nobody in the room is on the one it replaces |
| RoomWitness.DistinctRIDsCanShareALayer | internal/media/sfu/simulcast.go:26-37 | a run that adds each RID once and ends with a record that does not match its sender |
| RoomWitness.SameLayerTwice | internal/media/sfu/room.go:541-632 | two unrecognised RIDs in a row do this in any open room with a viewer |
| RoomLocals.LocalsAlwaysDiffer | internal/media/sfu/simulcast.go:83-159 | in every reachable state, whatever the run, no two tracks or layers share a local track |
| RoomSenders.ListenersFollowTracks | internal/media/sfu/peer.go:111-150 | in every reachable state a live peer is a router's subscriber exactly when it has a sender for the track, and the sender carries that router's local track |
| RoomSenders.PublishingAgreesExactly | internal/media/sfu/room.go:492-509 | publishing keeps that if and only if nobody in the room has a sender for the ID yet: republishing one's own live track strands its listeners |
| RoomSenders.HolderIsStranded | internal/media/sfu/peer.go:111-125 | whoever has a sender keeps it on the replaced router and is no subscriber of the new one |
| RoomWitness.RepublishingStrandsViewer | internal/media/sfu/room.go:451-535 | a run in which a presenter publishes its track again and its viewer stays on the replaced router |
| RoomLayers.LayersOfSwitch | internal/media/sfu/room.go:771-829 | a layer switch moves record and sender together |
| RoomLayers.LayersOfJoin | internal/media/sfu/room.go:934-970 | a join, also a rejoin after stale records, agrees |
| RoomLayers.PublishersWithinCap | internal/media/sfu/room.go:710-742 | the policy check suffices where check and publish are one step: if no relay names a local source and no publisher reuses its own ID as the other kind, then in every reachable state no local user owns more tracks plus streams than allowed |
| RoomLayers.CapHoldsUnlessExceeded | internal/media/sfu/room.go:710-742 | the cap holds over every run without a step that takes a local source at its limit over it |
| RoomLayers.CapStepExactly | internal/media/sfu/room.go:634-742 | every step keeps the cap of all local users if and only if it is not an admitted reuse of the own ID as the other kind, or a relay of something new, for a local source at its limit |
| RoomLayers.PublishedTrackKeepsCapExactly | internal/media/sfu/room.go:451-510 | a publish of a track leaves the publisher within the limit if and only if it is not at the limit and giving the track the ID of its own stream |
| RoomLayers.PublishedLayerKeepsCapExactly | internal/media/sfu/room.go:541-571 | a publish of a layer does if and only if it does not start a new stream, at the limit, under the ID of the publisher's own track |
| RoomLayers.RelayKeepsCapExactly | internal/media/sfu/room.go:634-708 | a relay packet leaves its source within the limit if and only if the source was below it or the packet starts no new track or stream |
| RoomWitness.OwnStreamIDExceedsCap | internal/media/sfu/room.go:716-727 | a run in which a publisher at its limit gets a track past the check under the ID of its own stream |
| RoomWitness.OwnTrackIDExceedsCap | internal/media/sfu/room.go:541-571 | a run in which a publisher at its limit gets a stream past the check under the ID of its own track |
| RoomWitness.RelaysExceedCap | internal/media/sfu/room.go:634-662 | a run in which two relayed tracks take a local source over a limit of one |
| RoomRaces.OverlapBoundsExcess | internal/media/sfu/room.go:451-510 | with the check and the store of a track apart and anything in between: a user that never begins a track or stream while more than n of its tracks wait is never more than n above the limit; without overlap the limit holds |
| RoomRaces.ExcessIsReached | internal/media/sfu/room.go:451-510 | for every limit and every n there is a run, with no ID reused and nothing relayed, that ends exactly n above the limit |
| RoomRaces.UndisturbedPublishIsOneStep | internal/media/sfu/room.go:451-510 | with nothing in between, check and store are the one publishing step of the other room modules |
| WebhookLease.EventTable.Claim | internal/repository/postgres/call.go:37-108 | who gets the event, who is told duplicate or in progress, and which errors; only a successful claim changes the table |
| WebhookLease.EventTable.InsertClaim | internal/repository/postgres/call.go:44-64 | inserts exactly when the event is new |
| WebhookLease.EventTable.UpdateClaim | internal/repository/postgres/call.go:88-107 | takes over exactly an unprocessed event whose lease has run out on the database clock |
| WebhookLease.EventTable.MarkProcessed | internal/repository/postgres/call.go:110-126 | marks exactly a row in progress under the caller's token; empty arguments do nothing |
| WebhookLease.AtMostOneHolder | internal/repository/postgres/call.go:37-108 | in every interleaving at most one claimant holds an unexpired lease, whatever the application clocks say |
| WebhookLease.MarksAreFinal | internal/repository/postgres/call.go:110-126 | a mark carries the token of the latest successful claim and nothing happens to the event afterwards |
| WebhookLease.StaleTokenCannotMark | internal/repository/postgres/call.go:110-126 | whoever can mark made the latest successful claim |
| WebhookLease.EveryRunKeepsInvariant | internal/repository/postgres/call.go:37-126 | the inductive invariant tying rows, claimants and log |
| WebhookLease.UndisturbedClaimExactly | internal/repository/postgres/call.go:37-108 | insert, load and reclaim of one claimant with nothing in between give what the one-step claim gives: a new event, or one whose lease has run out on both clocks, is always claimed |
| WebhookLease.ReclaimSucceedsExactly | internal/repository/postgres/call.go:88-107 | in any state a reclaiming update claims if and only if the row is in progress and its lease is none or not after the database clock |
| WebhookLease.MarkSucceedsExactly | internal/repository/postgres/call.go:110-126 | in any state a mark succeeds if and only if the row is in progress under that token |
| WebhookLease.ClaimedMarkedDuplicate | internal/repository/postgres/call.go:37-126 | a claimed event is marked by its claimant, and whoever asks afterwards is told it is a duplicate |
| CallLifecycle.CallStore.ActivateRinging | internal/repository/postgres/call.go:757-775 | only a ringing call becomes active; a missing call is reported |
| CallLifecycle.CallStore.EndAndDisconnect | internal/repository/postgres/call.go:797-836 | the three writes of the ending statement |
| CallLifecycle.CallStore.EndWithReasonIfNotEnded | internal/repository/postgres/call.go:901-903 | ends exactly a call that is not ended, reporting whether it did |
| CallLifecycle.CallStore.CancelRingingWithReason | internal/repository/postgres/call.go:905-907 | ends exactly a ringing call, reporting whether it did |
| CallLifecycle.LifecycleMovesForward | internal/repository/postgres/call.go:757-907 | over any run status moves only forward and an ended call's row never changes again |
| CallLifecycle.EndsOnlyOnce | internal/repository/postgres/call.go:879-899 | at most one end or cancel of a call reports a change |
| CallLifecycle.EndedBySomeStep | internal/repository/postgres/call.go:879-899 | a call that became ended was ended by a step of the run that reported it |
| CallLifecycle.EndIsClean | internal/repository/postgres/call.go:797-877 | that step leaves nobody of the call live, leave time and reason set, its start events retired, and every other call, row and event untouched |
| CallLifecycle.EndIsFinalAndClean | internal/repository/postgres/call.go:757-907 | over any run the ending step was clean, it is the only one, its row is final, and at the end of the run nobody of the call is live and nothing announces it |
| CallLifecycle.QuietToTheEnd | internal/repository/postgres/call.go:757-907 | once nobody of a call is live and nothing announces it, no step changes that |
| CallLifecycle.AnsweredExactly | internal/repository/postgres/call.go:757-907 | which statement changes which call, what it answers otherwise, and the row an activation leaves |
| CallLifecycle.ActivatedBySomeStep | internal/repository/postgres/call.go:757-775 | a call that rang and is active was activated by a step of the run, and started at its time |
| HostTransfer.ParticipantTable.TransferHost | internal/repository/postgres/call.go:1161-1223 | undisturbed, the swap happens exactly from a host to a different, connected non-host |
| HostTransfer.ParticipantTable.UpdateParticipantRole | internal/repository/postgres/call.go:1139-1159 | changes exactly rows that are not host |
| HostTransfer.AlwaysOneHost | internal/repository/postgres/call.go:1139-1223 | every interleaving of transfers, role and status updates and inserts leaves exactly one host if and only if no role update or insert wrote a host; otherwise it leaves several |
| HostTransfer.HostsMoveTogether | internal/repository/postgres/call.go:1139-1223 | a second host never goes away |
| HostTransfer.AlwaysSound | internal/repository/postgres/call.go:1161-1223 | locks stay exclusive and what a transfer read stays true until it ends |
| HostTransfer.SelfTransferIsNoOp | internal/repository/postgres/call.go:1161-1223 | a transfer to oneself never gets past its check |
| HostTransfer.NoCyclicWait | internal/repository/postgres/call.go:1174-1184 | locking in user order never yields a cyclic wait, of any length |
| HostTransfer.SwapKeepsOneHost | internal/repository/postgres/call.go:1205-1221 | after the swap the target is the host of its call and other calls keep theirs |
| HostTransfer.CommitHandsOver | internal/repository/postgres/call.go:1161-1223 | in every interleaving a commit takes the role from the host and gives it to a connected non-host of the call; no other row changes |
| HostTransfer.UndisturbedTransferExactly | internal/repository/postgres/call.go:1161-1223 | the seven statements of a transfer with nothing in between are the one-step transfer, and it goes through if and only if actor and target qualify |
| HostTransfer.RoleUpdateExactly | internal/repository/postgres/call.go:1139-1159 | in any state a role update goes through if and only if the row is there, unlocked and not host |
| HostTransfer.NonHostWriteKeepsOneHostExactly | internal/repository/postgres/call.go:1139-1159 | writing a non-host row keeps one host if and only if it does not write a host: the role update itself does not prevent a second one |
| ReminderDiscovery.DispatchTable.Discover | internal/repository/postgres/calendar_repo.go:354-435 | a poll keeps every row and adds exactly the discovered occurrences |
| ReminderDiscovery.DispatchTable.InsertDue | internal/repository/postgres/calendar_repo.go:405-433 | the due occurrences of one reminder, once each |
| ReminderDiscovery.DispatchTable.MarkDispatched | internal/repository/postgres/calendar_repo.go:454-465 | marks one unsent row and removes none |
| ReminderDiscovery.ExpandOccurrences | internal/repository/postgres/calendar_repo.go:1189-1219 | exactly the event's occurrences in the window |
| ReminderDiscovery.Expand | internal/pkg/rrule/expand.go:10-39 | the rule's instants less the excluded dates |
| ReminderDiscovery.DiscoveredExactly | internal/repository/postgres/calendar_repo.go:354-435 | a poll finds an occurrence if and only if it falls between due time and last chance |
| ReminderDiscovery.DispatchedExactly | internal/repository/postgres/calendar_repo.go:354-435 | over any run of polls, whatever the gaps, the row exists after exactly those polls at or after one in that span |
| ReminderDiscovery.EveryDueReminderIsDispatched | cmd/server/main.go:717-737 | with polls no further apart than the window, the row appears at the first poll at or after the due time and never earlier |
| ReminderDiscovery.DispatchedMinutesBefore | internal/repository/postgres/calendar_repo.go:354-435 | for an offset within the horizon the row exists after exactly the polls no more than that many minutes before the occurrence, or later |
| ReminderDiscovery.PollDispatchesExactly | internal/repository/postgres/calendar_repo.go:354-435 | the same of a single poll: which row it adds, unsent, and that it changes no other |
| ReminderDiscovery.WiderGapLosesReminder | cmd/server/main.go:717-737 | any wider gap loses a reminder for good |
| ReminderOutbox.Claim | internal/repository/postgres/calendar_repo.go:488-495 | the claimed rows are the oldest waiting unlocked ones, in order, and nothing is passed over within the limit |
| ReminderOutbox.ClaimTakesOldest | internal/repository/postgres/calendar_repo.go:488-495 | every claimed row is waiting, unlocked and older than the later ones and than every waiting row left behind, which exists only at the limit |
| ReminderOutbox.RoundExactly | internal/repository/postgres/calendar_repo.go:467-558 | what a round leaves of each claimed row, and which of them are published, retried and dead, with the defaults for limit and attempts |
| ReminderOutbox.SecondStampChangesNothing | internal/repository/postgres/calendar_repo.go:543-550 | a published row keeps its first stamp, whatever is accepted for it later |
| ReminderOutbox.TallyCountsAnswers | internal/repository/postgres/calendar_repo.go:526-552 | the first counter is the number of accepted messages, the other two share the refused |
| ReminderOutbox.Outbox.PublishReminderOutbox | internal/repository/postgres/calendar_repo.go:467-558 | every claimed row is attempted once, no other row changes, and the counters say what became of each |
| ReminderOutbox.Outbox.PublishAll | internal/repository/postgres/calendar_repo.go:526-552 | the publishing loop over the claimed rows |
| ReminderOutbox.Outbox.StampPublished | internal/repository/postgres/calendar_repo.go:543-550 | only an unpublished row is stamped |
| ReminderOutbox.CountsAddUp | internal/repository/postgres/calendar_repo.go:526-552 | published, failed and dead rows add up to the claimed ones |
| ReminderOutbox.RoundMakesProgress | internal/repository/postgres/calendar_repo.go:467-558 | an undisturbed round strictly reduces the attempts left, unless none are left, and then it changes nothing |
| ReminderOutbox.DrainedExactly | internal/repository/postgres/calendar_repo.go:488-495 | no attempts are left if and only if every row is published or dead |
| ReminderOutbox.RoundUsesWork | internal/repository/postgres/calendar_repo.go:526-552 | a round uses at least one attempt per claimed row |
| OutboxRuns.NeverHeldTwice | internal/repository/postgres/calendar_repo.go:488-495 | no two open transactions hold the same row, in any interleaving with rollbacks |
| OutboxRuns.AttemptsAndTalliesHold | internal/repository/postgres/calendar_repo.go:526-552 | attempts stay within the limit and every committed round accounts for each claimed row |
| OutboxRuns.PublishedOnce | internal/repository/postgres/calendar_repo.go:543-550 | a published or dead row never changes again, so it is stamped at most once |
| OutboxRuns.CommitIsRound | internal/repository/postgres/calendar_repo.go:526-556 | a commit in any interleaving leaves what an undisturbed round would |
| OutboxRuns.CommitUsesWork | internal/repository/postgres/calendar_repo.go:553-556 | every committed round strictly reduces the attempts left by at least the rows it claimed |
| OutboxRuns.OutboxDrains | internal/repository/postgres/calendar_repo.go:467-558 | over any run, all claims of committed rounds plus the attempts left never exceed the limit times the rows enqueued |
| ReminderDiff.DiffReminderDefinitions | internal/repository/postgres/calendar_repo.go:889-923 | the rows to delete are exactly the unwanted ones; the additions are the first of each wanted, missing definition in order |
| ReminderDiff.IndexDesired | internal/repository/postgres/calendar_repo.go:890-906 | wanted definitions of real users, each once, in the order given |
| ReminderDiff.ReminderTable.LoadReminders | internal/repository/postgres/calendar_repo.go:830-852 | exactly the event's stored definitions and their rows |
| ReminderDiff.ReminderTable.InsertReminders | internal/repository/postgres/calendar_repo.go:864-879 | inserts in order and stops at the first refusal |
| ReminderDiff.ReminderTable.ReplaceReminders | internal/repository/postgres/calendar_repo.go:829-881 | the table after deleting and inserting the difference; rows of other events and wanted rows survive even a failure |
| ReminderDiff.ReplacementIsExact | internal/repository/postgres/calendar_repo.go:829-923 | the event is left with exactly the wanted definitions, each once; wanted definitions keep their rows, other events theirs |
| ReminderDiff.ReplacementSucceedsExactly | internal/repository/postgres/calendar_repo.go:864-879 | it goes through if and only if constraints admit the incoming rows and their IDs are free and distinct |
| ReminderDiff.SecondDiffIsEmpty | internal/repository/postgres/calendar_repo.go:889-923 | against the result nothing is left to remove or add |
| ReminderDiff.WantedMeaning | internal/repository/postgres/calendar_repo.go:890-906 | the wanted list has each definition of a real user exactly once |
| ReminderDiff.WantedAreFirstMentions | internal/repository/postgres/calendar_repo.go:890-906 | of several reminders with one definition exactly the first is wanted |
| ReminderDiff.InsertsKeepUnique | internal/repository/postgres/calendar_repo.go:864-879 | inserting any reminders keeps one row per definition and every stored row, and leaves each definition of a real user in the table |
| ReminderDiff.NewRowsIdentified | internal/repository/postgres/calendar_repo.go:864-879 | a definition that was not stored goes in under the identifier of its first mention, or a new one |
| ReminderDiff.MissingMeaning | internal/repository/postgres/calendar_repo.go:915-921 | the additions are exactly the wanted definitions that are not stored |
| WebSocketHub.Hub.Register | internal/platform/ws/hub.go:136-150 | the client, new or known, is registered and in its signal room |
| WebSocketHub.Hub.Subscribe | internal/platform/ws/hub.go:163-193 | only a registered client joins a room |
| WebSocketHub.Hub.Unsubscribe | internal/platform/ws/hub.go:196-229 | the client leaves the room and an empty room goes |
| WebSocketHub.Hub.RemoveClientLocked | internal/platform/ws/hub.go:376-390 | a registered client leaves map and rooms and its channel is closed; anything else is a no-op |
| WebSocketHub.Hub.LeaveRooms | internal/platform/ws/hub.go:383-388 | every room without the client, empty ones gone |
| WebSocketHub.Hub.EvictSession | internal/platform/ws/hub.go:103-117 | exactly the session's clients go; an empty session ID is ignored |
| WebSocketHub.Hub.Shutdown | internal/platform/ws/hub.go:82-90 | every client goes |
| WebSocketHub.Hub.TrySend | internal/platform/ws/hub.go:258-276 | one non-blocking attempt with its counter update, and whether five failures are reached |
| WebSocketHub.Hub.SendPhase | internal/platform/ws/hub.go:251-278 | one attempt per target; the eviction list is exactly the targets at five failures |
| WebSocketHub.Hub.BroadcastToRoom | internal/platform/ws/hub.go:239-285 | send phase and eviction over the room's members; a consistent hub stays consistent |
| WebSocketHub.Hub.SendToUser | internal/platform/ws/hub.go:289-328 | the same over a user's connections in one or all workspaces |
| WebSocketHub.Hub.EvictSlowClients | internal/platform/ws/hub.go:332-353 | the listed clients are removed as slow |
| WebSocketHub.BroadcastDelivers | internal/platform/ws/hub.go:239-285 | the message is appended to exactly the queues of members with space, and exactly the members whose fifth failure in a row this is are evicted |
| WebSocketHub.UserMessageDelivers | internal/platform/ws/hub.go:289-328 | a message to a user is appended to exactly the queues with space of that user's open clients, in the named workspace only unless it is nil; exactly those at their fifth failure are evicted |
| WebSocketHub.RegisterExactly | internal/platform/ws/hub.go:136-150 | a registration changes one map entry and the user's signal room |
| WebSocketHub.SubscribeExactly | internal/platform/ws/hub.go:163-193 | exactly a registered client gets into the room it names |
| WebSocketHub.UnsubscribeExactly | internal/platform/ws/hub.go:196-229 | exactly that client leaves that room |
| WebSocketHub.SessionGoesExactly | internal/platform/ws/hub.go:103-117 | exactly the open clients of the session are closed, unregistered and in no room |
| WebSocketHub.ShutdownLeavesNobody | internal/platform/ws/hub.go:82-90 | nobody is registered, no room is left and every channel is closed |
| WebSocketHub.RegisterKeepsConsistentExactly | internal/platform/ws/hub.go:136-150 | registering a client object keeps the hub consistent if and only if its ID is not in use |
| WebSocketHub.RegisterKeepsSafeExactly | internal/platform/ws/hub.go:136-150 | registering a client object, new or known, under any ID keeps the hub safe from panics if and only if its channel is open |
| WebSocketHub.RemovalKeepsConsistent | internal/platform/ws/hub.go:376-390 | removal keeps rooms, map and channels consistent |
| WebSocketHub.TrailingMeaning | internal/platform/ws/hub.go:258-276 | the drop counter is exactly the trailing run of failures |
| HubRuns.RoomsAndCountersHold | internal/platform/ws/hub.go:79-390 | in every run, whoever registers under whatever ID, room members are registered, no room is empty and drop counters are trailing failures |
| HubRuns.HubNeverPanics | internal/platform/ws/hub.go:79-390 | unless a client is registered again after its channel was closed, nobody sends on or closes a closed channel and registered clients have open channels |
| HubRuns.SafeStepExactly | internal/platform/ws/hub.go:136-150 | a step keeps the hub safe if and only if it does not register such a client |
| HubRuns.RevivedClientPanics | internal/platform/ws/hub.go:239-285 | once such a client is registered, a broadcast to its signal room panics |
| HubRuns.OpenExactlyWhileRegistered | internal/platform/ws/hub.go:376-390 | without such a registration a channel is open exactly while its client is registered or displaced by another under its ID |
| HubRuns.OrphansAreDisplaced | internal/platform/ws/hub.go:136-150 | over every such run the clients that are open and unregistered are exactly those last taken over |
| HubRuns.OrphanStepExactly | internal/platform/ws/hub.go:136-150 | a step leaves a client open and unregistered if and only if it takes the client over, or the client was so and is not registered again |
| HubRuns.OrphanForGood | internal/platform/ws/hub.go:79-131 | in any run such a client's channel stays open until somebody registers it again; not even a shutdown closes it |
| HubRuns.ClosedForGood | internal/platform/ws/hub.go:376-390 | a closed channel stays closed, and for the reason it was closed unless a closed client is registered again |
| HubRuns.SlowEvictionIsEarned | internal/platform/ws/hub.go:258-276 | unless somebody registers under an ID that waits for eviction, eviction for slowness comes only after five failures in a row |
| HubRuns.ConnectKeepsHoldersSlowExactly | internal/platform/ws/hub.go:332-353 | a connect keeps every holder of an ID that waits for eviction slow if and only if its own ID does not wait |
| HubRuns.AgainKeepsHoldersSlowExactly | internal/platform/ws/hub.go:332-353 | registering a known client again does so if and only if it takes no such ID or has itself failed five times in a row |
| HubRuns.ListedIDEvictsNewcomer | internal/platform/ws/hub.go:332-353 | a client that connects under such an ID is evicted as slow with nothing ever sent to it, and the slow one is left open |
| HubRuns.ListedIDEvictsReturner | internal/platform/ws/hub.go:332-353 | an open client that has not failed five times in a row and registers again under such an ID is evicted as slow as well |
| HubWitness.WrongEvictionIsReached | internal/platform/ws/hub.go:239-353 | a run from the empty hub that reaches this |
| HubRuns.FiveFailuresMeanGoneOnReturn | internal/platform/ws/hub.go:239-353 | a client a broadcast brought to five failures is closed, and unregistered unless revived, when that broadcast has returned, whatever happened in between except a registration under an ID that waited for eviction |
| HubRuns.EveryRunIsTidy | internal/platform/ws/hub.go:79-390 | the inductive invariant of every run |
| HubRuns.UndisturbedBroadcastIsOneStep | internal/platform/ws/hub.go:239-328 | whatever the order of its targets, a broadcast with nothing in between is the one-step broadcast the delivery theorems are about |
| HubRuns.RunsWithoutRevivalAreSafe | internal/platform/ws/hub.go:79-390 | the inductive invariant of runs that register no closed client |
| HubRuns.SparingRunsAreJust | internal/platform/ws/hub.go:239-353 | the inductive invariant of runs in which nobody registers under an ID that waits for eviction |
| FileLibrary.FilterLibraryFiles | internal/repository/postgres/file.go:535-563 | the filter loop computes the filtered list |
| FileLibrary.FilteredExactly | internal/repository/postgres/file.go:535-563 | exactly the matching files, as often as they occur |
| FileLibrary.ComparatorIsStrictTotal | internal/repository/postgres/file.go:565-605 | every sort key in both directions is a strict total order on files with distinct IDs |
| FileLibrary.DescendingReverses | internal/repository/postgres/file.go:600-603 | on distinct files descending is exactly ascending reversed |
| FileLibrary.SelectedIsOrderedFilter | internal/repository/postgres/file.go:112-113 | the listing is ordered and holds exactly the matching files |
| ListingRules.RequestSelectsExactly | internal/repository/postgres/file.go:535-563 | which files a request lists, in terms of the request's own text fields; unknown scopes and categories ask for everything |
| ListingRules.ContainsMiddle | internal/repository/postgres/file.go:542-544 | a name matches a text that stands anywhere in it |
| ListingRules.ContainedSplits | internal/repository/postgres/file.go:542-544 | and only such a text |
| ListingRules.RequestOrdersExactly | internal/repository/postgres/file.go:565-605 | which of two listed files comes first by name, size or date, with ties by time and ID, in both directions and by default |
| FileLibrary.LoadOrderDoesNotMatter | internal/repository/postgres/file.go:565-605 | the same files loaded in another order give the same listing |
| FileFacets.BuildFileFacets | internal/repository/postgres/file.go:607-650 | the facets are exact and in order |
| FileFacets.CountFacets | internal/repository/postgres/file.go:608-626 | category and chat counts over the files |
| FileFacets.CountChats | internal/repository/postgres/file.go:613-625 | each file counts once per chat it is shared with, and the chat is described as the listing does |
| FileFacets.TypeFacetsSumToTotal | internal/repository/postgres/file.go:610-634 | the category facets add up to the number of files |
| ListingRules.CategoryCountMeaning | internal/repository/postgres/file.go:607-650 | a category count is the number of files of the category |
| ListingRules.ChatCountMeaning | internal/repository/postgres/file.go:607-650 | a chat count is the number of files shared with the chat, each once |
| ListingRules.DescribedByFirstMention | internal/repository/postgres/file.go:607-650 | a chat is described as where it is first mentioned |
| ListingRules.NilDescribedByLastFile | internal/repository/postgres/file.go:607-626 | the nil ID, alone, is described by the last file shared with it |
| ListingRules.FacetsOrderedExactly | internal/repository/postgres/file.go:607-650 | categories by name, chats by kind, name and ID |
| FileFacets.SortedChatsAreExact | internal/repository/postgres/file.go:636-648 | one facet per chat with its exact count, in order |
| FileFacets.SortedTypesAreExact | internal/repository/postgres/file.go:628-634 | one facet per category with its exact count, in order |
| FileFacets.TypeFacetsAreDetermined | internal/repository/postgres/file.go:628-634 | exact category facets of a listing are unique |
| FileFacets.ChatFacetsAreDetermined | internal/repository/postgres/file.go:636-648 | exact chat facets of a listing are unique |
| FilePaging.ListFiles | internal/repository/postgres/file.go:94-157 | one request: refused exactly for a bad cursor, else the page after the cursor, the totals of the whole listing and exact facets; unknown scopes, categories, sort keys and directions get their defaults |
| FilePaging.Locate | internal/repository/postgres/file.go:121-138 | where the cursor's page begins, or none |
| FilePaging.CutPage | internal/repository/postgres/file.go:140-148 | the page and its next cursor |
| FilePaging.TotalBytes | internal/repository/postgres/file.go:115-118 | the sum of all sizes |
| FilePaging.PagingRefinesListing | internal/repository/postgres/file.go:94-157 | following the cursors from the start yields every matching file exactly once in order, on the number of files divided by the page size, rounded up |
| ListingRules.TotalIsOnThePages | internal/repository/postgres/file.go:94-157 | the bytes every page reports are those of all the pages together |
| ListingRules.BytesAddUp | internal/repository/postgres/file.go:94-157 | the total is additive over any split of the listing, and for one file its size |
| FilePaging.PagesCoverTheRest | internal/repository/postgres/file.go:121-149 | from any valid cursor the pages are exactly the rest of the listing |
| FilePaging.TotalsAgree | internal/repository/postgres/file.go:112-119 | all requests of one browse report the same totals and the same category and chat facets, and the category facets sum to the total count |

## Left out

- Decision advice: reasons, sync mode, buffer targets, bitrate and frame-rate caps and the lip-sync window of a decision, and the unused low-layer threshold; they are read off one branch each.
- Floating point: metrics are exact reals, so rounding and the overflow of converting huge floats to integers are not modelled; counters are unbounded integers, including the 32-bit drop counter.
- Device class normalisation: the device class arrives as one of the values the policy distinguishes.
- Media transport: WebRTC connections, codecs, RTP and RTCP forwarding; adding or replacing a track on a connection always succeeds.
- Peers, routers and streams are values inside the room's maps, so aliasing between a peer object held elsewhere and the room is not captured.
- Publishing a simulcast stream is one step; the server releases the room lock between creating the stream, adding its first layer and subscribing the peers. The check and the publish of an ordinary track are two steps in RoomRaces, which is about the publishing limit only, and one step elsewhere.
- Router subscriber sets and stream records of departed presenters, and relay tracks injected after a room is closed: the server keeps no clean invariant there. Subscription theorems are about live peers.
- Observers, packet sinks, room events, logging and metrics.
- Peer.Close and SFU.Close: tearing down connections.
- Default lease of two minutes, receive times and a nil webhook event: the lease end is given.
- Database failures other than the constraint errors and rollbacks named in the model, and isolation weaker than the row locks and single statements modelled.
- Raw status updates of calls, participant removal, capacity-limited joins and participant media flags: unconditional or weakly isolated writes with no run-level invariant of their own.
- Status updates of participants appear in HostTransfer as arbitrary status changes; their left_at and left_reason columns are not modelled there.
- The recurrence library, UNTIL normalisation and time zones: the instants a rule generates in a window are given.
- Listing due reminder targets, enqueueing once per dispatch and the payloads of the outbox.
- HTTP handlers, services, realtime replay, configuration, storage and message clients, and the frontend.
- Hub subscription persistence and delivery-sequence recording, the closing of the network connection after a removal, and Run's channel plumbing.
- File categories: a file's category is given; deriving it from type and extension is a table. Trimming the query text and lower-casing are given as well.
- Cursor encoding: a cursor arrives decoded, as malformed, or absent.
- Loading accessible files and their share targets from the database.
- MediaRoom.Room.InjectRelayPacket: models the bookkeeping of the first packet of a track or layer, not the forwarding of packets.
- Adaptive.AdaptiveController.Decide: the decision leaves out the advice fields named first in this list.
- MediaRoom.Room.HandleNewTrack: the policy check and the publish are one step here; what the limit is worth when they are apart is in RoomRaces.
- MediaRoom.Room.HandleSimulcastTrack: creating the stream, adding its layer and subscribing the peers are one step.
- ReminderDiscovery.ExpandOccurrences: one event at a time and as a set of instants, because discovery expands one event per reminder and inserts in any order.

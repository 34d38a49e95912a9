# uplink-service, verified

A Dafny model of the parts of the scooter's uplink service that are hardest to get right, with proofs
about every input, every run and every interleaving. Verify it with `dafny verify dfyconfig.toml`.

**Ride-group v2 adapter.** The adapter decides when the scooter may share its position, when a "stop
sharing" operation may be applied, and which peer positions reach the dashboard. `AdapterModel.dfy` gives
every handler as a function on states; `AdapterRuns.dfy` defines runs, in which dashboard messages, server
controls, connection changes, settings refreshes, clock ticks and the Redis worker interleave freely.
`Adapter.dfy` is the object with its mutable fields and loops, each method proved to do what the function of
that step says, and `Service.dfy` records that whatever the object does is such a run. The clock and the
connection flag are inputs of a step, and UUIDs are drawn as inputs (some theorems assume that no UUID is
drawn twice). The theorems about whole runs are in `ConsentProofs`, `StopProofs`, `ResultProofs`,
`ProbeRateProofs`, `SourceProofs`, `CadenceProofs`, `WireTimeProofs` and `RedisProofs`. What is due does happen:
`StopResponses`, `ProbeResponses`, `ReplyResponses`, `ConsentResponses`, `FeedResponses` and `BoundaryResponses` say
in the adapter's fields and in the words of `Vocabulary.dfy` exactly when each thing is sent, accepted, installed,
voided or published, and with what contents; none of them mentions the tests of the handlers.

**Live egress.** `LatestQueue.dfy` is the latest-only queue that the adapter's worker (`Egress.dfy`) and the
socket writer (`LiveTransport.dfy`) both drain; their proofs are over every interleaving of publishers, worker
or writer, and connection loop. `Pipeline.dfy` puts adapter, worker and transport together: the adapter's feed
fills the worker's queue and a bumped generation empties it of positions, the worker is the one publisher, the
adapter's view of its connection is the transport's, and worker and writer ask the adapter in the state in which
it is at that moment. `PipelineParts.dfy` proves that the parts of a joint run are runs of their own, `EndToEnd.dfy` what the joint run
guarantees at the socket, and `Delivery.dfy` that what is due arrives there.

**Telemetry.** `DeltaModel`, `DeltaPublisher` and `DeltaProofs` are the delta publisher and the server's
replica; `EventQueue` is the offline event queue, down to the lines of its file; `SnapshotBuffer` is the
subsampling snapshot buffer.

**Strings.** `Utf8`, `Canonical` and `CanonicalProofs` treat scalar validation and canonicalisation byte by
byte; `Labels` is the packing of labels under a byte budget, `ControlText` the text of a control field by field,
and `ControlLabels` the fitting of a control's labels.

## What turned out not to hold in full

- *A lost fix is not always remembered.* After a fix was announced, a renewal of the same stream publishes
  `no_fix` once more and so overwrites the announcement while the recovery stays pending. A GPS loss that
  arrives then is taken for a repetition, and the next stream-starting grant reopens the source without a new
  fix. `Counterexamples.ForgottenClosing` is such a run from the initial state;
  `SourceProofs.ClosingShutsUnlessOverwritten` says for all inputs that this is the only exception.
- *A peer position can be published twice.* If a peer is removed from the grant and listed again while a copy of
  its position still waits in the Redis queue, the same sample can be accepted and published again;
  `Counterexamples.PublishedTwice` is such a run. `RedisProofs.RepeatIffUnlisted` says exactly when a sample is
  accepted again: if and only if a grant in between did not list its peer, or was another session's;
  `RedisProofs.AcceptedIffLaterOrUnlisted` says it for every sample.
- *Capture times strictly increase, but in nanoseconds.* On the wire they are milliseconds, which may repeat:
  any two GPS timestamps of one millisecond can be sent as two positions (`WireTimeProofs.SharedMillisecondRepeats`).
  They strictly increase if and only if no two timestamps that can be sent share a millisecond
  (`WireTimeProofs.WireTimesStrictIff`), which whole milliseconds, in particular, never do.
- *Labels can be cut although the canonical message would fit*, because the 1024-byte limit is met before
  canonicalisation, where `<`, `>`, `&`, U+2028 and U+2029 still cost six bytes each. This happens if and only if
  the text with these escapes is too long (`ControlLabels.CutIffEscapesOverflow`), never with a single peer, and
  for example with two labels of 32 `<` each (`ControlLabels.SignsOverflow`).
- *A control that was accepted can be dropped at the Redis boundary*, for the same reason: it arrives in canonical
  form and is encoded again, with escapes. `ControlLabels.ReencodesIff` says exactly when, and the same two labels
  are an input.
- *A reply or an offer that arrives exactly at its deadline is reported without an expiry*, because no time left
  is taken for no limit (`ReplyResponses.AgreeingReplyIsPassedOn`, `ReplyResponses.StatusIsForwarded`).
- *Fitting labels changes the caller's control*, whose peers it shares (`ControlLabels.FitControlLabels`).
- *The snapshot buffer can exceed its limit*: with a limit of one, three snapshots are kept
  (`Counterexamples.ThreeAreKept`). It stays within a positive limit whatever is added if and only if the limit
  is at least three and the buffer was loaded within it (`SnapshotBuffer.WithinLimitIff`).

## Model

The other methods of `AdapterObject.Adapter` are steps of the handlers listed here, each proved to do what the
function of that step in `AdapterModel` says.

| member | source | states |
|---|---|---|
| `StopProofs.QueryBeforeApply` | internal/ridegroup/protocol_v2_adapter.go:460-548 | in every run an apply is queued only if, on the same connection and IPC epoch and before the first probe's deadline, a query for the same operation, revision and fence was answered `not_found` and a probe drawn with that answer was answered by the same prepared journal state |
| `StopProofs.OneApplyPerQuery` | internal/ridegroup/protocol_v2_adapter.go:494-548 | one query justifies at most one apply |
| `StopProofs.ReconsentAfterVeto` | internal/ridegroup/adapter.go:240-263 | after any inhibit, fail-closed or connection reset, a grant is held (and so a position authorized) only after, in order, a probe issued since in a later IPC epoch was answered idle, an active activity was accepted, and a grant answering a challenge registered since was accepted |
| `ConsentProofs.VetoVoids` | internal/ridegroup/protocol_v2_adapter.go:279-291 | every veto leaves no grant, no activity, no challenge and no readiness, and moves the IPC epoch on |
| `ConsentProofs.RunKeepsConsent` | internal/ridegroup/protocol_v2_adapter.go:435-438 | in every reachable state a held grant implies ready and unblocked settings, a ready, idle and unblocked journal and an active activity |
| `ConsentProofs.LeaseEndsAtChallengePlusTTL` | internal/ridegroup/protocol_v2_adapter.go:399-432 | the held lease ends exactly at the registration of the answered challenge plus the granting message's TTL, at most ten seconds after the registration, however often grants are replayed |
| `ConsentProofs.AuthorityNeverGoesBack` | internal/ridegroup/protocol_v2_adapter.go:388-398 | on one connection, grants of one session never decrease in epoch, revision or consent generation, and an equal epoch keeps the stream |
| `ConsentProofs.ClearedEpochNeverReturns` | internal/ridegroup/protocol_v2_adapter.go:362-390 | after a clear retired a held grant, every later grant of that session has a larger epoch until another session's grant is accepted, across expiry, inhibits and failures |
| `StopProofs.RetiredStopIsNeverAuthorized` | internal/ridegroup/egress.go:154-162 | a stop whose IPC epoch has passed is not authorized in any later state |
| `StopProofs.OneOutstandingProbe` | internal/ridegroup/protocol_v2_adapter.go:118-133 | at most one probe is outstanding in every reachable state |
| `StopProofs.OneLiveAttempt` | internal/ridegroup/protocol_v2_adapter.go:480-488 | with a clock that never goes back, at most one stop attempt is live |
| `StopProofs.ForwardedOnce` | internal/ridegroup/protocol_v2_adapter.go:494-520 | each attempt yields at most one forwarded result |
| `StopResponses.SnapshotsAreActedOn` | internal/ridegroup/protocol_v2_adapter.go:188-251 | in every run, a snapshot that answers an ordinary probe queues a query if and only if its stop is prepared and not committed, or uncertain and named, and the connection has a nonce, an epoch, no live attempt and fewer than ten attempts; for its own operation, fence, challenge and deadline, with the attempt and the pending query recorded; a preparing one leaves a permit and greets, an idle one repeats the activity; a confirmation is applied if and only if it confirms the pending query in time |
| `StopResponses.AnswerIsTaken` | internal/ridegroup/protocol_v2_adapter.go:217-221 | a snapshot that answers its probe in time and fits becomes the journal's state, decides its readiness, and uses up the probe |
| `StopResponses.AnswerDecidesGrant` | internal/ridegroup/protocol_v2_adapter.go:222-224 | a taken snapshot leaves consent and source alone if it is idle and not blocked, and otherwise ends the grant and nothing else of consent |
| `StopResponses.ConfirmationApplies` | internal/ridegroup/protocol_v2_adapter.go:539-548 | a confirmation queues the apply of the pending query exactly when it reports the journal as the query found it, in time, and a request can go out; the query is then used up, as it is if it is not confirmed |
| `ProbeResponses.ProbeGoesOut` | internal/ridegroup/protocol_v2_adapter.go:118-165 | a probe is queued, for ten seconds, if and only if settings are known, the connection has a nonce, no probe can still be answered, ten seconds hold fewer than ten and an identifier was drawn; it is then the only probe, with the purpose, fence and deadline of what it asks |
| `ProbeResponses.AlarmVoids` | internal/ridegroup/protocol_v2_adapter.go:197-216 | a snapshot that says otherwise than before, does not fit, or reports a stop unasked voids grant, activity, challenges, attempts and queries, and blocks the journal |
| `ProbeResponses.OtherSnapshotIsIgnored` | internal/ridegroup/protocol_v2_adapter.go:197-210 | any other snapshot that is no answer changes nothing but probes |
| `ProbeResponses.AlarmAsks` | internal/ridegroup/protocol_v2_adapter.go:197-216 | after an alarm the journal is asked for, exactly when it can be |
| `ProbeResponses.OtherSnapshotAsks` | internal/ridegroup/protocol_v2_adapter.go:197-210 | after an idle snapshot that is no answer the journal is asked for exactly when it can be and no question is open; a repeated answer asks nothing |
| `ProbeResponses.ConnectingStartsOver` | internal/ridegroup/adapter.go:203-263 | the end of the current attempt to connect voids everything of the old connection, and greets the server if the client is still connected |
| `ProbeResponses.ConnectingAsks` | internal/ridegroup/adapter.go:203-211 | ... and asks for the journal exactly when that is possible on the new connection |
| `ProbeResponses.RecoveringAsks` | internal/ridegroup/adapter.go:373-380 | the end of a recovery asks for the journal exactly when a probe is due, and changes no consent |
| `ProbeResponses.UnblockedSettings` | internal/ridegroup/adapter.go:430-454 | settings with no block before or after change readiness alone; becoming ready greets the server and asks for the journal, exactly when that is possible |
| `ProbeResponses.BlockedSettings` | internal/ridegroup/adapter.go:430-454 | a block that is on, or was, voids everything, whether it is switched on or off |
| `ProbeResponses.BlockedSettingsAsk` | internal/ridegroup/adapter.go:430-454 | ... and the journal is then asked for under the new epoch, unless ten seconds hold ten probes with the one that the readiness may have sent before |
| `ReplyResponses.AgreeingReplyIsPassedOn` | internal/ridegroup/protocol_v2_adapter.go:494-532 | a reply that agrees with the journal is reported for what is left of the attempt's time, with the server's own generation as committed exactly for committed, superseded and unconfirmed; a confirmation probe follows if and only if the reply is `not_found` for the pending query and a probe is due |
| `ReplyResponses.NotFoundAsksToConfirm` | internal/ridegroup/protocol_v2_adapter.go:521-537 | the confirmation probe asks for exactly the pending query; the query is forgotten if it cannot be sent, as after the reply to an apply |
| `ReplyResponses.DisagreeingReplyVoids` | internal/ridegroup/protocol_v2_adapter.go:499-510 | a reply to an open attempt that does not agree with the journal or the fence voids everything and sends nothing |
| `ReplyResponses.StrayReplyIsIgnored` | internal/ridegroup/protocol_v2_adapter.go:494-498 | a reply that answers no open attempt of this connection and epoch in time changes nothing |
| `ReplyResponses.StatusIsForwarded` | internal/ridegroup/protocol_v2_adapter.go:445-458 | a status without a result is forwarded; an offer precedes it if and only if it answers the permitted greeting of a journal that is still preparing, and the permit is then used up |
| `ResultProofs.ForwardedResultIsFaithful` | internal/ridegroup/protocol_v2_adapter.go:511-520 | in every run a forwarded reply reports the journal's operation and revision, the attempt's challenge, this connection, the server's outcome and fence, and as committed the server's own generation exactly for committed, superseded and unconfirmed; and it always satisfies the encoder's rules |
| `ResultProofs.OfferIsFaithful` | internal/ridegroup/protocol_v2_adapter.go:445-458 | in every run an offer answers a preparing journal with the server's consent generation, satisfies the encoder's rules and uses up its permit |
| `ProbeRateProofs.TenProbesPerTenSeconds` | internal/ridegroup/protocol_v2_adapter.go:134-165 | with a clock that never goes back, no ten-second window of the adapter's life holds more than ten probes, even across resets |
| `ConsentResponses.ActivityIsAccepted` | internal/ridegroup/protocol_v2_adapter.go:299-335 | an activity is accepted if and only if consent is open, it is later than the last of its boot, its challenge is new, and, if active, it names the ride known so far at least a second after the last; its challenge is then registered among the young ones, and otherwise nothing changes |
| `ConsentResponses.ActivityDecidesGrant` | internal/ridegroup/protocol_v2_adapter.go:321-330 | an accepted active activity keeps the grant, putting one for its ride in force; an inactive one ends it |
| `ConsentResponses.ActivityIsSent` | internal/ridegroup/protocol_v2_adapter.go:331-335 | an accepted activity greets the server with its challenge and is sent after it |
| `ConsentResponses.GrantIsInstalled` | internal/ridegroup/protocol_v2_adapter.go:379-433 | a grant is installed if and only if consent is open, the rider shares, it answers a young challenge with lease left and is not behind what this connection has seen of its session; its lease runs from the challenge, its cadence is at least a second, and otherwise nothing changes |
| `ConsentResponses.GrantScopesPeers` | internal/ridegroup/adapter.go:893-911 | an installed grant keeps exactly the replay marks of the peers it lists, of the same session |
| `ConsentResponses.GrantStartsStream` | internal/ridegroup/protocol_v2_adapter.go:404-430 | an installed grant starts the numbering over and ends a pending recovery exactly when its stream or epoch is another |
| `ConsentResponses.ClearRetires` | internal/ridegroup/protocol_v2_adapter.go:362-377 | a clear retires the held grant and the activity if and only if it names its session and member and is not behind it, and otherwise changes nothing |
| `ConsentResponses.ClearWithoutGrant` | internal/ridegroup/protocol_v2_adapter.go:362-377 | with no grant held a clear forgets the challenges and is forwarded, unless the journal is blocked |
| `ConsentResponses.TickExpires` | internal/ridegroup/protocol_v2_adapter.go:600-610 | the clock ends the activity, and the grant with it, or the grant alone, exactly when their time is over |
| `ConsentResponses.TickForgets` | internal/ridegroup/protocol_v2_adapter.go:611-621 | the clock drops exactly the probes and attempts that can no longer be answered |
| `ConsentResponses.FailureVoids` | internal/ridegroup/adapter.go:928-948 | a Redis failure voids everything and withdraws readiness |
| `ConsentResponses.DisconnectionVoids` | internal/ridegroup/adapter.go:225-263 | the loss of the current client voids everything of its connection; the loss of another one at most outdates an attempt |
| `SourceProofs.PositionsNeedRecovery` | internal/ridegroup/gps_v2.go:41-69 | once the source is shut, a position is queued or authorized only after a `fix_available` status was queued and then a stream-starting grant accepted, and a queued one was captured strictly later than that fix |
| `SourceProofs.ClosingShutsUnlessOverwritten` | internal/ridegroup/gps_v2.go:72-83 | a GPS message without a usable fix shuts the source if and only if it does not find a pending recovery whose announcement was overwritten |
| `SourceProofs.OverwrittenClosingIsForgotten` | internal/ridegroup/protocol_v2_adapter.go:404-416 | in the excepted case, any stream-starting grant that follows reopens the source |
| `Counterexamples.ForgottenClosing` | internal/ridegroup/protocol_v2_adapter.go:404-430 | a reachable state from which a loss of the fix is followed, two steps later, by a queued position, with no announcement in between |
| `SourceProofs.CaptureTimesStrictlyIncrease` | internal/ridegroup/gps_v2.go:26-34 | captured times of queued positions strictly increase over the adapter's whole life, and never decrease in milliseconds |
| `WireTimeProofs.WireTimesStrictIff` | internal/ridegroup/gps_v2.go:61-67 | for any set of GPS timestamps: in every run with timestamps from it capture times strictly increase on the wire, if and only if no two of them that can be sent share a millisecond |
| `WireTimeProofs.SharedMillisecondRepeats` | internal/ridegroup/gps_v2.go:61-67 | any two timestamps of one millisecond are queued as two positions with one wire time, by a run from the initial state |
| `WireTimeProofs.WholeMillisecondsAreApart` | internal/ridegroup/gps_v2.go:61-67 | timestamps in whole milliseconds never share one |
| `SourceProofs.BumpedPositionIsNeverAuthorized` | internal/ridegroup/egress.go:135-140 | a position whose generation was bumped is not authorized in any later state |
| `SourceProofs.StreamNumbering` | internal/ridegroup/gps_v2.go:61-69 | every new position or status carries one more than the number of new items since its stream was started: 1, 2, 3, … |
| `SourceProofs.RetryRepeatsLatestStatus` | internal/ridegroup/gps_v2.go:135-154 | whatever else is queued on the feed repeats the latest new status, unchanged |
| `SourceProofs.NoPositionAfterNoFix` | internal/ridegroup/gps_v2.go:85-93 | no position follows a `no_fix` status before the next stream is started |
| `CadenceProofs.PositionsKeepTheCadence` | internal/ridegroup/gps_v2.go:58-69 | in every run, two positions queued while a grant is held without a break are at least a second apart, and at least the cadence of the grant held for the later one, whatever the clock does |
| `FeedResponses.FixIsQueued` | internal/ridegroup/gps_v2.go:52-70 | on an open source a usable fix is queued as a position if and only if the grant is in force, the rider rides for it, and the cadence has passed since the last one; with the grant's names, the current generation and the next number |
| `FeedResponses.RepeatedFixRestarts` | internal/ridegroup/gps_v2.go:52-57 | a usable fix that does not follow the last sample bumps the generation and queues nothing |
| `FeedResponses.FixIsAnnounced` | internal/ridegroup/gps_v2.go:41-51 | on a shut source a usable fix is announced as `fix_available` if and only if the grant is in force and the rider rides for it, unless an announcement of at most five seconds is pending |
| `FeedResponses.AnnouncementRepeats` | internal/ridegroup/gps_v2.go:41-45 | with such an announcement pending, a fix only has the latest status repeated when its three seconds are over |
| `FeedResponses.LostFixCloses` | internal/ridegroup/gps_v2.go:72-93 | a message without a usable fix shuts an open or recovering source, and tells `no_fix` exactly when that may be sent |
| `FeedResponses.LostFixRepeats` | internal/ridegroup/gps_v2.go:72-76 | on a source that is shut and says so, it only repeats the latest status when that is due |
| `FeedResponses.OldFixIsIgnored` | internal/ridegroup/gps_v2.go:26-34 | a valid fix not later than one observed before changes nothing |
| `FeedResponses.TickRepeats` | internal/ridegroup/gps_v2.go:135-154 | the clock repeats the latest status if and only if the grant is in force, three seconds have passed and the fix announced is at most five seconds old |
| `FeedResponses.GrantTellsNoFix` | internal/ridegroup/protocol_v2_adapter.go:404-430 | a grant that finds the source shut has `no_fix` told to its holder, as the next status of its stream |
| `RedisProofs.PublishedPeersAdvance` | internal/ridegroup/protocol_v2_adapter.go:550-569 | of two published positions of a peer, the later one was accepted later; it is a later epoch or a strictly later sample of the same stream if the peer stayed listed in one session's grants between the acceptances, and never an older one if it stayed listed between the publications |
| `RedisProofs.AcceptedIffLaterOrUnlisted` | internal/ridegroup/protocol_v2_adapter.go:550-569 | after a position was accepted and nothing of its peer since, another one naming the held grant is accepted if and only if it is later or a grant in between did not list the peer in that session |
| `RedisProofs.RepeatIffUnlisted` | internal/ridegroup/adapter.go:893-911 | in particular the same sample is accepted again if and only if its peer was unlisted in between |
| `Counterexamples.PublishedTwice` | internal/ridegroup/adapter.go:893-911 | a reachable state in which the same sample of a peer, unlisted and listed again in between, was published twice |
| `RedisProofs.PublishedInOrder` | internal/ridegroup/egress.go:273-315 | publications leave the drop-oldest queue in the order in which they entered it |
| `RedisProofs.ClosedEpochIsSilent` | internal/ridegroup/ipc_v2.go:54-74 | after an accepted closing status, no position of that peer epoch or an older one is published while the peer stays listed |
| `RedisProofs.RewrittenLeaseFits` | internal/ridegroup/ipc_v2.go:34-48 | a lease rewritten at the Redis boundary lasts at least a millisecond, ends no later than the held lease, and changes nothing else of the control |
| `RedisProofs.PublishedLeaseIsAnchored` | internal/ridegroup/ipc_v2.go:34-48 | in every run a published lease ends within ten seconds of a registered challenge |
| `RedisProofs.RunKeepsQueue` | internal/ridegroup/egress.go:273-315 | the bounded queue, the entry in flight and what was published are in the order of queueing, in every reachable state |
| `BoundaryResponses.PeerIsPassedOn` | internal/ridegroup/protocol_v2_adapter.go:550-569 | a peer position is queued, for a second, and becomes its peer's mark if and only if the grant in force is the one it names and lists the peer, and it is of a later epoch or the next sample of an open stream |
| `BoundaryResponses.PeerStatusIsPassedOn` | internal/ridegroup/protocol_v2_adapter.go:571-594 | a peer status is queued and closes the stream if and only if the grant in force lists the peer and the status is of a later epoch or of the marked stream |
| `BoundaryResponses.PositionIsAuthorizedIff` | internal/ridegroup/egress.go:135-140 | a position may be written if and only if the grant in force is the one it names, the rider rides for it, the source is open, its generation is current and it is at most five seconds old |
| `BoundaryResponses.StatusIsAuthorizedIff` | internal/ridegroup/egress.go:141-153 | a status may be written if and only if it is the latest one, of the grant in force and of this connection, with the source shut or the fix at most five seconds old |
| `BoundaryResponses.ActivityIsAuthorizedIff` | internal/ridegroup/egress.go:127-134 | an activity may be written if and only if it is the accepted one, for ten seconds, while consent is open |
| `BoundaryResponses.StopIsAuthorizedIff` | internal/ridegroup/egress.go:154-162 | a stop may be written if and only if its attempt is open and the journal is where the attempt found it |
| `BoundaryResponses.ProbeIsPublishedIff` | internal/ridegroup/ipc_v2.go:19-21 | a probe is published if and only if it can still be answered |
| `BoundaryResponses.ResultIsPublishedIff` | internal/ridegroup/ipc_v2.go:22-29 | a result is published if and only if the journal is still at its operation and revision, and open for it |
| `BoundaryResponses.LeaseIsPublishedIff` | internal/ridegroup/ipc_v2.go:30-49 | a grant is published if and only if it names the grant held, whose lease runs, and has a millisecond left; with the whole milliseconds that are left of both leases |
| `BoundaryResponses.ControlIsPublishedIff` | internal/ridegroup/ipc_v2.go:50-53 | another control is published unchanged, except a clear while a grant is held |
| `BoundaryResponses.PeerIsPublishedIff` | internal/ridegroup/ipc_v2.go:54-71 | a peer position is published if and only if it is its peer's mark and still valid, with its validity less the whole milliseconds it waited |
| `BoundaryResponses.PeerStatusIsPublishedIff` | internal/ridegroup/ipc_v2.go:72-74 | a peer status is published if and only if the peer's stream is the closed one it speaks of |
| `BoundaryResponses.DeliveryPublishes` | internal/ridegroup/egress.go:300-313 | what was taken is published, as it is then, exactly when it has neither expired nor lost its standing |
| `BoundaryResponses.QueuedPositionIsAuthorized` | internal/ridegroup/gps_v2.go:57-70 | a position that is queued may be written at that moment |
| `AdapterObject.Adapter.QueueForRedis` | internal/ridegroup/egress.go:273-292 | appends to the queue of eight, dropping the oldest entry of a full one |
| `AdapterObject.Adapter.FailClosed` | internal/ridegroup/adapter.go:928-948 | starts over after a Redis failure |
| `AdapterObject.Adapter.DropStaleProbes` | internal/ridegroup/protocol_v2_adapter.go:126-130 | the loop keeps exactly the probes in time, on this connection and in this IPC epoch |
| `AdapterObject.Adapter.KeepRecentProbeTimes` | internal/ridegroup/protocol_v2_adapter.go:134-141 | the in-place filter keeps exactly the issue times since the cutoff, in order |
| `AdapterObject.Adapter.TryProbe` | internal/ridegroup/protocol_v2_adapter.go:118-165 | issues a probe exactly when allowed, none is outstanding and fewer than ten are recent |
| `AdapterObject.Adapter.Consume` | internal/ridegroup/protocol_v2_adapter.go:267-277 | removes the probe, remembers the answer, and forgets some one answer beyond ten |
| `AdapterObject.Adapter.HasLiveAttempt` | internal/ridegroup/protocol_v2_adapter.go:480-484 | the loop finds a live attempt if and only if there is one |
| `AdapterObject.Adapter.TrySendStop` | internal/ridegroup/protocol_v2_adapter.go:460-492 | records an attempt and queues its stop exactly when the journal, the mode and the attempts allow it |
| `AdapterObject.Adapter.HandleSnapshot` | internal/ridegroup/protocol_v2_adapter.go:188-251 | the object does with a snapshot what StopResponses and ProbeResponses say of it: takes one that answers and acts on it, or inhibits and asks again |
| `AdapterObject.Adapter.HandleActivity` | internal/ridegroup/protocol_v2_adapter.go:299-335 | accepts an activity and registers its challenge, pruning an oldest one |
| `AdapterObject.Adapter.DropChallenges` | internal/ridegroup/adapter.go:875-891 | keeps the challenges in time and drops an oldest one of ten |
| `AdapterObject.Adapter.DropOldChallenges` | internal/ridegroup/adapter.go:876-880 | the loop keeps exactly the challenges younger than a lease |
| `AdapterObject.SomeOldest` | internal/ridegroup/adapter.go:881-890 | the search finds a challenge that no other one is older than |
| `AdapterObject.Adapter.HandleControl` | internal/ridegroup/protocol_v2_adapter.go:343-433 | dispatches a control of this connection to what its action asks for |
| `AdapterObject.Adapter.ScopePeers` | internal/ridegroup/adapter.go:893-911 | the loops keep exactly the replay marks of listed peers of the same session |
| `AdapterObject.Adapter.PeerInGrant` | internal/ridegroup/adapter.go:913-926 | the loop finds a peer if and only if the held grant lists it |
| `AdapterObject.Adapter.HandlePeer` | internal/ridegroup/protocol_v2_adapter.go:550-569 | accepts a peer position that advances its replay mark |
| `AdapterObject.Adapter.HandlePeerStatus` | internal/ridegroup/protocol_v2_adapter.go:571-594 | accepts a peer status and closes its stream |
| `AdapterObject.Adapter.HandleGps` | internal/ridegroup/gps_v2.go:8-40 | the object does with a GPS message what FeedResponses says of it: which lose the fix, are ignored, announce the source or are queued |
| `AdapterObject.Adapter.HandleTick` | internal/ridegroup/adapter.go:764-771 | expires leases and repeats a due status |
| `AdapterObject.Adapter.DropStaleAttempts` | internal/ridegroup/protocol_v2_adapter.go:616-620 | the loop keeps exactly the attempts in time, on this connection and in this IPC epoch |
| `AdapterObject.Adapter.BeginConnect` | internal/ridegroup/adapter.go:172-183 | one connection attempt at a time, numbered |
| `AdapterObject.Adapter.FinishConnect` | internal/ridegroup/adapter.go:184-216 | only the current attempt resets the connection, greets and asks for the journal; the reset happens even if the client went down again after its last check |
| `AdapterObject.Adapter.Disconnect` | internal/ridegroup/adapter.go:225-238 | outdates an attempt, and resets the connection if it was this client's |
| `AdapterObject.Adapter.BeginRecovery` | internal/ridegroup/adapter.go:358-361 | settings are not ready until they were read again |
| `AdapterObject.Adapter.FinishRecovery` | internal/ridegroup/adapter.go:373-380 | serving starts with a probe |
| `AdapterObject.Adapter.RefreshBlocked` | internal/ridegroup/adapter.go:430-454 | takes over the block, greets when settings become ready, and starts over when a block is or was set |
| `AdapterObject.Adapter.TakeFromQueue` | internal/ridegroup/egress.go:294-300 | the worker takes the oldest publication |
| `AdapterObject.Adapter.Deliver` | internal/ridegroup/egress.go:300-313 | publishes what has not expired and is still valid, rewritten to what is left of its validity |
| `Service.Dispatch` | internal/ridegroup/adapter.go:281-347 | whatever arrives, the object takes a step of the model, with the map entry it chose to drop |
| `Service.History.Step` | internal/ridegroup/adapter.go:281-347 | the object's history is a run, so every theorem about runs holds of it |
| `Service.RunStaysBounded` | internal/ridegroup/protocol_v2_adapter.go:267-277 | at most ten answers and nine challenges are held, in every run |
| `LatestQueue.PendingMap.Insert` | internal/connection/live.go:79-85 | the newest entry of its kind, numbered after all others |
| `LatestQueue.PendingMap.Take` | internal/connection/live.go:103-116 | the search loop removes and returns an oldest entry, and finds none only in an empty queue |
| `LatestQueue.PutNeverOvertakes` | internal/ridegroup/egress.go:93-100 | what is put later does not get ahead of an entry that is not replaced |
| `LatestQueue.TakingOldestAdvances` | internal/ridegroup/egress.go:188-203 | each take brings every waiting entry one place forward |
| `LiveTransport.NoLostWakeup` | internal/connection/live.go:79-124 | in every interleaving a non-empty live queue has a wake token, a publisher about to post one, or a writer about to take |
| `LiveTransport.QueueMakesProgress` | internal/connection/manager.go:304-320 | while a writer runs, something pending means that a post, a wakeup, a take, or the end of the current write is possible |
| `LiveTransport.AtMostFourGoFirst` | internal/connection/live.go:103-124 | while a frame stays pending and is not replaced, at most four others are taken |
| `LiveTransport.UpThroughout` | internal/connection/manager.go:107-171 | a socket that is up at two times was up at all times in between, in every interleaving with the connection loop |
| `LiveTransport.WrittenFramesAreCurrent` | internal/connection/live.go:130-152 | every written frame was published for this very socket, up then and ever since, less than a second before the last expiry check, and the adapter authorized it after publication |
| `EndToEnd.WrittenPositionHadConsent` | internal/ridegroup/egress.go:225-238 | a position is written to the socket only if the adapter, in its state of the moment in which the writer asked, had full consent, an open source and a lease in force on this client and connection, and from the adapter step that queued the position up to then no veto, loss of fix, new stream or end of the grant had happened |
| `EndToEnd.WrittenInOrder` | internal/connection/live.go:79-152 | over the whole life of the service, positions are written in the order in which they were queued, with strictly increasing capture times, and with increasing numbers while no stream is started in between |
| `EndToEnd.VoidingBumps` | internal/ridegroup/protocol_v2_adapter.go:68-78 | every veto, lost fix, new stream or end of a grant bumps the position generation |
| `EndToEnd.WaitingPositionIsCurrent` | internal/ridegroup/egress.go:109-114 | in every joint run a position that waits for the worker has the adapter's current generation |
| `EndToEnd.WrittenInTime` | internal/connection/live.go:130-152 | whatever the adapter and the worker do in between, a frame is written on its own socket, which is up, less than a second after it was published |
| `Delivery.DueFixIsWritten` | internal/ridegroup/egress.go:205-240 | from rest, a fix that is due reaches the socket as a position: the joint steps from the GPS message to the write can all be taken, while the grant is in force and no second passes |
| `Delivery.DueQueryIsWritten` | internal/ridegroup/egress.go:205-240 | from rest, a snapshot of a prepared or uncertain stop has its query reach the socket in the same way |
| `Delivery.JobIsDelivered` | internal/connection/live.go:57-152 | the worker's only publication is written, with an expiry of at most a second, if the adapter stands behind it when the worker and when the writer ask |
| `PipelineParts.AdapterWithin` | internal/ridegroup/egress.go:225-238 | every joint run contains a run of the adapter, whose states the joint states go through in order |
| `PipelineParts.TransportWithin` | internal/connection/live.go:57-91 | the transport's states in a joint run are those of a transport run, so every theorem about transport runs holds of them |
| `PipelineParts.PoolWithin` | internal/ridegroup/egress.go:78-120 | the worker's queue in a joint run goes through a run of its own |
| `Egress.PoolIsAttended` | internal/ridegroup/egress.go:78-107 | in every interleaving a pending publication, or a closing adapter, has a token, a poster or a working worker |
| `Egress.AtMostFiveGoFirst` | internal/ridegroup/egress.go:188-203 | while a publication stays pending and is not replaced, at most five others are taken |
| `Egress.ClosingWindsDown` | internal/ridegroup/egress.go:246-261 | once closing, no step adds work and each step of the worker reduces what is left |
| `Egress.WorkerExitsAfterClosing` | internal/ridegroup/egress.go:205-261 | after closing the worker takes at most four more steps, and unless it has exited one is possible or a post that allows it |
| `DeltaPublisher.FlattenState` | internal/telemetry/delta.go:157-169 | one flat entry for every field, with the value of some field at that path |
| `DeltaPublisher.NestFlat` | internal/telemetry/delta.go:171-187 | a field for exactly every dotted path, split at its first dot |
| `DeltaPublisher.DiffFlat` | internal/telemetry/delta.go:189-202 | exactly the changed entries and exactly the removed paths |
| `DeltaPublisher.Publisher.Publish` | internal/telemetry/delta.go:75-118 | the message sent, the outcome and the new baseline |
| `DeltaPublisher.Publisher.ResetBaseline` | internal/telemetry/delta.go:67-71 | only the baseline is forgotten |
| `DeltaModel.FlatFormIsUnique` | internal/telemetry/delta.go:157-169 | with dot-free hash names the flat form does not depend on the order of the loop |
| `DeltaModel.FlattenInvertsNest` | internal/telemetry/delta.go:171-187 | flattening undoes nesting |
| `DeltaModel.DifferenceLeadsToNew` | internal/telemetry/delta.go:189-202 | merging the changes and deleting the removed paths leads from the old state to the new one |
| `DeltaProofs.ServerReplicaAgrees` | internal/telemetry/delta.go:73-118 | whatever the server had before, after every publication that succeeds while connected the connection's messages leave it with exactly the flattened snapshot, over all publications, failures, disconnects and resets |
| `DeltaProofs.FullStatesAreFrequent` | internal/telemetry/delta.go:92-117 | a connection starts with a full state, and at most twenty deltas separate two of them |
| `DeltaProofs.WhatIsSent` | internal/telemetry/delta.go:75-118 | in every run, a publication while connected sends the full state if and only if it is asked for, the server has nothing known, the vehicle state changed or twenty deltas were accepted since the last one; otherwise a delta if and only if the flat form differs from what the server has |
| `DeltaProofs.BaselineIsKnown` | internal/telemetry/delta.go:75-118 | in every run the baseline is the snapshot accepted last, unless it was given up since, and its count is that of the deltas since the last full state |
| `EventQueue.SplitLines` | internal/telemetry/events.go:685-698 | the scanning loop computes the lines of the text |
| `EventQueue.SplitInvertsWrite` | internal/telemetry/events.go:652-663 | splitting inverts line writing |
| `EventQueue.WriteInvertsSplit` | internal/telemetry/events.go:685-698 | writing inverts splitting, up to the newline that an unfinished last line lacks |
| `EventQueue.EventFile.BufferEvent` | internal/telemetry/events.go:489-534 | what the file holds after a write that may fail anywhere: a complete line behind complete lines adds the event at the back, and no failure loses an earlier event of such a file |
| `EventQueue.EventFile.FlushBufferedEvents` | internal/telemetry/events.go:540-633 | what is sent and what the file holds afterwards; if every live event is accepted and the file can be replaced, all are sent in order and no file is left; without a connection, when cancelled or when the file cannot be replaced, it is unchanged |
| `EventQueue.ParseRemaining` | internal/telemetry/events.go:598-606 | the readable events after the refused one, in order |
| `EventQueue.FlushConserves` | internal/telemetry/events.go:565-615 | a finished flush cuts the queue into a prefix whose live events were sent in order and whose others were exhausted, and a kept suffix in order, changed only by one retry of its head, which was refused |
| `EventQueue.FlushEnds` | internal/telemetry/events.go:565-631 | with the first n live events accepted, a flush ends by the next answer: with none left all are sent and none kept; a refusal keeps the refused event in front with one retry more; an acceptance cut short by a cancellation leaves it unfinished |
| `EventQueue.CancelledIff` | internal/telemetry/events.go:565-631 | a flush is cancelled if and only if an acceptance is cut short before any refusal |
| `EventQueue.LiveInPlace` | internal/telemetry/events.go:577-580 | the live events are, in order, those with fewer than the largest number of retries |
| `EventQueue.RefusedAtMostMaxRetries` | internal/telemetry/events.go:577-608 | over any appends and flushes, no event is refused at the front in more than `maxRetries` flushes that were written back |
| `EventQueue.EventLog.Buffer` | internal/telemetry/events.go:489-534 | appending to the file is a step of the queue's run |
| `EventQueue.EventLog.Flush` | internal/telemetry/events.go:540-633 | flushing the file is a step of the queue's run, or changes nothing |
| `EventQueue.EventLog.FileRefusesAtMostMaxRetries` | internal/telemetry/events.go:577-608 | so no event of the file is refused at its front in more than `maxRetries` flushes that were written back |
| `EventQueue.TornLineSwallowsNext` | internal/telemetry/events.go:513-522 | after a write that failed half-way, the torn line and the next event are read as one line, and the events before stay |
| `SnapshotBuffer.SubsampleLoop` | internal/telemetry/buffer.go:133-144 | the step-two loop computes the subsample |
| `SnapshotBuffer.SubsampleAt` | internal/telemetry/buffer.go:133-144 | of n ≥ 3 snapshots, which (n - 1) / 2 + 2 are kept |
| `SnapshotBuffer.SubsampleKeepsEnds` | internal/telemetry/buffer.go:132-144 | both ends survive and more than three snapshots become fewer |
| `SnapshotBuffer.BufferSpansEverything` | internal/telemetry/buffer.go:53-68 | over any number of adds the buffer is an ordered subsequence of all that was loaded or added, with the same first and last snapshot |
| `SnapshotBuffer.BufferStaysSmall` | internal/telemetry/buffer.go:63-65 | it never exceeds the largest of a positive limit, three and the loaded size; without a limit it keeps everything |
| `SnapshotBuffer.WithinLimitIff` | internal/telemetry/buffer.go:63-65 | the buffer stays within a positive limit whatever is added if and only if the limit is at least three and it was loaded within it |
| `SnapshotBuffer.AllKeptIff` | internal/telemetry/buffer.go:53-68 | with a positive limit everything loaded and added is kept if and only if it is within the limit, or no more than three, or nothing was added; otherwise some is dropped |
| `SnapshotBuffer.OneAdd` | internal/telemetry/buffer.go:53-68 | one snapshot more is kept with all others within the limit; beyond it, and with more than three, the first, the last and those at odd positions stay, position by position |
| `SnapshotBuffer.BatchIsProjection` | internal/telemetry/buffer.go:97-118 | a batch holds, in order, exactly the items of this session or with an absolute time, data unchanged, a relative time projected where the clock allows it |
| `Counterexamples.ThreeAreKept` | internal/telemetry/buffer.go:132-136 | with a limit of one, three added snapshots are all kept |
| `SnapshotBuffer.Buffer.Add` | internal/telemetry/buffer.go:53-68 | appends and limits as OneAdd says, keeping the span |
| `SnapshotBuffer.Buffer.Flush` | internal/telemetry/buffer.go:88-130 | sends the whole projected batch and empties the buffer, or keeps everything; a batch with nothing sendable only empties it |
| `CanonicalProofs.CanonicalisationPreservesMeaning` | internal/ridegroup/protocol_v2.go:765-892 | for every accepted byte string canonicalisation succeeds, and its output is accepted, has the same strings and the same bytes between them, is not longer and is a fixed point |
| `CanonicalProofs.CanonicalIffBare` | internal/ridegroup/protocol_v2.go:843-892 | the canonical form has no unicode escape of `<`, `>`, `&`, U+2028 or U+2029, and an accepted text is its own canonical form if and only if it has none |
| `Utf8.ValidIffEncoded` | internal/ridegroup/protocol_v2.go:765-767 | the automaton accepts a text if and only if it is the encoding of some scalar values |
| `Utf8.EncodingIsUnique` | internal/ridegroup/protocol_v2.go:843-892 | no two sequences of scalar values have the same encoding |
| `Canonical.RunesOrBytes` | internal/ridegroup/protocol_v2.go:765-821 | stepping over whole characters accepts the same texts as stepping over bytes |
| `CanonicalProofs.CanonReadsAlike` | internal/ridegroup/protocol_v2.go:843-892 | canonicalisation keeps UTF-8 valid |
| `CanonicalProofs.ValidJsonScalars` | internal/ridegroup/protocol_v2.go:765-821 | the loop accepts exactly valid UTF-8 with well-formed strings and no lone surrogates |
| `CanonicalProofs.EscapeLength` | internal/ridegroup/protocol_v2.go:798-818 | the size of a complete escape, a surrogate pair counting as one, or none |
| `CanonicalProofs.HexLoop` | internal/ridegroup/protocol_v2.go:822-841 | the value of four hexadecimal digits |
| `CanonicalProofs.CanonicalizeEscapes` | internal/ridegroup/protocol_v2.go:843-892 | the loop computes the canonical form, or fails on a malformed string |
| `Labels.ContentBytes` | internal/ridegroup/protocol.go:354-369 | the loop sums the canonical cost of the characters |
| `Labels.LabelSizes` | internal/ridegroup/protocol_v2.go:565-581 | the two costs of a label are the sizes of its bytes before and after canonicalisation |
| `Labels.LabelIsSettled` | internal/ridegroup/protocol_v2.go:843-892 | canonicalising what the encoder writes for a label gives the label's canonical bytes |
| `Labels.SizesAgreeIffNothingPlain` | internal/ridegroup/protocol_v2.go:565-581 | the two sizes of a label agree if and only if it has none of the five characters that the encoder escapes |
| `ControlLabels.FitControlLabels` | internal/ridegroup/protocol_v2.go:598-638 | an invalid control is refused before a label is touched; on a valid one fitting terminates and never fails, the control can be encoded, every label has its fair share of what it was, and no cut label could take its next character |
| `ControlText.BlankSizeIsSmall` | internal/ridegroup/protocol_v2.go:288-352 | a valid control without labels has at most 576 bytes, or 575 and 80 for each peer, and so never more than 975 |
| `ControlText.SizesAddUp` | internal/ridegroup/protocol_v2.go:62-81 | the encoder's text of a valid control is as long as without labels, plus the bytes of its labels |
| `ControlText.CanonicalText` | internal/ridegroup/protocol_v2.go:565-581 | canonicalising that text succeeds, gives every label its canonical bytes and leaves the rest alone |
| `ControlText.EscapedControlSize` | internal/ridegroup/protocol_v2.go:569-581 | the encoder's text has the escaped bytes of the labels on top of the rest |
| `ControlText.CanonicalControlSize` | internal/ridegroup/protocol_v2.go:569-581 | the canonical text has the labels' content on top of the rest |
| `ControlLabels.FitsIffEncodes` | internal/ridegroup/protocol_v2.go:565-581 | labels fit, as the packer sees it, if and only if the encoder accepts the control with them |
| `ControlLabels.CutIffEscapesOverflow` | internal/ridegroup/protocol_v2.go:598-638 | labels within their own limits, for which the canonical control has room, are cut if and only if the text with its escapes has more than 1024 bytes |
| `ControlLabels.OneLabelIsNeverCut` | internal/ridegroup/protocol_v2.go:598-638 | the label of a single peer is never cut if it is within its own limits |
| `ControlLabels.ReencodesIff` | internal/ridegroup/ipc_v2.go:34-48 | a lease control accepted in canonical form can be encoded again with what is left of its lease, and so is not dropped, if and only if its text with the escapes has at most 1024 bytes |
| `ControlLabels.SignsOverflow` | internal/ridegroup/protocol_v2.go:565-638 | a valid control with two labels of 32 `<`: 799 canonical bytes, 1119 with escapes, so its labels are cut by fitting and the control is dropped at the Redis boundary |
| `Labels.TryOne` | internal/ridegroup/protocol_v2.go:614-631 | one character more or one label given up, and less left to try |
| `Labels.Round` | internal/ridegroup/protocol_v2.go:611-636 | one round gives every label its turn, and stops only when nothing is left to try |
| `Labels.FitLabels` | internal/ridegroup/protocol_v2.go:598-638 | fitting fails exactly when the message is too long without labels; otherwise each label has its fair share: it is all there, or it was cut because its next character did not fit when its turn came, one character each |
| `Labels.FairShareIsUnique` | internal/ridegroup/protocol_v2.go:611-636 | there is only one way to share fairly, so this determines what fitting returns |
| `Labels.FairIsBest` | internal/ridegroup/protocol_v2.go:611-636 | what did not fit in its turn does not fit in the end |
| `Labels.GrowthNeverMakesRoom` | internal/ridegroup/protocol_v2.go:624-630 | a character that did not fit does not fit after another label has grown |
| `Labels.UnchangedIffFits` | internal/ridegroup/protocol_v2.go:598-638 | labels come back unchanged if and only if they fitted as they were |

## Left out

- The v1 adapter paths, which the service never starts, and the acknowledgement worker.
- Decoding and encoding of JSON messages, controls apart: handlers take messages that satisfy their validators. The event queue takes a codec of which it asks that parsing inverts encoding on the events that can be written, that what is read can be written again, and that its lines hold no newline; an event's data is its JSON text.
- Coordinates and motion estimation: a GPS message is its capture time and whether it holds a valid fix; the estimator is reduced to the rule that its samples advance in time.
- Parked-GPS smoothing before a snapshot is published, and clock synchronisation.
- Clock readings within one handler: a step reads the clock and the connection flag once, and `time.Now` and the injected clock are the same.
- Wrap-around of 64-bit counters (generations, epochs, orders): they are unbounded here.
- Fields that are written and never read by a decision: position session and epoch copies, hello times, statistics.
- Which statuses the adapter deletes from the worker's queue: the joint run may delete a pending status at any adapter step. A pending position is deleted exactly when the generation is bumped, as in the source.
- Shutdown of the adapter other than of its egress worker; parsing of configuration.
- The three channel operations of a full Redis queue (try, drop, try again) are one step.
- A replacement of the event file happens as a whole or not at all.
- EventQueue.EventLog.Buffer: follows the queue's run while appends succeed or fail as a whole; what a torn append does is stated by BufferEvent and TornLineSwallowsNext.
- DeltaProofs.FullStatesAreFrequent: counts the messages accepted for a connection. A message can be left in the send channel for the next socket, and be the first there, if it enters after the writer has drained the channel, or if the writer returned on a write error, which leaves the whole channel. What such messages do to the server is covered, since ServerReplicaAgrees holds for any state the server had before.
- LiveTransport.WrittenFramesAreCurrent: takes the adapter's answer as it comes; EndToEnd ties it to the adapter's state of that moment.
- Drops at the Redis boundary because a message encoded again is too long are not part of the adapter's runs, where messages have no labels: a run publishes at least what the source publishes, and when a control is dropped is stated by ControlLabels.ReencodesIff.
- The time between the last check of a live frame and its bytes on the socket.
- Locking itself: each handler is one step because the source runs it under the adapter's mutex.
- Command dispatch, keycards, navigation, updates, the telemetry monitor and the event detectors: routing and threshold tables, easier than what is modelled.
- EventQueue.RefusedAtMostMaxRetries: counts only flushes whose result was written back, because a flush that cannot rewrite the file does not count the retry either.
- DeltaProofs.ServerReplicaAgrees: compares flat forms, so an empty hash and an absent one are the same; the server's merge is taken from the protocol, as the server is not part of this model.
- ControlLabels.FitControlLabels: takes labels as sequences of characters; a label that is not UTF-8 makes a control invalid like any other wrong field.

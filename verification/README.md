# Models of an EV telemetry recorder

A verification project for the parts of the recorder that carry state machines, protocols and parsers.

**The subscription plan** (`Subscription*.dfy`, `Catalogue.dfy`). Rivian rejects a query of many
properties without saying which one is at fault. The plan subscribes them in groups of at most 16,
halves a rejected group until the bad name is alone, tells a bad name from a bad document by a canary,
and rolls the search back when it was the document. `SubscriptionModel` says what each operation does,
`SubscriptionPlan` is the class that does it, and the rest prove what runs of it come to, with a caller
that holds the probes it is handed.

**The way to the broker** (`Queue`, `Delivery`, `Publisher`, `Backoff`, `Connector*.dfy`). A byte-capped
queue in an array read from a head; a publisher with one frame in flight; the backoff; and the
lifecycle of the connector, where every `await` is a ticket that a later step redeems in any order, so
that lifecycles overtaken by a new credential answer late.

**Ingest** (`Accumulator*.dfy`, `Segmenter*.dfy`, `Metrics`, `Pipeline*.dfy`). Fragments merged into
samples, samples cut into drives and charges, sessions written to a store in transactions that may
throw at any statement, and a restart that replays the tape on a dry store and then settles every row it
found open. The lists, sets and maps a transaction may have to undo are objects, which a snapshot copies.

**Two total readers** (`Varint`, `Wire*.dfy`, `Clean*.dfy`). A protobuf reader without a schema, after
the sections "Base 128 Varints" and "Message Structure" of the Protocol Buffers encoding guide, and the
cleaning of strings that JSONB refuses, those of section 8.2 of RFC 8259.

Each file with mutable state is a class in the source's form, proved to do what a function on its value
says; the theorems are about those functions and their runs.

Five things the source is meant to keep fail, and for each the exact condition on which it is kept is
proved, with a run that fails:

- A refused session is left alone until the credential changes (`connector.ts:722-727`). It is exactly
  while the stamp it was refused with is remembered and no credential read of an overtaken lifecycle is
  pending: the handler at `connector.ts:513-517` clears the stamp without asking whose it is, before the
  refusal or after it (`ConnectorSleep.RefusedIsFinalIff`, `OvertakenReadIsReached`).
- A lifecycle uses the token it unsealed itself. It does exactly when no overtaken unsealing has succeeded
  since its own: the token is stored at `connector.ts:527`, before the check
  (`ConnectorToken.TokenIsOwnSinceIff`, `OvertakenUnsealIsUsed`).
- A restart does not cut a saved backoff short (`connector.ts:1348-1353`). Once read, it is waited
  out exactly when it is over, or no call is past the check of it and no timer or socket would lead to
  another socket sooner: where the first read fails, a later one can come when a call is already past
  that check (`ConnectorSaved.SavedWaitIsKeptIff`, `LateReadCutsShort`).
- A document fault drops nothing (`subscriptions.ts:48-50`). Judged with no reprobe meanwhile, it leaves the
  dropped list as it was exactly when no name refused alone outside the wave's own groups is left
  dropped. A wave remembers what the rejections of its groups dropped, so nothing takes back a name
  dropped alone in a group discovered since, or in a probe: a wave that takes 20 s to complete gives a
  probe of the group refused first time to be subscribed and refused before the canary is
  (`SubscriptionFault.DocumentFaultIsUndone`, `SubscriptionStray.DiscoveredFieldStaysDropped`,
  `ProbeStaysDropped`).
- An older observation never replaces a newer one (`pipeline.ts:273-283`). Of two by the car it does
  exactly when its own instant is not before the arrival of the newer, which takes a clock that was ahead
  (`AccumulatorRuns.OlderOverwritesIff`, `OlderAfterTwenty`). So order matters, but only between frames
  of the greatest instant that disagree (`OrderIsNothingIff`, `TogetherFromAhead`).

The pacing theorem is about sockets opened (`connector.ts:707-720`). The slow tasks
(`connector.ts:1120-1143`) are outside the model, so nothing is said of the calls they make.

## Model

| member | source | states |
|---|---|---|
| `Catalogue.GroupProperties` | packages/rivian/src/catalogue.ts:208-218 | refuses exactly the sizes outside 1..16; otherwise cuts the list into the groups `ChunksPartition` describes |
| `Catalogue.ChunksPartition` | packages/rivian/src/catalogue.ts:199-218 | the groups joined are the list, in order; every group but the last is full, none is empty, and no fewer would do |
| `SubscriptionRuns.NoPropertyIsLost` | apps/rivian/src/subscriptions.ts:349-407 | after `initial()` and any events whatever, in any order and at any times: every name given (known or saved as dropped) is still known, every known name is dropped or in a live or held state group of 1 to 16 names, and every fixed subscription is live, held or unavailable |
| `SubscriptionRuns.StepKeeps` | apps/rivian/src/subscriptions.ts:440-692 | every operation of the plan (start, rejection, end, activation, stray activation, renewal, discovery, reprobe, acceptance) keeps that invariant, with a caller that holds what it is handed and cancels what is withdrawn |
| `SubscriptionSafety.StartEstablishes` | apps/rivian/src/subscriptions.ts:349-371 | `initial()` establishes the invariant from any well-formed plan, whatever searches, waves and faults were under way |
| `SubscriptionSafety.RejectionKeeps` | apps/rivian/src/subscriptions.ts:440-473 | one rejection keeps it, whatever was rejected and whenever: what leaves the live map comes back in a probe, a retry, the dropped list or the unavailable map |
| `SubscriptionSafety.DocumentFaultKeeps` | apps/rivian/src/subscriptions.ts:523-539 | so does taking a whole wave back, though probes are withdrawn and dropped names restored |
| `SubscriptionSafety.SplitKeeps` | apps/rivian/src/subscriptions.ts:572-580 | so does halving a group |
| `SubscriptionSafety.RenewKeeps` | apps/rivian/src/subscriptions.ts:397-407 | so does renewing everything |
| `SubscriptionSafety.DiscoveryKeeps` | apps/rivian/src/subscriptions.ts:640-651 | so does discovery, whatever names it reports |
| `SubscriptionSafety.ReprobeKeeps` | apps/rivian/src/subscriptions.ts:677-692 | so does handing out what is due for a reprobe |
| `SubscriptionRuns.RunKnows` | apps/rivian/src/subscriptions.ts:239-240 | a name once known stays known over any run |
| `SubscriptionRuns.NewKnows` | apps/rivian/src/subscriptions.ts:294-320 | a new plan knows exactly the queryable names it is given, saved ones included, each once, and has dropped exactly the queryable saved ones |
| `SubscriptionRuns.NoIdComesBack` | apps/rivian/src/subscriptions.ts:694-699 | an id that was live and is not any more is never live again, through any run, restarts of the numbering included |
| `SubscriptionSafety.RejectedOk` | apps/rivian/src/subscriptions.ts:440-581 | a rejection leaves every map of the plan well formed, whatever the id and the instant |
| `SubscriptionSearch.SearchIsBounded` | apps/rivian/src/subscriptions.ts:549-581 | against a server that refuses exactly the groups with a bad name: along any run, refusals so far plus the sum of 2n - 1 over outstanding groups is constant |
| `SubscriptionSearch.RefusalCostsOne` | apps/rivian/src/subscriptions.ts:549-581 | each refusal lowers that sum by exactly one |
| `SubscriptionSearch.SettledIsRight` | apps/rivian/src/subscriptions.ts:28-35 | where the search has settled, exactly the bad names have been dropped and every other name is live |
| `SubscriptionSearch.NotSettledGoesOn` | apps/rivian/src/subscriptions.ts:411-419 | a search that has not settled can always go on, by a refusal or by subscribing a probe |
| `SubscriptionSearch.GoingOnIsProgress` | apps/rivian/src/subscriptions.ts:411-419 | and going on is progress towards settling, by a measure that cannot fall for ever |
| `SubscriptionSearch.NeverExhausted` | apps/rivian/src/subscriptions.ts:552-567 | with one good name in the group a search never ends in the group fault |
| `SubscriptionSearch.WholeSearch` | apps/rivian/src/subscriptions.ts:37-43 | from a plan that knows no bad names, N names cost at most 2N - ceil(N/16) refusals, and where the search settles it has found exactly the bad ones |
| `SubscriptionSearch.CatalogueCost` | apps/rivian/src/subscriptions.ts:40-43 | 135 names settle in at most 261 refusals |
| `SubscriptionSearch.OneBadName` | apps/rivian/src/subscriptions.ts:28-35 | one bad name in a group of n is found in at most ceil(log2 n) + 1 refusals, and never more than 5 |
| `SubscriptionSearch.CeilLog2Meaning` | apps/rivian/src/subscriptions.ts:34-35 | the logarithm in that bound is the least k with n <= 2^k |
| `SubscriptionFault.DocumentFaultIsUndone` | apps/rivian/src/subscriptions.ts:503-539 | over whole runs: any run, `initial()`, then any quiet events (rejections of the wave, of its probes and of discovered groups, discovery, renewals, ends, activations) and the canary's rejection in time: the original groups and the canary are to be retried; withdrawn are exactly the probes handed out for them, in order; restored exactly what they dropped; groups, canary and those probes are judged faulty, and no other probe is; only searches of other probes go on, untouched; and the dropped list, order and due times included, is as it began if and only if no name rejected alone outside the wave's own groups, in a discovered group or a probe, is left dropped |
| `SubscriptionFault.RollbackIsExact` | apps/rivian/src/subscriptions.ts:523-539 | the same from any world in that phase, probes rejected or not: what the wave's groups did is taken back, what other groups and probes did is left |
| `SubscriptionWave.QuietKeepsPhase` | apps/rivian/src/subscriptions.ts:455-473 | each quiet event, the rejection of a probe included, keeps the account: the dropped list less the wave's drops is the first one followed by what others have left dropped, only probes handed out belong to searches, and no group but the wave's own asks for a name that the wave drops |
| `SubscriptionStray.DiscoveredFieldStaysDropped` | apps/rivian/src/subscriptions.ts:568-569 | what the rollback misses: after any run, a restart with two groups and any new queryable name have a quiet run at whose end the document fault leaves that name dropped |
| `SubscriptionStray.OneFieldOfEighteen` | apps/rivian/src/subscriptions.ts:568-569 | in figures: seventeen names and `zz` |
| `SubscriptionStray.ProbeStaysDropped` | apps/rivian/src/subscriptions.ts:523-539 | nor does it reach a probe: after any run, a restart with two groups, the second of two names, has a quiet run without discovery at whose end the document fault leaves the first of the two dropped |
| `SubscriptionStray.OneProbeOfEighteen` | apps/rivian/src/subscriptions.ts:523-539 | in figures: eighteen good names, the seventeenth left dropped |
| `SubscriptionFault.AlwaysKnown` | apps/rivian/src/subscriptions.ts:294-320 | over any run the known names are different names, and everything dropped or ever asked for is known |
| `SubscriptionFault.FaultStays` | apps/rivian/src/subscriptions.ts:455-456 | a group judged faulty stays so through every event but `initial()` and an accepted document |
| `SubscriptionFault.FaultStaysThrough` | apps/rivian/src/subscriptions.ts:455-456 | and so through any run without either |
| `SubscriptionFault.RetriedWhole` | apps/rivian/src/subscriptions.ts:455-455 | over whole runs: after a document fault, and until an accepted document or a new `initial()`, every later rejection of a wave group, of one of its probes or of the canary hands it straight back and changes nothing else, whatever goes on between |
| `SubscriptionPlans.SubscriptionPlan.constructor` | apps/rivian/src/subscriptions.ts:294-320 | builds the plan `New` describes, with saved names due an hour on and spread over the next |
| `SubscriptionPlans.SubscriptionPlan.Initial` | apps/rivian/src/subscriptions.ts:349-371 | starts over, as the function `Initial` that `StartEstablishes` is about |
| `SubscriptionPlans.SubscriptionPlan.Rejected` | apps/rivian/src/subscriptions.ts:440-473 | the whole new state and answer are those of the function `Rejected` that the safety, search and rollback theorems are about |
| `SubscriptionPlans.SubscriptionPlan.DocumentFault` | apps/rivian/src/subscriptions.ts:524-539 | the loops over the wave's rejections take back what `DocumentFault` says |
| `SubscriptionPlans.SubscriptionPlan.DropInSearch` | apps/rivian/src/subscriptions.ts:553-570 | a name rejected alone in a search, and the group taken back when it was the last |
| `SubscriptionPlans.SubscriptionPlan.RenewAll` | apps/rivian/src/subscriptions.ts:397-407 | a fresh id for each live subscription, in order |
| `SubscriptionPlans.SubscriptionPlan.Ended` | apps/rivian/src/subscriptions.ts:624-629 | a live id is given up and its subscription handed back; any other changes nothing |
| `SubscriptionPlans.SubscriptionPlan.AddProperties` | apps/rivian/src/subscriptions.ts:640-651 | only names that are new and queryable are added, each once |
| `SubscriptionPlans.SubscriptionPlan.DueForReprobe` | apps/rivian/src/subscriptions.ts:677-692 | what is due leaves the dropped and unavailable maps and is handed out |
| `SubscriptionPlans.SubscriptionPlan.DocumentAccepted` | apps/rivian/src/subscriptions.ts:481-485 | the wave, the canary and the faulty groups are forgotten |
| `Queue.OverflowIsFewest` | apps/rivian/src/queue.ts:83-93 | what `push` drops is the fewest oldest frames that leave the rest within the cap or the newest alone, and is the only such number |
| `Queue.PublishQueue.constructor` | apps/rivian/src/queue.ts:62-62 | an empty queue |
| `Queue.PublishQueue.Length` | apps/rivian/src/queue.ts:65-67 | the array less its dead prefix is the number waiting |
| `Queue.PublishQueue.Push` | apps/rivian/src/queue.ts:83-93 | the queue becomes the suffix of the old queue and the new frame that the fewest drops leave; the count is exact. As after every method, `bytes` is the exact sum, the dead prefix is under 1024 or under half the array, and all compaction so far has copied no more than was taken |
| `Queue.PublishQueue.Shift` | apps/rivian/src/queue.ts:96-98 | the oldest frame, first in first out |
| `Queue.PublishQueue.Unshift` | apps/rivian/src/queue.ts:113-121 | back at the head, nothing dropped |
| `Queue.PublishQueue.Take` | apps/rivian/src/queue.ts:123-139 | the oldest frame, its slot cleared; one more take, and compaction stays paid for |
| `Delivery.DeliveryIsSound` | apps/rivian/src/publisher.ts:126-150 | over any interleaving of pushes, answers, duplicate answers, retries, pumps, drains and an end: every frame pushed is in exactly one of acknowledged, dropped and owed; calls go in push order and no frame is called for again once acknowledged, so what is acknowledged is an in-order subsequence; never both in flight and retrying; before the end a queue that is not empty has one of them |
| `Delivery.StepKeeps` | apps/rivian/src/publisher.ts:126-280 | every step keeps the books behind it |
| `Delivery.AllGetsThrough` | apps/rivian/src/publisher.ts:255-280 | from any reachable state before the end, a broker that acknowledges and a retry timer that fires get everything owed through, and nothing more is dropped |
| `Delivery.DuplicateAnswersAreIgnored` | apps/rivian/src/publisher.ts:132-143 | a second answer to a call, of either kind, changes nothing |
| `Delivery.MemoryIsBounded` | apps/rivian/src/queue.ts:100-121 | the queue is within its cap but for a frame put back at its head, or one alone |
| `Delivery.DrainsAreToldTheTruth` | apps/rivian/src/publisher.ts:163-181 | whoever drains is told what is owed when it is told; nothing, unless it timed out |
| `Delivery.EmptyIsReported` | apps/rivian/src/publisher.ts:255-263 | the queue is reported empty exactly when the last frame owed has just been acknowledged |
| `Delivery.NothingAfterTheEnd` | apps/rivian/src/publisher.ts:201-212 | after the end nothing is published, through any run |
| `Publishers.Publisher.constructor` | apps/rivian/src/publisher.ts:104-108 | an idle publisher on an empty queue |
| `Publishers.Publisher.Pump` | apps/rivian/src/publisher.ts:126-150 | publishes the head unless ending, in flight or waiting to retry |
| `Publishers.Publisher.Enqueue` | apps/rivian/src/connector.ts:830-839 | a frame queued and pumped; the drops it reports are those recorded |
| `Publishers.Publisher.OnAnswer` | apps/rivian/src/publisher.ts:137-143 | the first answer settles a call, any later one nothing |
| `Publishers.Publisher.OnAcknowledged` | apps/rivian/src/publisher.ts:255-263 | the next frame, or everyone who drains told that nothing is owed |
| `Publishers.Publisher.OnFailed` | apps/rivian/src/publisher.ts:265-280 | the frame back at the head, and a retry unless ending |
| `Publishers.Publisher.OnRetry` | apps/rivian/src/publisher.ts:274-277 | the wait is over and the pump goes on |
| `Publishers.Publisher.Drain` | apps/rivian/src/publisher.ts:163-181 | answered at once if nothing is owed; otherwise waits, and pumps |
| `Publishers.Publisher.OnDrainTimeout` | apps/rivian/src/publisher.ts:172-175 | what is still owed |
| `Publishers.Publisher.End` | apps/rivian/src/publisher.ts:201-212 | no more publishing, no retry; forced if a publish is out |
| `Backoffs.WaitsNeverShrink` | apps/rivian/src/backoff.ts:37-54 | successive waits before a reset never get shorter, whatever the jitter source draws |
| `Backoffs.WaitsAreBounded` | apps/rivian/src/backoff.ts:41-47 | over any run of waits and resets, each is from 30 s to 900 s |
| `Backoffs.WaitReachesTheCap` | apps/rivian/src/backoff.ts:8-10 | from the sixth wait on, every wait is the cap |
| `Backoffs.Backoff.Next` | apps/rivian/src/backoff.ts:48-54 | the wait of this attempt, within bounds; one more failure |
| `Backoffs.Backoff.Reset` | apps/rivian/src/backoff.ts:62-64 | the failures are forgotten |
| `ConnectorPacing.NothingReconnectsFaster` | apps/rivian/src/connector.ts:707-720 | over any run, any `openSocket` after a failure is no sooner than that failure's wait, which is 30 s at least (less only what timers fire early): through any credential changes, overtaken lifecycles and late answers |
| `ConnectorPacing.RenewalsAreApart` | apps/rivian/src/connector.ts:846-907 | any two renewals of everything are 60 s apart at least, though silence and overflow ask independently, across sockets |
| `ConnectorPacing.RenewalsAreNotLost` | apps/rivian/src/connector.ts:814-865 | a renewal asked for is held only while a socket is up, and once the queue has emptied a timer is set for it |
| `ConnectorPacing.NeverStuck` | apps/rivian/src/connector.ts:485-682 | over any run from the start, a connector that waits neither for a new credential nor for the next poll has an await, a timer or a socket that will carry it on, one and only one; it says subscribed exactly while a socket is up |
| `ConnectorPacing.StaleAnswer` | apps/rivian/src/connector.ts:506-544 | all an answer for a lifecycle that is over can still do: the saved status, the stamp forgotten, the token stored |
| `ConnectorPacing.StoppedIsOver` | apps/rivian/src/connector.ts:400-425 | once stopped, no socket is opened and nothing renewed, through any run |
| `ConnectorRuns.StepInv` | apps/rivian/src/connector.ts:465-930 | every event keeps one thread of control, the pacing and the pending renewal |
| `ConnectorRuns.BackOffInv` | apps/rivian/src/connector.ts:712-720 | a failure met by the one thread of control leaves one timer, due when every wait so far is over |
| `ConnectorRuns.AcquireInv` | apps/rivian/src/connector.ts:557-580 | an acquisition waits for what is still owed, or goes on at once when nothing is |
| `ConnectorSleep.RefusedIsFinalIff` | apps/rivian/src/connector.ts:510-517 | in every reachable state that is refused and not stopped: it stays refused through every run of polls that find the credential of a given stamp if and only if that is the stamp it remembers and no credential read of a lifecycle that is over is pending |
| `ConnectorSleep.StaysRefused` | apps/rivian/src/connector.ts:722-731 | in that case nothing is opened or renewed either |
| `ConnectorSleep.ForgottenWakes` | apps/rivian/src/connector.ts:471-483 | with any other stamp remembered, or none, the next poll starts the refused credential again |
| `ConnectorSleep.LateReadWakes` | apps/rivian/src/connector.ts:510-517 | with a late read pending, its failure and the next poll do |
| `ConnectorSleep.OvertakenReadIsReached` | apps/rivian/src/connector.ts:506-520 | two timely runs from the start that get there: one where the overtaken read is still pending at the refusal, and one where it failed before and the stamp is forgotten |
| `ConnectorToken.TokenIsOwnIff` | apps/rivian/src/connector.ts:526-543 | a step leaves the token the running lifecycle's own if and only if it is not an unsealing that succeeds for a lifecycle that is over |
| `ConnectorToken.TokenStaysOwn` | apps/rivian/src/connector.ts:526-543 | over any run from the start without such a step: whenever a call to Rivian is in progress or a timer or socket of the lifecycle is up, there is a token and it is the one this lifecycle unsealed |
| `ConnectorToken.RunKeepsToken` | apps/rivian/src/connector.ts:526-580 | and over any run at all there is some token by then |
| `ConnectorToken.TokenIsOwnSinceIff` | apps/rivian/src/connector.ts:526-543 | over any run from the start: whatever of the lifecycle is past its unsealing has that lifecycle's own token if and only if no unsealing of another lifecycle has succeeded since its own did |
| `ConnectorToken.OvertakenUnsealIsUsed` | apps/rivian/src/connector.ts:526-543 | a run from the start in which the second sign-in opens its socket with the first one's token |
| `ConnectorSaved.SavedWaitIsKeptIff` | apps/rivian/src/connector.ts:1348-1356 | in every reachable state where a saved backoff is owed: every later socket, in every run, waits for it if and only if it is over already, or no call is past the check at `:558`, no timer is due sooner, and no socket up or coming could end and be opened again within the shortest wait |
| `ConnectorSaved.RestartWaits` | apps/rivian/src/connector.ts:557-580 | so a restart whose first read of the status succeeds opens no socket before the saved backoff is over |
| `ConnectorSaved.LateReadCutsShort` | apps/rivian/src/connector.ts:1328-1356 | and a run from the start, its first read failing and a later one coming while the session is asked for, that opens a socket 15 minutes too soon |
| `Connectors.Connector.constructor` | apps/rivian/src/connector.ts:363-370 | a new connector, whose invariant holds |
| `Connectors.Connector.OnEvent` | apps/rivian/src/connector.ts:385-930 | one event at its time leaves the object as `Step` says; and as long as events are timely it keeps its invariant: every socket opened waited out every backoff, renewals were a minute apart, one thread of control and no more, and one that will carry it on |
| `Connectors.StepIsSound` | apps/rivian/src/connector.ts:465-930 | the invariant of the object, on its value |
| `Segmenter.Advance` | packages/core/src/engine/segmenter.ts:70-172 | the code with its local `open` and events list is the function `Step` the theorems are about |
| `SegmenterRuns.SessionsMakeSense` | packages/core/src/engine/segmenter.ts:70-185 | over any samples: starts and ends alternate with matching kinds, points are time-ordered within their session, each session ends where it stopped and no later than the next begins, and the open one is the state's |
| `SegmenterRuns.SessionsHaveShape` | packages/core/src/engine/segmenter.ts:126-157 | a drive's points are at most `sampleGapResetMs` apart and no stretch free of moving and in-gear points lasts `driveEndParkedMs` from its first stationary one; a charge's points are less than `sampleGapResetMs + chargeResumeWindowMs` apart |
| `SegmenterRuns.ParkedStretch` | packages/core/src/engine/segmenter.ts:132-156 | the parked stretch of one list of points |
| `SegmenterRuns.StepKeeps` | packages/core/src/engine/segmenter.ts:70-172 | one sample keeps the ledger of sessions sound |
| `SegmenterRuns.LateSamplesAreIgnored` | packages/core/src/engine/segmenter.ts:75-80 | a run with out-of-order samples is the run without them |
| `Metrics.FirstOf` | packages/core/src/engine/metrics.ts:120-123 | the loop finds the first reading |
| `Metrics.LastOf` | packages/core/src/engine/metrics.ts:125-133 | the loop finds the last reading |
| `Metrics.FirstReadingIs` | packages/core/src/engine/metrics.ts:120-123 | none before it has a reading; none at all if there is none |
| `Metrics.LastReadingIs` | packages/core/src/engine/metrics.ts:125-133 | none after it has a reading; none at all if there is none |
| `Metrics.ChargeEnergyIsAdded` | packages/core/src/engine/metrics.ts:44-54 | for any readings: a charge has an energy exactly when some point has a counter; it is negative exactly when the last counter is below both the first and zero; a counter that did not fall adds up |
| `AccumulatorRuns.LastObservationWins` | apps/ingest/src/pipeline.ts:262-314 | car-timed frames applied in any order, any number of times: a slot holds the value and instant of a frame of greatest instant, the car's clamped to the arrival, and holds something exactly when some frame had it; whatever the clocks, equal instants with different values included |
| `AccumulatorRuns.HoldsBest` | apps/ingest/src/pipeline.ts:262-314 | which one of them is found independently, over the frames alone: of equal instants, the last applied |
| `AccumulatorRuns.OrderIsNothingIff` | apps/ingest/src/pipeline.ts:273-283 | every order of the frames leaves the slot the same if and only if the frames of greatest instant agree on it |
| `AccumulatorRuns.DeliveriesAgree` | apps/ingest/src/pipeline.ts:273-283 | and then so does every delivery of the same frames, however often each is repeated |
| `AccumulatorRuns.TogetherFromAhead` | apps/ingest/src/pipeline.ts:262-283 | two frames in figures, from a clock ahead and arriving together, of which the one applied last is held |
| `AccumulatorRuns.ReplaysAreSilentIff` | apps/ingest/src/pipeline.ts:273-283 | applying any of the frames again returns false and changes nothing, for all of them, if and only if on every slot the frames of greatest instant agree |
| `AccumulatorRuns.SilentIff` | apps/ingest/src/pipeline.ts:273-319 | a car-timed frame changes nothing and returns false exactly when each of its slots is older than what is held, or is the same observation of the same value |
| `AccumulatorRuns.LastIsByTheCar` | apps/ingest/src/pipeline.ts:273-283 | while no car's clock is ahead of the arrival, that is the value the car observed last |
| `AccumulatorRuns.OlderOverwritesIff` | apps/ingest/src/pipeline.ts:262-283 | from any accumulator holding the newer of two observations of different values: the older one by the car overwrites it if and only if its own instant, clamped to its arrival, is not before the arrival of the newer; otherwise the newer stays |
| `AccumulatorRuns.SilentChangesNothing` | apps/ingest/src/pipeline.ts:316-319 | an `apply` that returns false changes no held value, `newestAt` or `pendingSince` |
| `AccumulatorRuns.OlderAfterTwenty` | apps/ingest/src/pipeline.ts:273-283 | two pairs of frames in figures on which it does: observed after the newer one arrived, and in the instant it arrived |
| `AccumulatorRuns.RepetitionIsNotNews` | apps/ingest/src/pipeline.ts:284-313 | any number of unchanged arrival-stamped re-sends within the window, with takes between, schedules no sample |
| `AccumulatorRuns.RepeatsAfterATake` | apps/ingest/src/pipeline.ts:284-313 | so after any run whose arrivals do not go back: a first frame of the values, no sooner than the last arrival, a sample, then the re-sends |
| `AccumulatorRuns.ChargeWordsExpire` | apps/ingest/src/pipeline.ts:284-334 | over any run, a sample taken a full window after a charge slot last landed and after the last landed sign of charging carries no charge word |
| `AccumulatorRuns.RunKeepsEarned` | apps/ingest/src/pipeline.ts:302-334 | in every reachable state the carry clock of a charge-state slot is at most the later of its last landing and the last landed sign of charging |
| `AccumulatorRuns.BurstsAreShort` | apps/ingest/src/pipeline.ts:358-394 | with arrivals that do not go back, no sample spans 30 s, every pending burst is under 30 s, and the instants of the samples emitted by `handle` strictly increase |
| `FieldAccumulators.FieldAccumulator.Apply` | apps/ingest/src/pipeline.ts:251-338 | the maps rebuilt slot by slot, in whatever order the slots come, are those of the function `Apply` |
| `FieldAccumulators.FieldAccumulator.Sort` | apps/ingest/src/pipeline.ts:262-315 | what lands, what is refreshed and what is only heard |
| `FieldAccumulators.FieldAccumulator.ShowsChargingNow` | apps/ingest/src/pipeline.ts:344-355 | positive power or a counter above where it stood |
| `FieldAccumulators.FieldAccumulator.RenewChargeWords` | apps/ingest/src/pipeline.ts:325-334 | the clocks of held charge words move, their observations do not |
| `FieldAccumulators.FieldAccumulator.Take` | apps/ingest/src/pipeline.ts:380-394 | values past their window are dropped, the burst is over |
| `FieldAccumulators.FieldAccumulator.Clone` | apps/ingest/src/pipeline.ts:397-404 | a new object, in two new maps, with the same contents: no change to either can reach the other |
| `PipelineSessions.RowsMakeSense` | apps/ingest/src/pipeline.ts:720-752 | over any run of work on a store with no open row: `openId` is set exactly when the segmenter has a session open and is the only open row, of its kind and start; rows from before are untouched; every row since is closed with its own start in its summary, ends no earlier, and is priced if a charge; and the rows since are those of the sessions that the segmenter alone makes of the samples that the debounce alone makes of the work |
| `PipelineResumeProofs.RowsMakeSenseAfterResume` | apps/ingest/src/pipeline.ts:584-752 | the same after a `resume` on any tape and any rows found open, one carried on included, followed by any run of work: the sessions are those of the tape and then of the work; the rows settled once and for all by the resume are untouched |
| `PipelineResumeProofs.ResumedIsFaithful` | apps/ingest/src/pipeline.ts:609-651 | what a resume leaves is where that invariant can go on from |
| `PipelineSessions.StoredSessions` | apps/ingest/src/pipeline.ts:720-743 | the rows are, one for one and point for point, the sessions that running the segmenter over the samples of the work gives, none missing and none made up, those that went nowhere deleted |
| `PipelineSessions.SummaryTimes` | packages/core/src/engine/metrics.ts:28-34 | the summary starts and ends at the instants of the start and end events |
| `Pipelines.Pipeline.Work` | apps/ingest/src/pipeline.ts:690-708 | a run of work on one pipeline whose store may throw at any statement or commit: memory and store end as the fold of exactly the work that was taken |
| `Pipelines.Pipeline.Deliver` | apps/ingest/src/pipeline.ts:695-702 | a message sent again until it is taken, or given up on, is taken once or not at all |
| `Pipelines.Pipeline.Serve` | apps/ingest/src/pipeline.ts:690-743 | so, whatever throws, the rows make sense and are those of the sessions of exactly the work that was taken |
| `Pipelines.Pipeline.Try` | apps/ingest/src/pipeline.ts:691-704 | one piece of work: done as the function says, or memory and store as before |
| `PipelineReplay.ReplayIsTheLiveRun` | apps/ingest/src/pipeline.ts:584-605 | for arrivals in order, with any due flushes between: the live run and the replay of its tape, each with what is pending emitted at the end, leave the same segmenter state, accumulator and open points and have made the same samples |
| `PipelineReplay.ResumeKnowsWhatStopped` | apps/ingest/src/pipeline.ts:589-605 | so the replay of a resume ends knowing what the worker that stopped knew |
| `PipelineReplay.SampleTimesIncrease` | apps/ingest/src/pipeline.ts:482-513 | over a tape in order, the instants of the samples that `handle` emits strictly increase |
| `PipelineResume.NearestIs` | apps/ingest/src/pipeline.ts:1040-1051 | of the replayed sessions a row could stand for, none is nearer than the one chosen; none is chosen only if there is none |
| `PipelineResume.ReplayStaysDry` | apps/ingest/src/pipeline.ts:589-602 | a replay writes nothing |
| `PipelineResumeProofs.ReplayIsFaithful` | apps/ingest/src/pipeline.ts:584-605 | what the replay remembers of sessions is what the segmenter alone makes of the samples that the debounce alone makes of the tape, the open one included |
| `PipelineResumeProofs.ByStartKeeps` | apps/ingest/src/pipeline.ts:623-623 | the rows are the same rows, oldest first |
| `PipelineResumeProofs.ReconcileSettles` | apps/ingest/src/pipeline.ts:609-651 | every row that was open is in exactly one of resumed, closed, discarded and abandoned, and is so in the store; no other row changes; the only open row is `openId`, which exists exactly when the replay ended inside a session, with the replay's start and points; `openSession` is called exactly when no row is carried on |
| `PipelineResumeProofs.RowOpened` | apps/ingest/src/pipeline.ts:639-647 | and then makes a new row: it can never adopt an old one |
| `PipelineResumeProofs.RowCarriedOn` | apps/ingest/src/pipeline.ts:626-647 | the row carried on is reset to the replay's start and points |
| `PipelineResumeProofs.NothingRuns` | apps/ingest/src/pipeline.ts:648-650 | with no session running nothing is left open |
| `PipelineResumeProofs.ResumeSettles` | apps/ingest/src/pipeline.ts:584-651 | the same for a whole `resume` of any tape, from a cold start, with the sessions of that tape |
| `PipelineRestart.RestartCarriesOn` | apps/ingest/src/pipeline.ts:563-605 | for work in order on a store with no open row, then the shutdown flush: a new worker that resumes on the tape over the row left open, if any, has the state, accumulator, points and `openId` of the one that stopped, reports that row as carried on, and has changed no row |
| `Pipelines.Pipeline.Handle` | apps/ingest/src/pipeline.ts:482-513 | the work of `HandleRaw`, or a throw that leaves memory and store as they were |
| `Pipelines.Pipeline.Flush` | apps/ingest/src/pipeline.ts:532-545 | what is due, or with force what is pending; or a throw that leaves no trace |
| `Pipelines.Pipeline.HandleSample` | apps/ingest/src/pipeline.ts:548-550 | one sample applied, or no trace |
| `Pipelines.Pipeline.Attempt` | apps/ingest/src/pipeline.ts:691-704 | done, or memory and store as they were, though half of it may have run |
| `Pipelines.Pipeline.TakeSnapshot` | apps/ingest/src/pipeline.ts:878-889 | a copy that shares no list, set, map or accumulator with the pipeline, and recalls its whole memory |
| `Pipelines.Pipeline.Restore` | apps/ingest/src/pipeline.ts:891-898 | every field is the snapshot's |
| `Pipelines.Pipeline.Undo` | apps/ingest/src/pipeline.ts:700-702 | memory and store as they were when the transaction began |
| `Pipelines.Pipeline.ApplySample` | apps/ingest/src/pipeline.ts:710-752 | sample, pack, segmenter, rows and counts as `ApplySample` says, unless a statement throws |
| `Pipelines.Pipeline.OnEvents` | apps/ingest/src/pipeline.ts:720-743 | the events of a step in order; the counts are of what was opened and closed |
| `Pipelines.Pipeline.EndSession` | apps/ingest/src/pipeline.ts:728-742 | the ending sample joins the points if later, then the session is finished |
| `Pipelines.Pipeline.Finish` | apps/ingest/src/pipeline.ts:755-777 | closed or discarded, and a kept charge priced |
| `Pipelines.Pipeline.MeasurePack` | apps/ingest/src/pipeline.ts:854-869 | at most once a day, and only a positive reading |
| `Pipelines.Pipeline.EnsureMonth` | apps/ingest/src/pipeline.ts:871-876 | once a month |
| `Pipelines.Pipeline.Replay` | apps/ingest/src/pipeline.ts:589-605 | the live code on a dry store, its memos forgotten |
| `Pipelines.Pipeline.SettleRows` | apps/ingest/src/pipeline.ts:624-637 | each open row settled by its match, oldest first, and listed under its verdict |
| `Pipelines.Pipeline.CarryOn` | apps/ingest/src/pipeline.ts:639-648 | the running session gets the row carried on, or a new one |
| `Pipelines.Pipeline.Reconcile` | apps/ingest/src/pipeline.ts:606-651 | as one transaction: done, or no trace |
| `Pipelines.Pipeline.Resume` | apps/ingest/src/pipeline.ts:584-607 | done, or the live store untouched |
| `Pipelines.Pipeline.constructor` | apps/ingest/src/pipeline.ts:463-468 | cold, with no accumulator yet |
| `Pipelines.Store.MatchFor` | apps/ingest/src/pipeline.ts:1040-1051 | the loop finds the nearest session the row could stand for, the first of equals |
| `Varint.ReadVarintAt` | packages/rivian/src/protobuf.ts:82-92 | the loop that shifts seven bits at a time reads the value of `ReadVarint`, looking at no more bytes than counted |
| `Varint.VarintFits` | packages/rivian/src/protobuf.ts:77-87 | no value of 2^64 or more is ever read |
| `Varint.ReadsWritten` | packages/rivian/src/protobuf.ts:82-92 | reading inverts minimal writing, whatever follows |
| `Varint.WrittenIsShortest` | packages/rivian/src/protobuf.ts:82-92 | what was read is written in no more bytes, and in the same bytes if in as many |
| `WireProofs.FieldReads` | packages/rivian/src/protobuf.ts:126-171 | cutting a field off inverts writing it, whatever follows |
| `WireProofs.ReencodeNormalises` | packages/rivian/src/protobuf.ts:124-174 | writing a decoded tree back and decoding it at the same depth gives the same tree, in no more bytes; the bytes are the original ones if and only if every varint in them was minimal |
| `WireReader.DecodeWire` | packages/rivian/src/protobuf.ts:124-174 | the loop over nodes is the recursive `Decode`, and costs exactly `Cost` |
| `WireReader.ReadLenOf` | packages/rivian/src/protobuf.ts:98-110 | nested fields, failing that text, failing that bytes; at the depth of its container |
| `WireReader.CutFieldAt` | packages/rivian/src/protobuf.ts:127-170 | tag and value at a position, or not a message |
| `WireReader.CutValueAt` | packages/rivian/src/protobuf.ts:136-171 | the value of each wire type |
| `WireReader.NodeFor` | packages/rivian/src/protobuf.ts:136-167 | the node pushed for a field |
| `WireReader.CostIsBounded` | packages/rivian/src/protobuf.ts:38-40 | all bytes looked at over every nested attempt, failed ones included, are at most (16 - depth) times the length; (16 - depth)(1 + w) if each payload is also scanned w times as text and hex |
| `WireReader.TopLevelCost` | packages/rivian/src/protobuf.ts:38-40 | at the top: 16 times, and 48 with both scans |
| `CleanText.CleanIsByToken` | packages/rivian/src/envelope.ts:100-107 | the two replacements in turn are one rule on characters: a pair stays, a lone surrogate becomes U+FFFD, a NUL goes, the rest stays |
| `CleanText.CleanSaysTheSame` | packages/rivian/src/envelope.ts:102-107 | no pair is made or broken: the cleaned string reads as the string's own characters, cleaned |
| `CleanText.CleanIsStorable` | packages/rivian/src/envelope.ts:112-122 | no NUL and no unpaired surrogate is left |
| `CleanText.UnchangedIff` | packages/rivian/src/envelope.ts:120-122 | a string is left alone exactly when it has neither |
| `CleanText.CleanTwice` | packages/rivian/src/envelope.ts:117-118 | cleaning twice is cleaning once |
| `CleanText.OrdersAgreeIff` | packages/rivian/src/envelope.ts:103-105 | doing the two replacements the other way round gives something else exactly on the strings where only NULs part a high surrogate from a low one |
| `CleanText.OtherOrderSplices` | packages/rivian/src/envelope.ts:103-105 | there it makes a pair that was never sent |
| `CleanText.WrittenTokens` | packages/rivian/src/envelope.ts:95-100 | reading UTF-16 as characters loses nothing |
| `CleanJson.CleanedIsStorable` | packages/rivian/src/envelope.ts:109-122 | no string or key at any depth keeps a NUL or an unpaired surrogate |
| `CleanJson.StorableIsKept` | packages/rivian/src/envelope.ts:120-126 | a value with nothing to clean is left as it is, keys in order |
| `CleanJson.CleanValueTwice` | packages/rivian/src/envelope.ts:117-118 | cleaning twice is cleaning once, colliding keys included |
| `CleanStrings.CleanStrings` | packages/rivian/src/envelope.ts:134-182 | the explicit stack terminates on any finite graph of containers, cycles included, makes only new objects, changes nothing it was given, and reads to every depth as the recursive clean of the input |
| `CleanStrings.CopyAll` | packages/rivian/src/envelope.ts:163-181 | every container reached has one filled copy |
| `CleanStrings.CopyReadsClean` | packages/rivian/src/envelope.ts:134-182 | a graph of filled copies reads, to any depth, as the recursive clean |
| `CleanStrings.CopyOf` | packages/rivian/src/envelope.ts:151-161 | one copy for each container, made and queued the first time |
| `CleanStrings.FillNext` | packages/rivian/src/envelope.ts:164-180 | one container filled, and less left to do |
| `CleanStrings.FillArray` | packages/rivian/src/envelope.ts:166-167 | the items in order |
| `CleanStrings.FillObject` | packages/rivian/src/envelope.ts:168-178 | the members under their cleaned keys, a later one winning |

## Left out

- Postgres, MQTT, WebSocket, HTTP, OAuth, JOSE and Prometheus: the store is a value with rows, the broker, the sockets and the clock are steps that come in any order.
- The text of the GraphQL documents and stream names: a subscription is its key and its names. `isQueryable` is the GraphQL name pattern.
- String keys and ids (`state:3`, `state:3#41`) are datatypes, equal exactly when the strings are.
- The lineage objects that probes share are entries of a list they point into; the aliasing is kept, the heap is not used for it.
- One vehicle: its accumulator and its id are not maps by vehicle, and its map of measured days has one entry.
- Rounding: readings, summaries and waits are reals, not rounded and not doubles. `2 ** attempt` does not overflow.
- `Summarise` covers the start, end, distance, energy and reading fields; efficiency, average speed, maximum power and places are not modelled, nor is `deriveIdles`.
- The battery estimate, the rated range at full and what a charge costs: a kept charge is recorded as priced, whatever the price.
- The promise chain that lets one unit of work run at a time (pipeline.ts:684-688): units of work are steps one after another. `resume` under live traffic, which the source forbids, is not modelled.
- A commit that fails after it took effect: a throw means not committed.
- The order in which an accumulator's map gives its slots: every order is covered, so nothing depends on it.
- `PipelineResumeProofs.ReconcileSettles`: the rows given are those open in the store, each once, and at most one of each kind, as the database's index and `findOpenSessions` see to.
- `SubscriptionSearch.SearchIsBounded`: the server accepts the canary, answers within the lineage window, and finds no discovery or reprobe in between, as the promise is stated; a group of only bad names is not searched to the end.
- `SubscriptionFault.DocumentFaultIsUndone`: while the wave is judged nothing is reprobed, no second copy of a wave group comes live, and no wave group is rejected past the window; rejections of probes and of discovered groups are admitted.
- `ConnectorPacing.NothingReconnectsFaster`: a timer may fire before it is due by up to a given amount, no more than 30 s; the clock does not go back.
- The connector's logging, status row, dropped list carried across failed reads, schema discovery, slow HTTP tasks, session retry in `#authed` (its outcome is a step), and the set of live ids.
- A frame for an id that is not live changes nothing (connector.ts:783) and is not a step.
- Timers the connector keeps by key and cancels only at their latest: the plan is proved for a caller that may activate any group ever handed out since `initial()`.
- `Delivery.DeliveryIsSound`: the publisher's callbacks and the grace timer of `end` are not modelled, and a push and its pump are one step.
- `Publishers.Publisher.constructor`: the queue it is given is empty, as main.ts makes it.
- A state group of no names: the source cannot build one, and no step of the model hands one out.
- Decimal and hexadecimal spelling of wire values: a node holds the number or the bytes.
- JavaScript's own order for object keys that look like integers: keys stay in the order they were first set.
- The field catalogues, decoders, pricing, configuration, telemetry comparison and the web app: tables, short case analysis, or a user interface.

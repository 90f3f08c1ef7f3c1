# A verified model of the alert, broker, chat and reader-profile core

This project models the stateful heart of the application in Dafny and proves what it keeps over whole runs.
Operations that update state in the source are methods on mutable state, each proved against a function of the
old state; what the source promises is proved about those functions, for every input and every run.

| Module | Models |
|---|---|
| `AlertEvaluation`, `AlertReadings`, `AlertPass`, `AlertDelivery` | the crossing/re-arm machine, the bulk reading, the transactional pass, and passes, drains and mailbox as one step system |
| `BrokerModel`, `BrokerInvariant`, `BrokerProjection`, `BrokerLifecycle`, `BrokerSync`, `BrokerUnion` | the connection, account and holdings tables, every operation that writes a connection, a bound account or a broker row, the snapshot overwrite, and the read that must survive a sever |
| `BrokerFootprint`, `BrokerConduct` | which operations change which columns of those tables, and what follows over runs: isolation between users, consent on record, true refusals, distinct names |
| `FifoLedger`, `BrokerRescue` | the first-in-first-out lot register, and the rescue that turns a linked account's book into lots of a manual one |
| `UniverseResolver`, `SyncFlow`, `ConcurrentAdmission` | the four-pass identity resolver, a whole sync with the resolver in its place, and any number of resolvers racing on the unique ISIN |
| `ChatTurn` | the tool loop with its raised budget, the spend accounting, the transcript and the exits |
| `ReaderProfile`, `ProfileWatermark` | the folding of one conversation into a profile, and which turns ever reach it |
| `EventDescription`, `Money` | the attribution of amounts, and the five-band printer |

Abstracted as parameters: the model provider, the quota, tool execution, text scans, the broker's feed and its
liveness probe, the ISIN classifier, generated ids, clocks, regular-expression matches, and which e-mail attempts
succeed. A database query that returns rows in no stated order returns them in an arbitrary one, or in stored
order where only the read's own order depends on it.

## Where the code and its comments part ways

The model follows the code.

- The register comment (src/chat/config.ts:121-123) speaks of two consecutive disagreeing sessions. The counter is a
  majority vote: a register stored with count `c` gives way after exactly `c`, so one disagreement can flip it
  (`ReaderProfile.FlipTakesExactlyTheCount`).
- The gap comment (src/chat/config.ts:115-116) speaks of ten distillations since the last sighting. The code subtracts
  the number of sightings from the number of distillations, so a gap survives silent conversations exactly while that
  difference is at most ten; the documented rule holds if and only if every conversation so far has shown the gap
  (`ReaderProfile.SilenceIsSurvivedExactly`, `ReaderProfile.DocumentedWindowExactlyWhen`,
  `ReaderProfile.NewGapLastsExactly`).
- The lifecycle comment (src/brokers/lifecycle.ts:207-214) says the connection and its account cannot drift apart.
  Linking an account to a severed connection, and a crash between the two writes of a reconnect, both do it; those are
  the only two ways (`BrokerProjection.ProjectionExactly`).
- The sync comment (src/brokers/lifecycle.ts:641-650) says `unmapped` means one thing, no ISIN. It also holds every
  equity outside the covered universe (`UniverseResolver.UnmappedExactly`).
- The resolver's second run over the same snapshot inserts exactly the bonds the first failed to insert and it does
  not; undisturbed, its map is the same only when no known ticker shares an uncatalogued ISIN with an admitted bond
  (`UniverseResolver.SecondRunInsertsExactly`, `UniverseResolver.SecondRunIsFixedPointExactlyWhen`,
  `UniverseResolver.UndisturbedUnlessShadowed`).
- The money comment (src/compose/blocks.ts:48) says only a true zero prints as zero. Any figure under half a rupee does
  (`Money.ZeroMeansUnderHalfARupee`).
- A regenerated chat reply is scanned for advice and not for moderation (`ChatTurn.RegeneratedExactlyWhen`,
  `ChatTurn.ModerationCoversFirstAnswersOnly`, `ChatTurn.RegeneratedTextCanFailModeration`).
- Two evaluation passes that overlap fire twice on one crossing (`AlertPass.OverlappingPassesFireTwice`); a message stored
  between the two reads of a distillation is distilled twice, exactly when it is visible and later than what the first
  read claims (`ProfileWatermark.TornReadDistilsTwice`).
- The total stated for an event is its amounts' sum rounded to four places, which differs from the sum exactly when that
  is not whole in ten-thousandths (`EventDescription.StatedTotal`, `EventDescription.StatedTotalCanDiffer`).
- A rescue credits a synthetic buy dated at the last sync, so a split or bonus the destination's own ledger records after
  that day multiplies the moved units too (`BrokerRescue.RescueConservesUnits`, `BrokerRescue.UnitsCanGrow`). Its past
  sells can be re-matched to the lots brought in (src/portfolio/transfer.ts:29-36): realized gains depend on the
  price moved in exactly when the lots held on that day do not cover the later sells
  (`FifoLedger.RealizedStandsExactlyWhen`, `BrokerRescue.RealizedCanMove`); invested less realized stands in every case
  (`BrokerRescue.RescueConservesCost`).

## Model

| member | source | states |
|---|---|---|
| `AlertEvaluation.RepeatingFiresExactlyOnCrossings` | src/alerts/evaluate.ts:83-100 | over any history a repeating alert fires on every rising edge of its evaluable condition and on nothing else, stays active, and is armed exactly when the last evaluated condition was false |
| `AlertEvaluation.OneShotFiresExactlyOnFirstCrossing` | src/alerts/evaluate.ts:83-100 | a one-shot fires on the first rising edge only and is active exactly until then |
| `AlertEvaluation.InactiveNeverFires` | src/alerts/evaluate.ts:83-86 | an inactive alert never fires and never changes |
| `AlertEvaluation.NoSecondFireWithoutRecession` | src/alerts/evaluate.ts:73-82 | between two fires the condition was evaluated false at least once |
| `AlertEvaluation.SameReadingTwiceIsQuiet` | src/alerts/eval-pass.ts:267-271 | a second step on the same reading neither fires nor changes a flag |
| `AlertEvaluation.ReduceIsTheAlert` | src/alerts/eval-pass.ts:218-262 | a reading reduces to the truth of what the alert says of it, in the reader's terms, and to a skip exactly when it says nothing; the value shown is what was judged |
| `AlertEvaluation.FiresWhereItBecomesTrue` | src/alerts/evaluate.ts:83-100 | a new alert fires exactly at the readings it is true of where it was not true of the last reading it said anything of |
| `AlertReadings.TwoGreatestSnapshots` | src/alerts/eval-pass.ts:119-143 | the first two rows of a stock in the globally sorted read are its two greatest snapshots |
| `AlertReadings.ScoreChannelIsFiltered` | src/alerts/eval-pass.ts:165-193 | no retired, not-covered or filing-owned key comes from the score channel, and with fewer than two snapshots none does |
| `AlertReadings.GroupSnapshots` | src/alerts/eval-pass.ts:135-143 | one sweep gives each stock asked for its first two rows |
| `AlertReadings.GroupKeys` | src/alerts/eval-pass.ts:159-175 | each grouped snapshot holds exactly its surviving pattern keys |
| `AlertReadings.NewlyStandingFilingKeys` | src/filing/read.ts:290-345 | the filing sweep finds exactly the pairs that have an older row and whose current row is fired and stamped newly standing |
| `AlertReadings.TransitionedIsFiredAnew` | src/filing/pass.ts:77-94 | where each row was stamped against the one before it, those are the pairs whose current row fired and whose previous one did not |
| `AlertReadings.LatestCloses` | src/alerts/eval-pass.ts:132-133 | each stock's close is its last price row |
| `AlertReadings.AssembleReadings` | src/alerts/eval-pass.ts:110-202 | the bulk read gives every stock asked for the reading of its own rows: its last close, the band of its first snapshot row, whether it has one, and the keys that stand on that row and not on its second or newly in its filings |
| `AlertReadings.ReadingOfIs` | src/alerts/eval-pass.ts:179-198 | the same of the definition on one stock, said over the places of the tables |
| `AlertReadings.ReadingIsOfTheNewest` | src/alerts/eval-pass.ts:119-143 | with the snapshots read newest first a stock is scored if and only if it has one, and its band is then that of a snapshot no other of the stock is newer than |
| `AlertPass.ProcessRowMeaning` | src/alerts/eval-pass.ts:312-355 | one transaction steps its alert and appends an event exactly when it fires |
| `AlertPass.WritesOfARow` | src/alerts/eval-pass.ts:312-355 | its two writes field by field: a fire dates the alert and records whose it was, when and on what value, undelivered; anything else leaves the date and the log alone; no other alert is touched |
| `AlertPass.PassKeepsDates` | src/alerts/eval-pass.ts:325-344 | the date on an alert is that of its last event on record, over any pass, on stale copies too |
| `AlertPass.OutcomeTells` | src/alerts/eval-pass.ts:305-355 | what is reported of an alert: fired exactly when it fires, re-armed exactly when it becomes armed, skipped exactly when it says nothing of the reading, with the condition's truth and the value shown |
| `AlertPass.TallyCounts` | src/alerts/eval-pass.ts:299-356 | each counter counts the outcomes of its own kind |
| `AlertPass.PassSteps` | src/alerts/eval-pass.ts:305-356 | after a pass every visited alert took one step on its own reading and every other is untouched, whatever the order |
| `AlertPass.PassAppends` | src/alerts/eval-pass.ts:305-356 | a pass only appends to the log |
| `AlertPass.EmittedIsOwed` | src/alerts/eval-pass.ts:325-344 | the appended events are, as a multiset, exactly those the visited alerts owe |
| `AlertPass.CrashAndRerun` | src/alerts/eval-pass.ts:275-356 | a pass cut after any prefix and rerun on the same readings ends with the flags and the multiset of events of an uninterrupted pass |
| `AlertPass.RerunOfCompletePassIsIdentity` | src/alerts/eval-pass.ts:267-271 | rerunning a completed pass changes nothing at all |
| `AlertPass.OverlappingPassesFireTwice` | src/alerts/eval-pass.ts:275-291 | a stale copy fires again on a crossing already fired, exactly when it would have fired; a fresh copy does not |
| `AlertPass.AlertStore.EvaluateOne` | src/alerts/eval-pass.ts:305-355 | one alert's transaction and its reported outcome |
| `AlertPass.AlertStore.EvaluateAll` | src/alerts/eval-pass.ts:299-356 | the loop over a scan: final tables, one outcome per alert in order, counters equal to the tally of the outcomes |
| `AlertPass.AlertStore.RunAlertsEvalPass` | src/alerts/eval-pass.ts:272-359 | scan of the active alerts, bulk readings, then the run of transactions on them |
| `AlertDelivery.StepKeepsInv` | src/alerts/deliver.ts:105-143 | every step of passes, drains, failing sends, failing flips and crashes keeps the system invariant |
| `AlertDelivery.ExactlyOnce` | src/alerts/deliver.ts:121-143 | after any run each alert's log is exactly its rising edges, no event reached the mailbox twice, every email reports a recorded event to the owner of the alert that fired and about its stock, and a delivered mark implies arrival |
| `AlertDelivery.CleanDrainDeliversAll` | src/alerts/deliver.ts:105-143 | after a drain without failure every event recorded before it has arrived exactly once and is marked |
| `AlertDelivery.DeliverOneIsSendThenFlip` | src/alerts/deliver.ts:121-131 | the drain's treatment of one event is the send step followed by the flip step of the system |
| `AlertDelivery.DrainMarksExactlySuccesses` | src/alerts/deliver.ts:129-142 | a drain marks exactly the events whose send and flip both succeeded and leaves the rest for the next |
| `AlertDelivery.FullDrainLeavesNothing` | src/alerts/deliver.ts:105-143 | a drain without failure leaves no undelivered event and every key in the mailbox |
| `AlertDelivery.InsertByTimeIsSorted` | src/alerts/deliver.ts:69-99 | the backlog is kept oldest first |
| `AlertDelivery.DeliveryStore.ScanUndelivered` | src/alerts/deliver.ts:69-99 | the scan returns exactly the undelivered events, each once, oldest first |
| `AlertDelivery.DeliveryStore.RunAlertsDeliverPass` | src/alerts/deliver.ts:69-146 | the drain's final log and mailbox, and a result whose outcomes and counts say which sends succeeded |
| `AlertDelivery.SentCounts` | src/alerts/deliver.ts:136-146 | the count of sent is the number of outcomes that succeeded |
| `AlertDelivery.DeliveryStore.TrySend` | src/alerts/deliver.ts:121-142 | flips only after a confirmed send; a failure leaves the event undelivered |
| `BrokerInvariant.RefedKeepsIntegrity` | src/brokers/lifecycle.ts:207-243 | a change of feed facts alone keeps the tables' integrity |
| `BrokerInvariant.UpsertKeepsIntegrity` | src/brokers/lifecycle.ts:305-320 | the upsert on (user, broker, account ref) keeps that key unique and lands on the row it names |
| `BrokerInvariant.ForgetKeepsIntegrity` | src/brokers/lifecycle.ts:766-787 | deleting a connection cascades its holdings, frees its account, and leaves no row behind |
| `BrokerInvariant.OverwriteKeepsIntegrity` | src/brokers/lifecycle.ts:619-626 | the overwrite keeps one row per symbol under bound connections |
| `BrokerInvariant.LinkKeepsIntegrity` | src/controllers/me/accounts-controller.ts:256-352 | linking keeps one account per connection and wipes the account's manual ledger |
| `BrokerInvariant.DeleteAccountKeepsIntegrity` | src/controllers/me/accounts-controller.ts:564-592 | deleting an account without a rescue orphans nothing |
| `BrokerInvariant.PatchKeepsIntegrity` | src/controllers/me/accounts-controller.ts:175-214 | a rename, and a retag of a book nothing depends on, keep the tables sound |
| `BrokerInvariant.RescueKeepsIntegrity` | src/portfolio/transfer.ts:607-790 | a rescue keeps one manual holding per instrument, leaves no row of the deleted connection, and strands none of the deleted account |
| `BrokerInvariant.StepKeepsIntegrity` | src/brokers/lifecycle.ts:14-35 | no operation, refused, completed or cut between its writes, damages the tables |
| `BrokerInvariant.RunKeepsIntegrity` | src/brokers/lifecycle.ts:14-35 | the same over every run: unique demats, one account per connection, only owned holdings and only under bound connections, one manual holding per instrument, no mixed book |
| `BrokerProjection.SwitchProjects` | src/brokers/lifecycle.ts:225-243 | sever and resume bring their own pair into agreement and leave every other pair as it was |
| `BrokerProjection.PersistProjects` | src/brokers/lifecycle.ts:305-336 | the two writes of a connect agree unless cut between them while a stale account is bound |
| `BrokerProjection.CompleteEitherPersistsOrRefuses` | src/brokers/lifecycle.ts:449-523 | a completion either persists a session or leaves connections and accounts as they were |
| `BrokerProjection.ProjectionExactly` | src/brokers/lifecycle.ts:207-214 | after one operation a connection and its account agree if and only if the operation did not break that pair and either repaired it or found it agreeing |
| `BrokerProjection.AnyRepairRestoresAgreement` | src/brokers/lifecycle.ts:235-251 | sever, activate, unlink or a completed reconnect repairs any state |
| `BrokerProjection.SoundRunsStayProjected` | src/brokers/lifecycle.ts:207-214 | over any run without those two breakages, linked-live holds exactly while the connection is enabled |
| `BrokerProjection.OnlyAConnectCreates` | src/brokers/lifecycle.ts:307-320 | a new connection row comes from a connect that got as far as writing |
| `BrokerProjection.LinkToSeveredConnectionBreaks` | src/controllers/me/accounts-controller.ts:256-352 | a concrete store in which linking to a severed connection breaks the agreement |
| `BrokerProjection.CrashBetweenWritesBreaks` | src/brokers/lifecycle.ts:316-336 | a concrete store in which a crash between the two writes does |
| `BrokerFootprint.StepMovesConns` | src/brokers/lifecycle.ts:207-339 | what each operation may do to a connection, column by column and exactly when: its key never changes, a sync alone dates it, a connect alone gives it a token and a disclaimer, and it goes with a confirmed clear of it switched off or a rescue of its account and with nothing else |
| `BrokerFootprint.StepMovesAccounts` | src/controllers/me/accounts-controller.ts:144-592 | the same of an account: its user, name, label, binding and state, who creates it and who deletes it |
| `BrokerFootprint.StepMovesHoldings` | src/brokers/lifecycle.ts:617-626 | broker rows go with their connection and are replaced by a sync of it, and nothing else touches them |
| `BrokerFootprint.StepMovesManual` | src/controllers/me/accounts-controller.ts:256-352 | hand-entered rows go exactly when their account is bound, deleted or rescued from, or are replaced under their key |
| `BrokerFootprint.StepMovesAuth` | src/brokers/security/state-store.ts:40-91 | an authorization state is begun with what was accepted and spent exactly by a completion of its own user and broker that presents it in time |
| `BrokerConduct.StepTroublesNobodyElse` | src/brokers/lifecycle.ts:188-205 | no operation touches a connection, account, holding or authorization of another user |
| `BrokerConduct.RunTroublesNobodyElse` | src/brokers/lifecycle.ts:33-36 | nor does any run of them |
| `BrokerConduct.ConsentIsOnRecord` | src/brokers/lifecycle.ts:360-409 | after any run from nothing every connection stands under a disclaimer its own user accepted, for its broker, in that run |
| `BrokerConduct.CompletionWasBegun` | src/brokers/security/state-store.ts:8-20 | an authorization that can be completed was begun by that user, for that broker, and is still in time |
| `BrokerConduct.RefusalsAreTrue` | src/brokers/lifecycle.ts:449-523 | whatever code a caller gets, its reason holds, and every table is as it was but for a state a completion spent and the session a cut connect had written |
| `BrokerConduct.RunKeepsNamesAndAccounts` | src/controllers/me/accounts-controller.ts:144-592 | over any run a user's account names stay distinct, and whoever has an account keeps one |
| `BrokerLifecycle.BrokerStore.SeverConnection` | src/brokers/lifecycle.ts:247-252 | the new tables, the refusal of a foreign connection, and agreement of the pair after success |
| `BrokerLifecycle.BrokerStore.ActivateConnection` | src/brokers/lifecycle.ts:736-742 | the same for the resume |
| `BrokerLifecycle.BrokerStore.ClearData` | src/brokers/lifecycle.ts:749-788 | refused unless inactive and confirmed; removes as many holdings as it reports |
| `BrokerLifecycle.BrokerStore.UpsertConnection` | src/brokers/lifecycle.ts:316-320 | the first write: the row of that key is updated, or a new one created |
| `BrokerLifecycle.BrokerStore.PersistSession` | src/brokers/lifecycle.ts:284-339 | both writes in order, or a refusal before any |
| `BrokerLifecycle.BrokerStore.IntegrateOneShot` | src/brokers/lifecycle.ts:360-382 | the one-shot connect with its checks in order |
| `BrokerLifecycle.BrokerStore.ConsumeState` | src/brokers/security/state-store.ts:73-91 | consumes a state exactly when it is this user's, this broker's, unexpired and unused |
| `BrokerLifecycle.BrokerStore.CompleteIntegration` | src/brokers/lifecycle.ts:449-523 | the completion with its checks in order and the state consumed first |
| `BrokerLifecycle.CountedAreRemoved` | src/brokers/lifecycle.ts:764-787 | the rows counted before a clear are the rows it removes |
| `BrokerLifecycle.ReconnectIdentity` | src/brokers/lifecycle.ts:449-523 | a completion that names a connection returns that connection having changed only its feed facts and its own account, or changes no table; which of the two, exactly; and what it consumes |
| `BrokerLifecycle.ReplayIsRefused` | src/brokers/security/state-store.ts:81-87 | a consumed state is refused and changes nothing, after any run, whoever presents it |
| `BrokerSync.SnapshotIsLastRows` | src/brokers/lifecycle.ts:596-615 | the snapshot is one row per symbol, that of the symbol's last row |
| `BrokerSync.SnapshotCoversOwnedSymbols` | src/brokers/lifecycle.ts:562-615 | a symbol has a row if and only if it was reported with a positive quantity, and every row is positive and of this sync |
| `BrokerSync.RowsCarryTheFeed` | src/brokers/lifecycle.ts:596-615 | field by field: the snapshot holds, for each symbol owned, the quantity, average cost and value of the last place of the feed that reports it with a positive quantity, under the identity resolved for it, and nothing else |
| `BrokerSync.SyncedRowsCarryTheFeed` | src/brokers/lifecycle.ts:617-626 | so after a completed sync the store holds exactly those rows under the connection |
| `BrokerSync.OverwriteIsIsolated` | src/brokers/lifecycle.ts:617-626 | the overwrite leaves every other connection's rows as they were |
| `BrokerSync.UnmappedAreTheUnidentified` | src/brokers/lifecycle.ts:650 | unmapped is exactly the rows with neither a stock nor an instrument |
| `BrokerSync.BuildSnapshot` | src/brokers/lifecycle.ts:597-615 | the map-filling loop yields the snapshot, a repeated symbol keeping its first place |
| `BrokerSync.WriteSnapshot` | src/brokers/lifecycle.ts:596-626 | the tables after the overwrite: the rows are exactly those read off the feed, each figure in its own column, and the stamp |
| `BrokerSync.SyncIsAStep` | src/brokers/lifecycle.ts:526-626 | a sync that passes its guards is a step of a run, so all that holds over runs holds across it |
| `BrokerSync.SyncTouchesOneConnection` | src/brokers/lifecycle.ts:617-626 | a completed sync changes its own rows and stamp and nothing else |
| `BrokerSync.ResyncChangesStampsOnly` | src/brokers/lifecycle.ts:596-626 | a later sync of the same feed and identities changes the time stamps of its own rows and connection and nothing else |
| `BrokerSync.ResyncChangesNothing` | src/brokers/lifecycle.ts:596-626 | at the same instant it changes nothing |
| `SyncFlow.SyncHoldings` | src/brokers/lifecycle.ts:526-670 | every guard in order; the rows under the connection afterwards, each with the figures of the last owned place of the feed and the stock and instrument the indexes give it; the catalogue rows created and the symbols reported unmapped, exactly; a refused sync creates none |
| `SyncFlow.GuardIsTheReason` | src/brokers/lifecycle.ts:526-560 | the reason a sync did not complete, in terms of the tables and the fetch; and that it wrote nothing but that a session is dead |
| `SyncFlow.CreatedAreOwnedBonds` | src/brokers/lifecycle.ts:564-594 | a row is created if and only if an uncatalogued bond with that ISIN was reported with a positive quantity and its insert went through |
| `SyncFlow.UnmappedAreOwned` | src/brokers/lifecycle.ts:641-650 | a symbol is reported unmapped if and only if it is owned and has no identity, is an uncovered equity, or is a bond whose insert failed |
| `SyncFlow.RowsMirror` | src/brokers/lifecycle.ts:594-615 | an owned symbol has the one row that mirrors the feed and the catalogue's indexes, and every row mirrors an owned symbol; neither the resolver nor the snapshot is named |
| `BrokerUnion.ListUnifiedPositions` | src/brokers/union.ts:103-253 | the two loops yield one line for each holding of the user's, sold-out ones on request only, in the order of the tables, the manual ones first, and no other line |
| `BrokerUnion.ReadIsTheTables` | src/brokers/union.ts:103-253 | the same of the definition, place by place and column by column |
| `BrokerUnion.BrokerLinesAreFrozen` | src/brokers/union.ts:122-176 | an operation that does not clear, sync or rescue a connection leaves its lines the same for every reader but for their freshness marks and, under a rename, the account name |
| `BrokerUnion.BrokerLinesStayFrozen` | src/brokers/union.ts:122-176 | the same over any run until that connection is itself cleared, synced or rescued |
| `BrokerUnion.FeedStepsFreezeEverything` | src/brokers/lifecycle.ts:207-243 | sever, activate, a dead session and connects leave the whole read the same but for those marks |
| `BrokerUnion.FeedRunsFreezeEverything` | src/brokers/lifecycle.ts:207-243 | the same over any run of them |
| `BrokerUnion.LinesAreTrueAndBooksUnmixed` | src/brokers/union.ts:183-250 | a line is stale exactly while its connection is off, sits under its bound account, and no account is fed by both engines |
| `BrokerUnion.NoHoldingIsSkipped` | src/brokers/union.ts:204-209 | the defensive skip is never taken: each selected holding is one line, field by field its own figures and its connection's broker, dates and freshness |
| `BrokerUnion.ManualHoldingsAreRead` | src/brokers/union.ts:122-181 | each selected manual holding is one line, field by field, under its account's name |
| `BrokerUnion.OwnedAreSelected` | src/brokers/union.ts:103-121 | the read selects exactly the user's holdings, exited ones only when asked for |
| `BrokerUnion.ClearRemovesExactlyItsLines` | src/brokers/lifecycle.ts:749-788 | a clear goes through exactly under its conditions and removes exactly its connection's lines from every read |
| `BrokerUnion.SyncedInvestedIsFeedCost` | src/brokers/union.ts:221-235 | after a sync the connection's invested sum is the sum of quantity times average cost over the last owned places of the feed |
| `FifoLedger.ConsumeOldest` | src/portfolio/fifo-engine.ts:124-132 | the consuming loop empties the oldest lots first and matches the gain lot by lot |
| `FifoLedger.OldestGoFirst` | src/portfolio/fifo-engine.ts:118-137 | a sell leaves the rest of the lot it ends in and every newer lot as it was |
| `FifoLedger.LotCostsWhatWasPaid` | src/portfolio/fifo-engine.ts:108-117 | a lot carries its buy's fees: over all its units it costs what was paid |
| `FifoLedger.ReplayFifo` | src/portfolio/fifo-engine.ts:104-151 | the replay loop yields the defined register, or stops at an oversell |
| `FifoLedger.ReplaysIffCovered` | src/portfolio/fifo-engine.ts:120-123 | a ledger replays if and only if every sell is within the balance before it |
| `FifoLedger.UnitsAreBalance` | src/portfolio/fifo-engine.ts:104-157 | however the lots were consumed, the units held are the ledger's balance |
| `FifoLedger.PositionIsItsLedgers` | src/portfolio/fifo-engine.ts:153-156 | of every ledger that replays, the units are the balance, invested less realized is the outlay, and average cost times units is what is invested, zero when nothing is held |
| `FifoLedger.ScaledUnits` | src/portfolio/fifo-engine.ts:138-147 | a split or bonus multiplies the units and leaves what was invested |
| `FifoLedger.EnlistedInOrder` | src/portfolio/fifo-engine.ts:93-97 | an entry made now takes the place the order by trade date and entry time gives it |
| `FifoLedger.BuyRaisesBalance` | src/portfolio/fifo-engine.ts:99-103 | one more buy, however far back, never makes a recorded sell fail and raises what is held by what it has grown to |
| `FifoLedger.GrownByLaterFactor` | src/portfolio/fifo-engine.ts:83-91 | which is its quantity times the corporate actions after its day |
| `FifoLedger.InvestedLessRealizedIsOutlay` | src/portfolio/fifo-engine.ts:104-157 | what is invested less what was realized is what the buys cost less what the sells took, whichever lots were matched |
| `FifoLedger.RealizedStandsExactlyWhen` | src/portfolio/transfer.ts:29-36 | one more buy behind a day leaves realized alone at every price if and only if the lots held on that day cover every later sell |
| `BrokerRescue.RescueGoesThroughExactlyWhen` | src/portfolio/transfer.ts:613-700 | a rescue goes through exactly when the account is the user's, bound and holding identified rows, the destination is the user's, manual and of the same broker, and it is confirmed; otherwise nothing changes |
| `BrokerRescue.LedgersReplay` | src/portfolio/transfer.ts:742-749 | the replay after each synthetic buy never fails and holds what arrived on top of what was there |
| `BrokerRescue.SyntheticBuyIsTheRow` | src/portfolio/transfer.ts:719-729 | the buy a row becomes has the row's quantity and cost, no fees, and the day of its last sync |
| `BrokerRescue.RescuedHolding` | src/portfolio/transfer.ts:715-760 | each instrument moved becomes one holding of the destination with the position of its ledger and the rows' buys, under the identity it had; others are untouched |
| `BrokerRescue.HoldingsAreTheirLedgers` | src/portfolio/transfer.ts:715-760 | field by field, every holding of the destination afterwards has its ledger's units, invested and realized, and the average cost that gives invested over units |
| `BrokerRescue.AverageIsOverBothLots` | src/portfolio/fifo-engine.ts:153-156 | a concrete book: ten at 100 and ten rescued at 40 are held at 70 |
| `BrokerRescue.RescueMovesTheBook` | src/portfolio/transfer.ts:704-772 | exactly that connection's lines go, only the destination's holdings change, and each by exactly what arrived |
| `BrokerRescue.RescueConservesUnits` | src/portfolio/transfer.ts:590-606 | over everything a user reads the units of every instrument are the same, never fewer, and more exactly when a later corporate action of the destination multiplies a moved row; other users read the same |
| `BrokerRescue.ArrivesWhole` | src/portfolio/transfer.ts:719-729 | as many units arrive as were held, exactly when no later corporate action multiplies a row |
| `BrokerRescue.RescueConservesCost` | src/portfolio/transfer.ts:590-606 | over everything a user reads, positions sold out included, what is invested in every instrument less what was realized on it is exactly what it was |
| `BrokerRescue.CostIsCarriedOver` | src/portfolio/transfer.ts:719-745 | however past sells are re-matched, the destination's invested less realized grows by the rows' own cost |
| `BrokerRescue.RealizedIsKept` | src/portfolio/transfer.ts:29-36 | where the lots held on each row's day cover the later sells, realized stands and the rows' cost is all added to invested |
| `BrokerRescue.NoLaterSellKeepsRealized` | src/portfolio/transfer.ts:29-36 | in particular where the destination made no sell after the day of any row |
| `BrokerRescue.CostOfUnsold` | src/portfolio/transfer.ts:719-745 | and where it never sold, with nothing realized before or after |
| `BrokerRescue.RealizedCanMove` | src/portfolio/transfer.ts:29-36 | a concrete book whose realized gain moves from 500 to 1100 under a rescue |
| `BrokerRescue.UnitsCanGrow` | src/portfolio/transfer.ts:719-745 | a concrete book whose user reads thirty units before a rescue and forty after it |
| `BrokerRescue.RescueLinkedAccount` | src/portfolio/transfer.ts:607-790 | the endpoint: guards in order, a lot and a replay a row, then the connection and the account deleted; every holding of the destination has invested as its average cost times its quantity |
| `UniverseResolver.AdmitCatalogueInstrument` | src/brokers/universe-admit.ts:441-466 | insert, or read the row already under the ISIN; created exactly when there was none |
| `UniverseResolver.CatalogueAnswers` | src/brokers/universe-admit.ts:162-182 | the first pass answers exactly the holdings whose ISIN is a non-equity catalogue row |
| `UniverseResolver.Renames` | src/brokers/universe-admit.ts:197-215 | the second pass resolves exactly the strangers whose ISIN is a known stock |
| `UniverseResolver.AdmitStrangers` | src/brokers/universe-admit.ts:243-328 | the third pass: entries, outcomes, created rows and the catalogue after it |
| `UniverseResolver.ResolveHoldingsToUniverse` | src/brokers/universe-admit.ts:125-356 | every holding is answered with the identity the catalogue's indexes give it, a stock with its own catalogue row, and every outcome tells that identity and which index or admission answered |
| `UniverseResolver.RuleIsTheIndexes` | src/brokers/universe-admit.ts:331-341 | the rule's answer in terms of the indexes alone: a resolved stock carries its own catalogue row if there is one and none if not; a stockless holding its ISIN's row; and the label says which index answered |
| `UniverseResolver.AnswersAreIdentities` | src/brokers/universe-admit.ts:160-215 | so is the map's answer for every holding, and every outcome |
| `UniverseResolver.TableGrows` | src/brokers/universe-admit.ts:107-112 | a row, once there, is never changed |
| `UniverseResolver.ToldAsOftenAsHeld` | src/brokers/universe-admit.ts:343-353 | a symbol has as many outcomes as holdings |
| `UniverseResolver.OneOutcomeEach` | src/brokers/universe-admit.ts:343-353 | for distinct symbols exactly one outcome each, telling the holding's identity |
| `UniverseResolver.InsertsExactlyTheBonds` | src/brokers/universe-admit.ts:257-282 | the rows created are exactly those of the admitted debt ISINs, without a stock, each reported once |
| `UniverseResolver.SecondRunInsertsExactly` | src/brokers/universe-admit.ts:263-270 | a second run creates exactly the bonds the first failed to insert and it does not, unless someone else has |
| `UniverseResolver.SecondRunIsFixedPointExactlyWhen` | src/brokers/universe-admit.ts:150-182 | whatever others inserted and whichever inserts failed, the second run's map is the first's if and only if every holding is steady |
| `UniverseResolver.UndisturbedUnlessShadowed` | src/brokers/universe-admit.ts:188-195 | undisturbed, that is if and only if no known ticker shadows an admitted bond |
| `UniverseResolver.SecondRunCanDiffer` | src/brokers/universe-admit.ts:188-195 | a concrete snapshot whose second run differs |
| `UniverseResolver.UnmappedExactly` | src/brokers/lifecycle.ts:641-650 | which holdings a sync then reports as unmapped, exactly |
| `ConcurrentAdmission.MoveKeepsInv` | src/brokers/universe-admit.ts:441-466 | every move of every resolver and writer keeps the race invariant |
| `ConcurrentAdmission.RowsNeverChange` | src/brokers/universe-admit.ts:107-112 | over any interleaving existing rows stay as they are |
| `ConcurrentAdmission.NoFork` | src/brokers/universe-admit.ts:428-466 | unique ISINs, one id for all resolvers of an ISIN, at most one creator and one report, created rows without a stock, no loser left without a row |
| `ChatTurn.ExecuteRound` | src/chat/engine.ts:300-311 | a round appends its call turn and its results in order, to the transcript and to what the model sees |
| `ChatTurn.Buy` | src/chat/engine.ts:251-268 | one spend, then one generation, or neither |
| `ChatTurn.RaiseBudget` | src/chat/engine.ts:281-287 | reading a reply gives the budget in force after it: never lower, and at least the extension's once a reply names an extending tool |
| `ChatTurn.ForceAnswer` | src/chat/engine.ts:288-297 | at the cap one generation without tools, the refused calls unrecorded |
| `ChatTurn.NextRound` | src/chat/engine.ts:298-318 | a round within the budget, then a spend and a generation with tools |
| `ChatTurn.ToolLoop` | src/chat/engine.ts:256-319 | the loop ends with a final reply or without one, under the discipline `Turn` states |
| `ChatTurn.AnswerAgain` | src/chat/engine.ts:355-373 | the advice gate's single regeneration and its three endings |
| `ChatTurn.RunChatTurn` | src/chat/engine.ts:132-373 | every run is a `Turn`: which requests, in which order, with which history, and which answer |
| `ChatTurn.GenerationsAreAllowedSpends` | src/chat/engine.ts:251-253 | on every exit generations equal allowed spends and at most one spend is denied |
| `ChatTurn.DenialIsFinal` | src/chat/engine.ts:313-316 | after a denial the reader gets nothing or the fixed redirect |
| `ChatTurn.GenerationsBounded` | src/chat/engine.ts:136-142 | generations never exceed the larger budget, or zero, plus three |
| `ChatTurn.BoundIsReached` | src/chat/engine.ts:280-364 | the bound is met |
| `ChatTurn.CappedExactlyAtTheGrant` | src/chat/engine.ts:280-297 | a turn is cut at the cap exactly when its model still wants tools after as many rounds as it was granted, the larger budget once a reply up to that one named an extending tool; it has then had every one of them, and no turn has more |
| `ChatTurn.CappedTurnsHadTheirRounds` | src/chat/config.ts:47-55 | so a capped turn had its base rounds, the extension's if a reply named an extending tool, and no more than the base if none did |
| `ChatTurn.RaisedBoundIsReached` | src/chat/engine.ts:283-288 | the larger budget is used in full |
| `ChatTurn.TranscriptIsBracketed` | src/chat/engine.ts:300-311 | what is persisted is a sequence of non-empty calls each followed by exactly its results, is what the model saw, and excludes calls refused at the cap |
| `ChatTurn.RoundsAreRecorded` | src/chat/engine.ts:300-304 | every round is on record with the text, the calls and the usage of the reply that asked for it |
| `ChatTurn.ShownIsTheRecord` | src/chat/engine.ts:304-311 | what the model is shown of a recorded turn is its text and calls, or its result |
| `ChatTurn.HistoriesGrow` | src/chat/engine.ts:254-311 | the histories the model is shown only grow, from the reader's messages |
| `ChatTurn.ToolsAreOfferedWhileRoundsLast` | src/chat/engine.ts:259-297 | tools are offered until the rounds end and not after; the sharpened reminder is given to the regeneration alone |
| `ChatTurn.DeliveredIsGated` | src/chat/engine.ts:155-226 | every delivered text is non-blank and is a fixed text or the last generation's, clean of advice |
| `ChatTurn.AnswersAreLabelled` | src/chat/engine.ts:229-373 | an answer is billed at its last generation, marked moderated exactly when the message or the first answer was caught, and blocked exactly then or when advice was found and no later reply was free of it |
| `ChatTurn.NothingCleanIsWithheld` | src/chat/engine.ts:155-226 | a last reply that passes the gates that apply to it is what the reader gets, unmarked; a blank one is replaced by the text for its kind of turn |
| `ChatTurn.FailsExactlyOnAThrow` | src/chat/engine.ts:259-268 | a turn fails as the provider's exactly when a generation paid for was not answered |
| `ChatTurn.RegeneratedExactlyWhen` | src/chat/engine.ts:355-362 | an answer is a regenerated one if and only if the first gave advice and the quota allowed another |
| `ChatTurn.ModerationCoversFirstAnswersOnly` | src/chat/engine.ts:330-369 | a delivered model text that was not regenerated passed output moderation; behind a regenerated one it was the reply it replaced that did, and that one carried advice |
| `ChatTurn.RegeneratedTextCanFailModeration` | src/chat/engine.ts:362-366 | a concrete turn that delivers a text failing output moderation |
| `ReaderProfile.FoldProfile` | src/chat/profile.ts:203-294 | the fold's loops and counters compute the defined profile |
| `ReaderProfile.MajorityWins` | src/chat/profile.ts:221-238 | a register seen in more than half of the observations is the stored one |
| `ReaderProfile.TwoRegistersExactly` | src/chat/profile.ts:221-238 | with two registers the stored one is exactly the majority, a tie going to the one not seen first |
| `ReaderProfile.FlipTakesExactlyTheCount` | src/chat/profile.ts:232-237 | a stored register yields after exactly as many disagreements as its count |
| `ReaderProfile.RegisterIsDated` | src/chat/profile.ts:221-238 | the stored register is dated from the conversation that made it the stored one to the last |
| `ReaderProfile.NudgeIsRecentEvidence` | src/chat/profile.ts:266-282 | a nonzero nudge is the latest evidence and that evidence lies within the last five folds |
| `ReaderProfile.NudgeLastsItsCount` | src/chat/profile.ts:277-281 | without evidence a nudge lasts exactly its count |
| `ReaderProfile.NudgeCountsItsEvidence` | src/chat/profile.ts:266-276 | evidence that keeps saying the same counts up to five, from one where it says something new |
| `ReaderProfile.SteadyNudgeOutlasts` | src/chat/profile.ts:266-282 | so a nudge seen n times in a row outlasts n silent folds less one, four at the most |
| `ReaderProfile.NudgeIsDated` | src/chat/profile.ts:266-282 | while there is a nudge it is dated from the conversation that brought it in to the last |
| `ReaderProfile.ProfileIsTheVote` | src/chat/profile.ts:203-294 | the stored register and nudge of any history are the vote and the evidence the results above are about |
| `ReaderProfile.LastNameStands` | src/chat/profile.ts:284-286 | a later name replaces an earlier one and silence keeps it |
| `ReaderProfile.NameIsDated` | src/chat/profile.ts:284-286 | a name is dated from the conversation that brought it in, not from those that repeat it |
| `ReaderProfile.StampsAreSightings` | src/chat/profile.ts:240-258 | a gap's stamp records its sightings: since when, when last, and how many |
| `ReaderProfile.FoldedGapsAre` | src/chat/profile.ts:240-264 | what is kept was reported now, or is an unreported stamp still inside the window, unchanged |
| `ReaderProfile.KeptExactlyWhileFresh` | src/chat/profile.ts:250-258 | with room for all, an unreported gap is kept if and only if it is still inside the window |
| `ReaderProfile.DroppedForEightAsRecent` | src/chat/profile.ts:259-262 | without room, a fresh gap is dropped only for eight others at least as recent |
| `ReaderProfile.FoldKeepsGapsBounded` | src/chat/profile.ts:259-264 | at most eight gaps, distinct, in vocabulary |
| `ReaderProfile.ReportedGapsAreKept` | src/chat/profile.ts:240-264 | with a clock that does not run back, what was just reported heads the list in its order |
| `ReaderProfile.LastReportHeadsTheList` | src/chat/profile.ts:240-264 | so over any history in order the last report heads the stored list |
| `ReaderProfile.LastsExactly` | src/chat/profile.ts:247-258 | while not reported and not crowded out, a gap is there after a run if and only if its window has not closed at the last conversation |
| `ReaderProfile.SilenceIsSurvivedExactly` | src/chat/profile.ts:247-258 | silent conversations are survived if and only if distillations less sightings are at most ten |
| `ReaderProfile.DocumentedWindowExactlyWhen` | src/chat/config.ts:115-116 | the documented ten-distillation rule holds if and only if every conversation so far showed the gap |
| `ReaderProfile.GoneWithinEleven` | src/chat/profile.ts:250-258 | no gap survives eleven conversations that do not report it |
| `ReaderProfile.NewGapLastsExactly` | src/chat/profile.ts:243-258 | a gap first reported now survives exactly ten silent conversations less those before it |
| `ReaderProfile.NewGapOfAnOldReaderLastsOneFold` | src/chat/profile.ts:250-258 | a new gap of a reader with ten conversations is gone after one without it, whatever else is reported |
| `ReaderProfile.ParseClamps` | src/chat/profile.ts:164-189 | whatever the reply says, the result is inside the schema if the stored gaps are, and when it says anything of depth |
| `ReaderProfile.ParseHears` | src/chat/profile.ts:164-189 | nothing valid is lost: a register is heard if and only if it is a known one, a name when it has one to forty characters once trimmed, and of the gaps the first eight first reports in vocabulary |
| `ReaderProfile.ParseDistilled` | src/chat/profile.ts:164-189 | the parse yields exactly the clamp of the reply |
| `ProfileWatermark.ProfileStore.LoadVisibleTranscript` | src/chat/profile.ts:146-160 | the visible turns newer than the watermark, in order |
| `ProfileWatermark.ProfileStore.DistilSession` | src/chat/profile.ts:311-422 | the stored profile and watermark after each outcome |
| `ProfileWatermark.EachTurnDistilledAtMostOnce` | src/chat/profile.ts:317-334 | over any run every turn reaches at most one distillation |
| `ProfileWatermark.BehindStaysOut` | src/chat/profile.ts:338-348 | a turn at or before its session's watermark or its reader's clear, not distilled by then, never is |
| `ProfileWatermark.StoredLateStaysOut` | src/chat/sessions.ts:466-486 | a turn stored late, sent by the watermark or the clear in force, is never distilled |
| `ProfileWatermark.DistilConsumesExactly` | src/chat/profile.ts:346-351 | a distillation that gets a reply consumes exactly the visible turns ahead of both |
| `ProfileWatermark.StatusTells` | src/chat/profile.ts:311-385 | what is told of an attempt: gone, not after the clear, nothing visible ahead of both, or with such a turn what came of the reply |
| `ProfileWatermark.ClearCovers` | src/controllers/me/activity-controller.ts:78-104 | a clear puts behind exactly the turns sent by then, of those not yet distilled |
| `ProfileWatermark.ProcessingCatchesUp` | src/chat/profile.ts:306-310 | the watermark advances on every outcome but a closed quota and a provider failure, which change nothing |
| `ProfileWatermark.ProcessedIsNotReselected` | src/chat/profile.ts:433-445 | a processed session is not selected again until it gets a message |
| `ProfileWatermark.QuietUnprocessedIsSelected` | src/chat/profile.ts:433-445 | and after a message a session is selected exactly when it has been quiet for more than six hours and was not processed up to that message |
| `ProfileWatermark.ProfilesStayBounded` | src/chat/profile.ts:394-422 | over any run no profile leaves its bounds, whatever the model replies: gaps, register, nudge and name |
| `ProfileWatermark.ProfileIsItsConversations` | src/chat/profile.ts:394-422 | over any run a reader's stored profile is the fold, from nothing, of the replies parsed for that reader since the last clear, in their order and at their times |
| `ProfileWatermark.StoredProfileIsTheVote` | src/chat/profile.ts:203-294 | so its register is their vote, its nudge their evidence, its name the last one stated and its count how many they were |
| `ProfileWatermark.SilentReplyKeepsTheGaps` | src/chat/profile.ts:164-189 | a reply that gives no list of gaps says the stored ones again, and they head the list still |
| `ProfileWatermark.TornReadDistilsTwice` | src/chat/profile.ts:311-351 | a message stored between the two reads is consumed twice if and only if the first reads at all and the message is visible and later than what it claims |
| `EventDescription.ParseEventDescription` | src/catalogue/event-description.ts:104-145 | exactly when a description is clean, suppressed, or structured, and with what; a stated total is within half a ten-thousandth of the sum of the amounts found, and equal to it exactly when |
| `EventDescription.LabelsAre` | src/catalogue/event-description.ts:73-92 | each label, by exactly the spellings of it |
| `EventDescription.ComponentsAre` | src/catalogue/event-description.ts:113-127 | the components are the matches with a finite number, in order, each its own number under the label it spells |
| `EventDescription.FiniteAre` | src/catalogue/event-description.ts:104-112 | the amounts are the finite numbers found, in order |
| `EventDescription.RenderComponents` | src/catalogue/event-description.ts:155-165 | null exactly when there is nothing to add; a total is stated exactly for several components |
| `EventDescription.AttributedIffSameMultiset` | src/catalogue/event-description.ts:128-135 | for claims that are among the amounts found, as the patterns make them, the test is equality as multisets |
| `EventDescription.AttributedIffPairedOff` | src/catalogue/event-description.ts:135 | of any two lists, the sorted pairwise test succeeds exactly when some pairing within the tolerance does |
| `EventDescription.CloseIsWithinABillionth` | src/catalogue/event-description.ts:128-135 | two amounts count as one within a billionth |
| `EventDescription.RestatesItsOwnRounding` | src/catalogue/event-description.ts:58-75 | an amount restates the column exactly within half of its last place and a billionth; so it does the column it was rounded to |
| `EventDescription.StatedTotal` | src/catalogue/event-description.ts:137-144 | the stated total is the sum of the amounts found rounded to four places, a lone restatement as it is; equal to the sum if and only if that is whole in ten-thousandths |
| `EventDescription.StatedTotalCanDiffer` | src/catalogue/event-description.ts:143-144 | two amounts below the fourth place whose stated total is not their sum |
| `EventDescription.RenderDescription` | src/catalogue/event-description.ts:104-165 | a total is only ever stated for an announcement that was not revised |
| `Money.ErrorIsBounded` | src/compose/blocks.ts:50-61 | read back within half a percent from 0.01 crore up and within half a rupee below |
| `Money.CrErrorIsBounded` | src/compose/blocks.ts:29-40 | the older printer is within half a crore, or half a percent, and prints no negative number |
| `Money.PrintingIsMonotone` | src/compose/blocks.ts:50-61 | monotone across all five bands and both signs |
| `Money.AgreesWithCrAtScale` | src/compose/blocks.ts:29-46 | from 100 crore up the same print as `cr` |
| `Money.ZeroMeansUnderHalfARupee` | src/compose/blocks.ts:48-60 | reads back as zero if and only if the figure is under half a rupee |
| `Money.CrPrintsZeroForARetailBook` | src/compose/blocks.ts:29-40 | the older printer reads every figure under half a crore as zero |

## Left out

- Alert edits and deletions: an edit starts a new history and a delete cascades the events, so neither touches the run theorems.
- Test-only reading overrides, user filters and dry runs.
- The e-mail provider's deduplication window and the rendering of the e-mail.
- PHS refresh, history backfill, relationship events and log-only scans: best-effort effects that change no modelled state.
- Interleavings inside one broker operation, other than the crash between the two writes of a connect: each is one step.
- The pruning of a user's expired authorization states when a new one is issued: an expired state is refused whether or
  not its row is still there.
- Encryption of sessions and their expiry dates: a session is a token, a liveness flag and an account reference; a missing key is the faulted probe.
- The refusal of a broker without an adapter inside `syncHoldings`, and the status read.
- Decimal column scales of quantities and costs: amounts are exact reals.
- Manual positions are read with their instrument's columns already joined. That a manual holding is the replay of its
  stored ledger is assumed of the ledgers a rescue reads; the ledger tables themselves are parameters.
- The sort of a stored ledger: a ledger is given in the order by trade date and entry time, and entries are put in their place.
- Transfers between two manual accounts (src/portfolio/transfer.ts:266-605) and edits that remove a manual holding: they
  write no connection, no bound account and no broker row. The length of an account's name, and which labels are brokers.
- The note on a rescued lot, the reply's deltas, and the order in which a rescue reads its rows, which is left open.
- `admitBareStock`: unreachable while the switch for unknown equities is off.
- The resolver's `heldNotScored`, `notCovered` and `unidentifiable` lists repeat its outcomes by kind; a failure of the audit report is not modelled.
- `UniverseResolver.ResolveHoldingsToUniverse`: assumes distinct symbols, which the broker's one row per symbol gives.
- `UniverseResolver.CatalogueAnswers`: assumes distinct symbols, for the same reason.
- `UniverseResolver.Renames`: assumes distinct symbols, for the same reason.
- `UniverseResolver.AdmitStrangers`: assumes distinct symbols, for the same reason.
- `UniverseResolver.OneOutcomeEach`: assumes distinct symbols, for the same reason.
- `UniverseResolver.AnswersAreIdentities`: assumes distinct symbols, for the same reason.
- `UniverseResolver.UnmappedExactly`: assumes distinct symbols, for the same reason.
- `SyncFlow.SyncHoldings`: assumes distinct symbols among the owned rows of a fetch; the snapshot itself is proved for any.
- `SyncFlow.RowsMirror`: assumes distinct symbols among the owned rows of a fetch, for the same reason.
- `SyncFlow.UnmappedAreOwned`: assumes distinct symbols among the owned rows of a fetch, for the same reason.
- Changes of tickers, stocks and their catalogue rows between two runs of the resolver.
- The synthetic-user filter and the 200-session cap of the nightly sweep; a distillation may be attempted at any time, which allows more runs.
- Deletion of chat sessions, and the retry that replaces an undelivered copy of its own message.
- The order in which the database hands back stored gap stamps, which breaks ties of the cut at eight.
- Stored stamps are those the fold wrote: an unparseable `lastSeenAt` is not modelled.
- The text of prompts, warnings and fallbacks: fixed texts are parameters, assumed non-blank where a lemma says so.
- The regular expressions of the event parser and of the moderation, advice and placeholder scans.
- Digit grouping and glyphs of printed money, and the null that prints as null.
- Binary floating point in `money` and in the attribution test: both are stated over exact amounts.

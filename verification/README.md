# Verified models of the Tyrum engines

The repository is mostly wiring, but it holds a dozen small engines with hard state or
arithmetic. This project models them in Dafny and proves what they are for.

- **Task result registry** (`TaskRegistry*.dfy`, `TaskResultRegistry.dfy`). Hands a node's result to
  whoever waits for it, whichever comes first. `TaskRegistryModel` gives each public operation and
  the timer callback as a function on the six maps, the armed timers and a history;
  `TaskResultRegistry.Registry` is the class, proved to take exactly those steps;
  `TaskRegistryEffects` says what each does to the maps, without those functions;
  `TaskRegistryInvariant` is what every step keeps; `TaskRegistryGuarantees`, `TaskRegistryAssociations` and
  `TaskRegistryDisconnects` are what callers get over whole runs. Promises are numbered; the history
  records every settlement, marking, acceptance and eviction.
- **Mobile location beacon stream** (`LocationStream*.dfy`, `LocationBeaconStream.dfy`). Every operation
  is the code between two awaits, so any interleaving of `start`, `stop`, native replies, positions
  and sends is a sequence of operations. The live native watches are part of the state.
- **Auto-sync manager** (`AutoSync*.dfy`). Ticks, reconnects, manual syncs and completions, with the
  multiset of `run` calls that have not settled.
- **Postcondition engine** (`Json.dfy`, `JsonPath.dfy`, `JsonResolve.dfy`, `PostconditionSpecs.dfy`,
  `Postconditions.dfy`).
- **Device ids** (`Base32.dfy`): a bit buffer in 32-bit words against section 6 of RFC 4648.
- **Migration runners** (`Migration*.dfy`): two engines, any statement may fail, files may be renamed
  between runs.
- **Normalisers and bounded selections**: `NormalForms.dfy` with `Capabilities.dfy` and `ToolIds.dfy`;
  `ContextPruning.dfy`; `DesktopUiTree.dfy`; `RecentActivity.dfy`; `ConversationKeys.dfy`.

`InsertionOrder.dfy` (maps that remember insertion order), `Text.dfy`, `Sorting.dfy`, `Powers.dfy`,
`Subsequences.dfy` and `Wrappers.dfy` are shared. Where the source changes state step by step there is
a class or a method with loops, tied by its `ensures` to a function; the promises are proved about
that function. What such a function does is said once more without it, of the fields before and after:
in the `*Effects` modules, `AutoSyncDelays` and the lemmas named `...Meaning`, `...Law` or `...Decides`, which
the methods promise as well.

## Assumptions the code relies on

- A timer that was cleared does not fire; one that is armed fires at most once.
- `AutoSyncTask.run` returns a promise; a call that throws instead is modelled too.
- `Geolocation.clearWatch` succeeds, and a `watchPosition` call that fails leaves no watch behind.
- Promise and store callbacks do not re-enter an object in the middle of a method.
- JSON objects and lookup tables are read by their own keys.
- Migration SQL does not commit by itself or edit `_migrations`; a failed transaction changes nothing.

## Where the code and an expectation differ

- The two baselines of the beacon stream need not agree on an empty send queue once a reset came in between.
  `LocationStreamGuarantees.BaselinesMeetExactly` says when they do, for every run;
  `ResetSplitsExactlyUnderWay` says which resets can do harm; `ResetWhileSendingSplitsBaselines` is a run
  in which a `stop` overtakes a beacon on its way.
- A `run` that throws at once leaves a promise stored for a task that is not in flight, for good
  (`AutoSyncGuarantees.ThrowLeavesTaskWedged`); promises and flights agree after a run exactly unless it made
  such a call (`FlightsMatchUnlessRunThrows`).
- Foreign keys are on after every exit of the SQLite runner but one: when the run reaches a marked file whose
  restoring pragma fails (`MigrationGuarantees.ForeignKeysRestored`, both directions;
  `FailingPragmaLeavesForeignKeysOff` is such a file).
- A printed path parses back exactly when its names are spelled without `.` and `[`, its last field does
  not end in a blank, and its indices are doubles (`JsonPath.PrintParseRoundTrip`, both directions;
  `DottedNameIsSplit` and `TrailingBlankIsLost` are lists that do not come back).
- Printing a parsed conversation key gives it back exactly when none of its parts is padded with blanks
  (`ConversationKeys.ParsePrintRoundTrip`, both directions; `PaddedPartIsTrimmed` is a padded key).
- An error kept for a task whose connection died can be pushed out by the errors of later tasks
  (`TaskRegistryDisconnects.DisconnectReachesNextWait`, both directions).
- A recent-activity limit below one still yields one row (`RecentActivity.SelectionLaw`).

## Model

| member | source | states |
|---|---|---|
| `TaskRegistryInvariant.StepKeeps` | packages/runtime-execution/src/task-result-registry.ts:48-259 | every public operation and every timer firing keeps the invariant: timers and pending waits in one-to-one correspondence, promises settled once, the memories disjoint, the two-way index exact, the bounds |
| `TaskRegistryInvariant.RejectTasksKeeps` | packages/runtime-execution/src/task-result-registry.ts:159-199 | the invariant with the index entry of the dying connection already gone holds before each task of the loop, and the full one after it |
| `TaskRegistryGuarantees.ReachableInv` | packages/runtime-execution/src/task-result-registry.ts:8-259 | the invariant holds in every state that any run from a fresh registry reaches |
| `TaskRegistryGuarantees.TimerExpiresItsOwnWait` | packages/runtime-execution/src/task-result-registry.ts:102-123 | a timer that fires expires exactly the wait that armed it, even if its task id was used again after eviction, and touches no other wait |
| `TaskRegistryGuarantees.SettledAtMostOnce` | packages/runtime-execution/src/task-result-registry.ts:62-199 | no promise is settled twice, by result, timeout or disconnect |
| `TaskRegistryGuarantees.OutcomeIsRecorded` | packages/runtime-execution/src/task-result-registry.ts:62-199 | how a promise ended is what the one settlement of it in the history says |
| `TaskRegistryGuarantees.UnsettledPromiseIsShared` | packages/runtime-execution/src/task-result-registry.ts:89-92 | over any run, a second wait for a task whose promise is not settled hands back that promise |
| `TaskRegistryGuarantees.SharedWait` | packages/runtime-execution/src/task-result-registry.ts:89-92 | a wait on a pending task changes nothing and returns the promise already there |
| `TaskRegistryGuarantees.ResultReachesPendingWait` | packages/runtime-execution/src/task-result-registry.ts:131-146 | a result for a waited-for task settles that promise, and that promise only |
| `TaskRegistryGuarantees.EarlyResultReachesNextWait` | packages/runtime-execution/src/task-result-registry.ts:80-87 | over any run between them, a result that came early is what the next wait receives, unless it was evicted |
| `TaskRegistryGuarantees.BufferedResultSurvives` | packages/runtime-execution/src/task-result-registry.ts:131-213 | no operation but a wait for its task loses or changes a buffered result, unless it is evicted |
| `TaskRegistryGuarantees.SecondAcceptNeedsEviction` | packages/runtime-execution/src/task-result-registry.ts:131-157 | `resolve` returns true twice for one id only if the id was evicted in between |
| `TaskRegistryGuarantees.DisconnectRejectsExactlyItsWaits` | packages/runtime-execution/src/task-result-registry.ts:159-199 | a disconnect rejects exactly the pending waits associated with the connection, returns their number, and leaves every other wait, result and association alone |
| `TaskRegistryDisconnects.DisconnectReachesNextWait` | packages/runtime-execution/src/task-result-registry.ts:68-74 | for a task nobody had heard of when its connection died, the wait that follows is refused with that disconnect exactly when fewer than `maxTerminal` such tasks of the connection come after it |
| `TaskRegistryDisconnects.StepKeepsError` | packages/runtime-execution/src/task-result-registry.ts:48-259 | no operation but a wait for its task loses or changes a kept error, unless the task is evicted from the terminal memory |
| `TaskRegistryDisconnects.DisconnectReachesLaterWait` | packages/runtime-execution/src/task-result-registry.ts:68-74 | over any run after the disconnect without a wait for the task, the next wait is refused with it, unless the task was evicted |
| `TaskRegistryGuarantees.TerminalIsMostRecentlyMarked` | packages/runtime-execution/src/task-result-registry.ts:201-213 | the terminal memory is exactly the `maxTerminal` ids whose last marking is newest, oldest first |
| `TaskRegistryGuarantees.MemoriesStayDisjoint` | packages/runtime-execution/src/task-result-registry.ts:62-213 | in every run pending, buffered and terminal are pairwise disjoint, kept errors belong to neither of the first two, and every memory is within its bound |
| `TaskRegistryGuarantees.RecentByLastMark` | packages/runtime-execution/src/task-result-registry.ts:201-205 | delete-then-set order is the order of last markings |
| `TaskRegistryGuarantees.AssociationsAreExactInverses` | packages/runtime-execution/src/task-result-registry.ts:215-258 | the two indexes are inverses of each other, hold no empty set, no terminal task and at most `maxAssociations` entries |
| `TaskRegistryRuns.OutcomesGrow` | packages/runtime-execution/src/task-result-registry.ts:62-199 | a settled promise keeps its outcome over any run |
| `TaskRegistryEffects.AssociateEffect` | packages/runtime-execution/src/task-result-registry.ts:48-60 | the effect of `associate` on every map, said of the maps before and after, as the class promises it |
| `TaskRegistryEffects.WaitEffect` | packages/runtime-execution/src/task-result-registry.ts:62-129 | the same for `wait`, case by case, with its reply |
| `TaskRegistryEffects.ResolveEffect` | packages/runtime-execution/src/task-result-registry.ts:131-157 | the same for `resolve`, with what it returns |
| `TaskRegistryEffects.DisconnectEffect` | packages/runtime-execution/src/task-result-registry.ts:159-199 | the same for a disconnect, task after task |
| `TaskRegistryEffects.TimerEffect` | packages/runtime-execution/src/task-result-registry.ts:102-110 | the same for a timer that goes off |
| `TaskRegistryAssociations.RunUndisturbs` | packages/runtime-execution/src/task-result-registry.ts:48-249 | over any run in which nothing concerns a task, its wait stays as it is, no result or error comes up for it, and its association stays unless as many others as the registry holds were made, and does not come back once gone |
| `TaskRegistryAssociations.AssociatedWaitIsDisconnected` | packages/runtime-execution/src/task-result-registry.ts:48-199 | associate a new task, let any run pass that leaves it alone, wait for it, and a disconnect of the connection rejects that promise, so long as the association was not pushed out, which takes as many others as the registry holds |
| `TaskRegistryAssociations.ConnectedWaitIsDisconnected` | packages/runtime-execution/src/task-result-registry.ts:62-199 | the same for a new wait that names its connection itself |
| `TaskResultRegistry.EvictOldest` | packages/runtime-execution/src/task-result-registry.ts:207-213 | the eviction loop leaves exactly the newest entries |
| `TaskResultRegistry.Registry.constructor` | packages/runtime-execution/src/task-result-registry.ts:30-40 | an empty registry; each limit is the configured number, or its default, cut to a whole number of at least one |
| `TaskResultRegistry.Registry.GetAssociatedConnectionId` | packages/runtime-execution/src/task-result-registry.ts:42-46 | looks the trimmed id up |
| `TaskResultRegistry.Registry.Associate` | packages/runtime-execution/src/task-result-registry.ts:48-60 | nothing for a blank id or a terminal task; otherwise the association becomes the newest, its connection lists the task last, a pending wait that knew no connection gets this one, and nothing else changes but that a full registry drops its oldest association with the error kept for it |
| `TaskResultRegistry.Registry.Wait` | packages/runtime-execution/src/task-result-registry.ts:62-129 | the whole decision of `wait`: refused for a blank id, with a kept error or for a terminal task; a buffered result handed over; a pending promise shared; or a new promise with its timer and delay, associated with the connection it names or the one already known |
| `TaskResultRegistry.Registry.Resolve` | packages/runtime-execution/src/task-result-registry.ts:131-157 | the whole decision of `resolve`: nothing for a blank, terminal or buffered id; the pending wait fulfilled and closed; or the result buffered as the newest, the oldest evicted from a full buffer |
| `TaskResultRegistry.Registry.RejectAllForConnection` | packages/runtime-execution/src/task-result-registry.ts:159-199 | the tasks the connection lists lose it in the order of the list, each pending one rejected and counted, each unheard one with its error kept as the newest |
| `TaskResultRegistry.Registry.OnTimeout` | packages/runtime-execution/src/task-result-registry.ts:102-110 | the wait that armed the timer, and only that one, ends as timed out and its task is the newest terminal one |
| `TaskResultRegistry.Registry.MarkTerminal` | packages/runtime-execution/src/task-result-registry.ts:201-205 | the id becomes the newest and the oldest beyond the bound are evicted |
| `TaskResultRegistry.Registry.ClearAssociation` | packages/runtime-execution/src/task-result-registry.ts:215-221 | removes the task from both indexes |
| `TaskResultRegistry.Registry.SetAssociation` | packages/runtime-execution/src/task-result-registry.ts:223-249 | moves the task to the connection as the newest association and restores the bound |
| `TaskResultRegistry.Registry.EvictAssociations` | packages/runtime-execution/src/task-result-registry.ts:239-248 | the eviction loop drops the oldest association, its index entry and its kept error |
| `TaskResultRegistry.Registry.RemoveTaskFromConnectionIndex` | packages/runtime-execution/src/task-result-registry.ts:251-258 | removes the task and drops the connection's set when it becomes empty |
| `LocationStreamGuarantees.StepKeepsWatchInv` | apps/mobile/src/mobile-location-stream.ts:107-183 | every step keeps the account of live watches and the link between the last reconcile and the latest desire |
| `LocationStreamGuarantees.StepKeepsStreamInv` | apps/mobile/src/mobile-location-stream.ts:107-247 | every step keeps the account of watches and the order and freshness of sends, and leaves at most one watch live |
| `LocationStreamGuarantees.AtMostOneLiveWatch` | apps/mobile/src/mobile-location-stream.ts:107-175 | at any moment of any interleaving at most one native watch is live |
| `LocationStreamGuarantees.QuietStreamMatchesDesire` | apps/mobile/src/mobile-location-stream.ts:118-170 | with the chain empty and no native error last, a watch is live exactly when streaming is desired on a native platform, with the options of the latest configuration |
| `LocationStreamEffects.LatestWishIsDesired` | apps/mobile/src/mobile-location-stream.ts:177-247 | in every run the desired and the active configuration are the one the last start asked for, or none after a stop, a disabled start or off a native platform |
| `LocationStreamEffects.QuietStreamServesLatestWish` | apps/mobile/src/mobile-location-stream.ts:92-170 | with the chain empty and no native error last, the one live watch has the interval of the configuration last asked for as timeout and the smaller of it and a minute as maximum age; with none asked for, nothing is live |
| `LocationStreamEffects.DesireEffect` | apps/mobile/src/mobile-location-stream.ts:177-247 | what a start or stop changes: the configuration, a new revision, one reconcile more, and the baselines unless the configuration stays the same |
| `LocationStreamEffects.ReconcileEffect` | apps/mobile/src/mobile-location-stream.ts:131-142 | a reconcile keeps a watch whose options are called for, and otherwise clears what runs on its way to the watch called for, if any |
| `LocationStreamEffects.PermissionEffect` | apps/mobile/src/mobile-location-stream.ts:144-156 | a watch starts exactly with permission and while the revision and options are still called for; a refusal is reported exactly unless superseded |
| `LocationStreamEffects.WatchEffect` | apps/mobile/src/mobile-location-stream.ts:150-169 | a started watch is kept exactly while still called for and is cleared again otherwise; a failure is reported exactly unless superseded |
| `LocationStreamEffects.PositionEffect` | apps/mobile/src/mobile-location-stream.ts:38-66 | a fix is accepted exactly when a configuration is active, streaming in the background or the document visible, the accuracy within bound, and there is no queued baseline or the interval has passed or the distance is reached; then it is the queued baseline and the last to send, and otherwise nothing changes |
| `LocationStreamEffects.TurnEffect` | apps/mobile/src/mobile-location-stream.ts:217-225 | the first sample is emitted exactly when a configuration is active and streams in the background or visibly, and is lost otherwise |
| `LocationStreamEffects.AnswerEffect` | apps/mobile/src/mobile-location-stream.ts:185-231 | an acknowledged sample is delivered and becomes the last one sent; any other is lost, and the queued baseline falls back only if it is that sample |
| `LocationStreamGuarantees.ChainDrains` | apps/mobile/src/mobile-location-stream.ts:131-175 | every step of the reconcile chain brings it closer to empty, and only `start` and `stop` lengthen it |
| `LocationStreamGuarantees.DeliveredInOrder` | apps/mobile/src/mobile-location-stream.ts:185-232 | in any run the delivered beacons are a subsequence of the accepted samples, in order |
| `LocationStreamGuarantees.BaselinesMeetWhenQueueIsEmpty` | apps/mobile/src/mobile-location-stream.ts:86-90 | over any stretch without a reset, with any failures and drops, the two baselines agree whenever the queue is empty |
| `LocationStreamGuarantees.BaselinesMeetExactly` | apps/mobile/src/mobile-location-stream.ts:81-90 | in every run, resets included, an empty queue finds the baselines equal exactly when a sample was accepted after the last reset or none was delivered after it |
| `LocationStreamGuarantees.ResetSplitsExactlyUnderWay` | apps/mobile/src/mobile-location-stream.ts:177-247 | a reset can lead, without another one, to an empty queue with different baselines exactly when a beacon is under way, or samples are queued and the stream goes on with another configuration |
| `LocationStreamGuarantees.ResetWhileSendingSplitsBaselines` | apps/mobile/src/mobile-location-stream.ts:177-195 | a run of start, position and its turn, then a stop while the beacon is on its way, ends with an empty queue and different baselines |
| `LocationStreamGuarantees.DeliveredBeaconsAreGated` | apps/mobile/src/mobile-location-stream.ts:51-66 | with no reset, failure or drop, delivered beacons are a prefix of the accepted ones and each passes the interval-or-distance gate against the one before |
| `LocationBeaconStream.BeaconStream.constructor` | apps/mobile/src/mobile-location-stream.ts:71-79 | nothing active, desired, watched or queued, which satisfies the stream invariant |
| `LocationBeaconStream.BeaconStream.Start` | apps/mobile/src/mobile-location-stream.ts:235-247 | the configuration becomes desired and active under a new revision with one reconcile more, unless it is disabled or not native, which stops; the stream invariant is kept, so at most one watch is live |
| `LocationBeaconStream.BeaconStream.Stop` | apps/mobile/src/mobile-location-stream.ts:177-183 | nothing is desired or active any more, the baselines are gone, and one reconcile more is enqueued; keeps the stream invariant |
| `LocationBeaconStream.BeaconStream.ReconcileWatchLifecycle` | apps/mobile/src/mobile-location-stream.ts:131-142 | the reconcile up to its first await, as a model step that keeps the stream invariant |
| `LocationBeaconStream.BeaconStream.ClearActiveWatch` | apps/mobile/src/mobile-location-stream.ts:107-116 | forgets the watch and suspends on clearing it |
| `LocationBeaconStream.BeaconStream.AfterClear` | apps/mobile/src/mobile-location-stream.ts:142-145 | from the cleared watch to the permission request, taking the revision it starts from; keeps the stream invariant |
| `LocationBeaconStream.BeaconStream.AfterRequestPermissions` | apps/mobile/src/mobile-location-stream.ts:145-156 | gives up if superseded, otherwise starts a watch; keeps the stream invariant |
| `LocationBeaconStream.BeaconStream.AfterWatchPosition` | apps/mobile/src/mobile-location-stream.ts:157-163 | keeps the watch, or turns to clearing it when superseded meanwhile; keeps the stream invariant |
| `LocationBeaconStream.BeaconStream.CatchError` | apps/mobile/src/mobile-location-stream.ts:164-169 | reports an error unless superseded |
| `LocationBeaconStream.BeaconStream.HandlePosition` | apps/mobile/src/mobile-location-stream.ts:197-217 | accepts a fix exactly when it should, said of the fields of the configuration, and then makes it the queued baseline and the last to send; keeps the stream invariant |
| `LocationBeaconStream.BeaconStream.RestoreQueuedBaseline` | apps/mobile/src/mobile-location-stream.ts:86-90 | rolls back only if the sample is still the queued baseline |
| `LocationBeaconStream.BeaconStream.SendTurn` | apps/mobile/src/mobile-location-stream.ts:219-225 | emits the first sample exactly when the stream still transmits and loses it otherwise; keeps the stream invariant |
| `LocationBeaconStream.BeaconStream.AfterBeacon` | apps/mobile/src/mobile-location-stream.ts:193-229 | delivery advances the sent baseline, failure rolls the queued one back; keeps the stream invariant |
| `AutoSyncGuarantees.EveryRunIsConsistent` | packages/operator-app/src/auto-sync.ts:101-265 | at every step boundary of every run: a promise is stored for a task exactly while it is in flight or after its `run` threw, a task in flight has one execution and any other none, syncing exactly when some task is in flight, and the failure count is the failures since the last success or reconnect |
| `AutoSyncGuarantees.FlightsMatchPromisesExactly` | packages/operator-app/src/auto-sync.ts:101-205 | in flight exactly when the promise is stored holds for all tasks exactly as long as every call of `run` returned a promise |
| `AutoSyncGuarantees.FlightsMatchUnlessRunThrows` | packages/operator-app/src/auto-sync.ts:101-265 | after a run, tasks are in flight exactly when their promises are stored, exactly unless the run called a `run` that threw instead of returning a promise |
| `AutoSyncGuarantees.BackoffWithinJitter` | packages/operator-app/src/auto-sync.ts:85-97 | after the n-th failure in a row the next attempt lies min(cap, interval doubled n - 1 times) ahead, give or take the jitter fraction plus one half, or exactly that without jitter |
| `AutoSyncDelays.BackoffIsMonotone` | packages/operator-app/src/auto-sync.ts:93-96 | min(cap, interval doubled n - 1 times) never decreases with n nor exceeds the cap |
| `AutoSyncDelays.BackoffReachesCap` | packages/operator-app/src/auto-sync.ts:93-96 | with a positive interval it reaches the cap and stays there |
| `AutoSyncDelays.BackoffDoubles` | packages/operator-app/src/auto-sync.ts:93-96 | the first delay is min(cap, interval), each further one min(cap, twice the one before) |
| `AutoSyncDelays.JitteredDelayLaw` | packages/operator-app/src/auto-sync.ts:85-91 | a jittered delay is the whole number nearest to the base moved by its jitter fraction in proportion to the draw, not below zero |
| `AutoSyncDelays.BackoffDelayLaw` | packages/operator-app/src/auto-sync.ts:93-97 | the computed backoff is that of min(cap, interval doubled n - 1 times) |
| `AutoSyncDelays.SuccessDelayLaw` | packages/operator-app/src/auto-sync.ts:99 | the delay after a success or for a disabled task is that of the interval |
| `AutoSyncEffects.SettleEffect` | packages/operator-app/src/auto-sync.ts:153-205 | a success clears failures and error, records its time and schedules the next attempt a jittered interval ahead; a failure counts one more, keeps the error and schedules the backoff; either forgets the promise |
| `AutoSyncEffects.RoundEffect` | packages/operator-app/src/auto-sync.ts:109-230 | a round starts exactly the idle, due and enabled tasks without a promise, in registration order, lets disabled ones pass for a jittered interval, and leaves every other task alone |
| `AutoSyncEffects.TickEffect` | packages/operator-app/src/auto-sync.ts:207-255 | a connected tick records its time and goes round the due tasks; a disconnected one changes nothing |
| `AutoSyncEffects.ReconnectEffect` | packages/operator-app/src/auto-sync.ts:232-251 | a reconnect forgets every failure and error, makes every task due now, and goes round all |
| `AutoSyncEffects.ManualEffect` | packages/operator-app/src/auto-sync.ts:257-265 | a manual sync is recorded only while connected and then goes round all tasks |
| `AutoSyncGuarantees.FailureSchedulesBackoff` | packages/operator-app/src/auto-sync.ts:176-196 | a failure rests the task until a time that lies the jittered min(cap, interval doubled n - 1 times) ahead, n being the failures since the last success or reconnect |
| `AutoSyncGuarantees.NoEarlyRestart` | packages/operator-app/src/auto-sync.ts:207-230 | with no reconnect and no manual sync, no tick before that delay has passed restarts the task |
| `AutoSyncGuarantees.DueTaskStarts` | packages/operator-app/src/auto-sync.ts:207-230 | a due, enabled task that never threw has exactly one execution under way after the next connected tick, reconnect or manual sync |
| `AutoSyncGuarantees.ThrowLeavesTaskWedged` | packages/operator-app/src/auto-sync.ts:153-205 | after a tick, reconnect or manual sync in which the `run` of a due task throws at once, no operation of any kind ever starts the task again, over every continuation |
| `AutoSyncGuarantees.SynchronousThrowWedgesTask` | packages/operator-app/src/auto-sync.ts:110-111 | a task whose `run` once threw is never in flight and never started again |
| `AutoSyncManager.FindDuplicate` | packages/operator-app/src/auto-sync.ts:56-62 | finds a repeated task id exactly when there is one |
| `AutoSyncManager.Manager.constructor` | packages/operator-app/src/auto-sync.ts:64-83 | every task idle with no failure, success or error, nothing in flight |
| `AutoSyncManager.Manager.UpdateIsSyncing` | packages/operator-app/src/auto-sync.ts:101-107 | `isSyncing` becomes whether some task is in flight |
| `AutoSyncManager.Manager.RunTask` | packages/operator-app/src/auto-sync.ts:109-205 | takes exactly the model's step, for a stored promise, an unknown or disabled task, a `run` that throws and one that does not |
| `AutoSyncManager.Manager.RunThrows` | packages/operator-app/src/auto-sync.ts:121-205 | the wrapper of a throwing `run` deletes the absent promise first and stores its own afterwards |
| `AutoSyncManager.Manager.RunAllEligible` | packages/operator-app/src/auto-sync.ts:207-230 | starts exactly the eligible tasks, in registration order |
| `AutoSyncManager.Manager.HandleConnected` | packages/operator-app/src/auto-sync.ts:232-251 | forgets every failure, makes every task due, then starts every idle and enabled one without a promise |
| `AutoSyncManager.Manager.Tick` | packages/operator-app/src/auto-sync.ts:253-255 | while connected records its time and starts exactly the idle, due and enabled tasks without a promise |
| `AutoSyncManager.Manager.SyncAllNow` | packages/operator-app/src/auto-sync.ts:257-265 | while connected records both times and starts exactly the idle and enabled tasks without a promise |
| `AutoSyncManager.Manager.OnSettled` | packages/operator-app/src/auto-sync.ts:153-205 | success or failure, field by field, with the next attempt scheduled after the jittered interval or backoff |
| `Json.DeepEqualIsMeaning` | packages/contracts/src/postcondition.ts:439-457 | true exactly for values that mean the same, objects read as maps from keys to values |
| `Json.OneWayInclusion` | packages/contracts/src/postcondition.ts:449-455 | equal key counts and one-way lookup force equal key sets |
| `Json.DeepEqualIsEquivalence` | packages/contracts/src/postcondition.ts:439-457 | reflexive, symmetric, transitive |
| `Json.SanitiseValue` | packages/contracts/src/postcondition.ts:387-398 | the redacted copy, filled member by member: the same value but for its strings, each of which is the placeholder |
| `Json.RedactionHidesExactlyStrings` | packages/contracts/src/postcondition.ts:387-398 | two values have the same redaction exactly when they differ in nothing but what strings say |
| `Json.SanitisedLaw` | packages/contracts/src/postcondition.ts:387-398 | a redaction differs from the value in its strings only, and each of them is the placeholder |
| `JsonPath.ParseJsonPath` | packages/contracts/src/postcondition.ts:316-371 | the parsing loop ends on every string and gives what the recursive grammar gives |
| `JsonPath.ParseMeaning` | packages/contracts/src/postcondition.ts:316-371 | a path is read as some tokens exactly if, trimmed, it is `$` followed by their spelling, and refused with the error of the first place where no token begins |
| `JsonPath.IntIsParsed` | packages/contracts/src/postcondition.ts:352-358 | an index is the nearest double to the digits that follow blanks and a sign |
| `JsonPath.ParsedIntShape` | packages/contracts/src/postcondition.ts:352-358 | nothing else is read as an index |
| `JsonPath.NearestDoubleLaw` | packages/contracts/src/postcondition.ts:352-358 | an index below 2^53 is itself, a larger one the nearest multiple of the power of two that leaves 53 digits, the even one half-way |
| `JsonPath.PrintParseRoundTrip` | packages/contracts/src/postcondition.ts:316-371 | printing a token list as a `$` path and parsing it gives the list back exactly when it is printable |
| `JsonPath.PrintableRoundTrips` | packages/contracts/src/postcondition.ts:316-371 | the condition suffices: good names, no trailing blank, indices that are doubles |
| `JsonPath.RoundTripsArePrintable` | packages/contracts/src/postcondition.ts:316-371 | the condition is needed |
| `JsonPath.DottedNameIsSplit` | packages/contracts/src/postcondition.ts:316-371 | a concrete list that does not come back: a dotted name is read as two fields |
| `JsonPath.TrailingBlankIsLost` | packages/contracts/src/postcondition.ts:316-371 | a concrete list that does not come back: a last field loses its trailing blank |
| `JsonPath.ParsedTokensAreGood` | packages/contracts/src/postcondition.ts:326-368 | parsed names are non-empty and hold neither `.` nor `[` |
| `JsonResolve.ResolveJsonPath` | packages/contracts/src/postcondition.ts:373-385 | the resolving loop follows one own member a token |
| `JsonResolve.ResolveMeaning` | packages/contracts/src/postcondition.ts:373-385 | a path resolves to exactly what its tokens lead to: members of objects, elements of arrays, and the keys an array itself has |
| `JsonResolve.ResolveConcat` | packages/contracts/src/postcondition.ts:373-385 | resolution composes over concatenated token lists |
| `JsonResolve.SanitiseCommutesWithResolve` | packages/contracts/src/postcondition.ts:373-398 | redacting and then resolving is resolving and then redacting |
| `JsonResolve.EveryLocationIsReachable` | packages/contracts/src/postcondition.ts:316-385 | every location that a path can spell is reached, whatever keys the rest of the tree holds: its printed path parses back to it and resolves to what sits there |
| `JsonResolve.LocationOf` | packages/contracts/src/postcondition.ts:373-385 | whatever occurs in a tree has a location |
| `PostconditionSpecs.ParseSpecification` | packages/contracts/src/postcondition.ts:107-136 | the parser with its metadata loop: the assertions and the members beside them, in order, or the error of the form or of the first bad item |
| `PostconditionSpecs.AssertionMeaning` | packages/contracts/src/postcondition.ts:145-211 | an item is read as an assertion exactly if its members say it, and refused for exactly the reason they do not |
| `PostconditionSpecs.SpecMeaning` | packages/contracts/src/postcondition.ts:107-143 | a specification is an array of assertions, an object listing them beside its metadata, or one assertion; otherwise the error is that of its form or of its first bad item |
| `PostconditionSpecs.EncodeParse` | packages/contracts/src/postcondition.ts:145-211 | an assertion is read back as written exactly when its status, if it has one, fits 16 bits |
| `PostconditionSpecs.SpecRoundTrip` | packages/contracts/src/postcondition.ts:107-211 | assertions written as an object with any metadata beside them are read back as they are |
| `PostconditionSpecs.SpecFormsAgree` | packages/contracts/src/postcondition.ts:107-143 | a bare array, an object around it and, for one item, the item itself mean the same |
| `Postconditions.EvaluatePostcondition` | packages/contracts/src/postcondition.ts:88-105 | succeeds exactly when the specification parses and every assertion has its evidence and a readable path; then one outcome per assertion with its statuses, selectors and redacted values, whether all passed, and the metadata; otherwise the error of the specification or of the first assertion lacking something, of that kind |
| `Postconditions.EvaluationDecides` | packages/contracts/src/postcondition.ts:88-313 | the same of the function the method computes |
| `Postconditions.AssertionDecides` | packages/contracts/src/postcondition.ts:213-313 | one assertion: its exact outcome when its evidence and path are there, its exact error when not |
| `Postconditions.EvaluationMeaning` | packages/contracts/src/postcondition.ts:88-313 | a report passes exactly when every assertion of the specification holds of the evidence, says so of each, and carries the metadata |
| `Postconditions.ReportMeaning` | packages/contracts/src/postcondition.ts:88-313 | an outcome is passed exactly when its assertion holds of the evidence, and a report exactly when all do |
| `Postconditions.EvaluationHidesStrings` | packages/contracts/src/postcondition.ts:88-398 | evidence that differs only in what the strings inside its JSON say gives the same error, or the same report when the verdicts are the same |
| `Base32.Base32LowerNoPad` | packages/contracts/src/device-id.ts:3-22 | for every byte sequence, despite wrap-around of `value`, the RFC 4648 base32 form, lower case and unpadded |
| `Base32.Encoded` | packages/contracts/src/device-id.ts:3-22 | its length is the ceiling of 8n/5 |
| `Base32.EncodedAt` | packages/contracts/src/device-id.ts:3-22 | letter k stands for bits 5k to 5k + 4 of the bytes, with zero bits past their end, in the alphabet a to z and 2 to 7 |
| `Base32.ReadByte` | packages/contracts/src/device-id.ts:8-10 | shifting a byte into the 32-bit buffer keeps the low bits meaningful, at most four of them carried between bytes |
| `Base32.EmitGroup` | packages/contracts/src/device-id.ts:11-14 | an emitted letter is the next five bits |
| `Base32.EmitLast` | packages/contracts/src/device-id.ts:17-19 | the short last group is filled with zero bits |
| `Base32.DecodeEncode` | packages/contracts/src/device-id.ts:3-22 | a decoder recovers the bytes |
| `Base32.DeviceIdsAreInjective` | packages/contracts/src/device-id.ts:24-26 | different digests give different device ids, each `dev_` and the encoding |
| `MigrationGuarantees.SqlCommitsAtMostOnce` | packages/gateway/src/migrate.ts:16-63 | over any sequence of runs, each failing anywhere, every file is recorded at most once, with its SQL only if no alias was recorded, without it only if one was |
| `MigrationGuarantees.RunRecordsPrefix` | packages/gateway/src/migrate.ts:42-62 | a run records a prefix of the unrecorded files in order, all of them if it returns normally |
| `MigrationGuarantees.SecondRunIsNoOp` | packages/gateway/src/migrate.ts:42-62 | after a normal return the next run changes nothing |
| `MigrationGuarantees.RunsInNameOrder` | packages/gateway/src/migrate.ts:38-40 | a run processes exactly the `.sql` files, each as often as listed, in the order of their names by code unit |
| `Sorting.StringLeqIsLexicographic` | packages/gateway/src/migrate.ts:38-40 | that order: a prefix first, else the smaller code unit where the names first differ |
| `MigrationGuarantees.FileProcesses` | packages/gateway/src/migrate.ts:43-61 | one file, fault by fault: its row is there with its SQL exactly if nothing failed before the commit and that took effect, and the reported stage is the first that failed, or the failed restoring pragma |
| `MigrationGuarantees.FilesProcess` | packages/gateway/src/migrate.ts:42-62 | a run processes the files in order up to the first that stops it |
| `MigrationGuarantees.ForeignKeysRestored` | packages/gateway/src/migrate.ts:51-57 | foreign keys are on after an exit, normal or thrown, exactly unless the run reaches a marked, unrecorded file without applied alias that switches them off and whose restoring pragma fails |
| `MigrationGuarantees.FailingPragmaLeavesForeignKeysOff` | packages/gateway/src/migrate.ts:51-57 | one concrete marked file and failing pragma that leave foreign keys off with the SQL committed |
| `MigrationModel.FindAppliedAlias` | packages/gateway/src/migration-aliases.ts:33-40 | an alias is found exactly when one is applied, and it is the first that is |
| `Migrations.Connection.Migrate` | packages/gateway/src/migrate.ts:31-63 | the SQLite loop processes the files in order up to the first that stops it, with the `applied` set in step with the table |
| `Migrations.Connection.MigrateOne` | packages/gateway/src/migrate.ts:44-60 | one unrecorded file, fault by fault, with try/finally around the pragmas |
| `Migrations.Connection.ApplyMigration` | packages/gateway/src/migrate.ts:25-29 | SQL and row in one transaction: the row is there exactly if the SQL ran and the commit took effect |
| `Migrations.Connection.MigratePostgres` | packages/gateway/src/migrate-postgres.ts:18-52 | the same of the Postgres loop |
| `Migrations.Connection.MigrateOnePostgres` | packages/gateway/src/migrate-postgres.ts:28-50 | one unrecorded file, fault by fault, between BEGIN and COMMIT or ROLLBACK |
| `ContextPruning.NormalizedLimits` | packages/runtime-agent/src/context-pruning.ts:9-31 | the limits exactly: defaults, no limit below 1, otherwise rounded down but at least 8, and spared messages rounded down but at least 2 |
| `ContextPruning.KeepLastToolMessages` | packages/runtime-agent/src/context-pruning.ts:39-42 | the most messages within both limits, and at least 2 |
| `ContextPruning.CountHead` | packages/runtime-agent/src/context-pruning.ts:57-62 | the first loop counts the leading run |
| `ContextPruning.SkipToolMessages` | packages/runtime-agent/src/context-pruning.ts:73-76 | the second loop stops at the first message that is no tool message |
| `ContextPruning.Compact` | packages/runtime-agent/src/context-pruning.ts:53-79 | with no configuration, a limit below 1 or no more messages than the limit the list stays as the library gave it; otherwise it is the leading run and the longest suffix within the limit that does not start with a tool message |
| `ContextPruning.CompactionLaw` | packages/runtime-agent/src/context-pruning.ts:57-79 | what is left when the list is too long: the whole leading run, then the longest suffix within the remaining budget that does not start with a tool message |
| `ContextPruning.CompactionKeepsToolsAttached` | packages/runtime-agent/src/context-pruning.ts:57-79 | if every tool message directly follows an assistant or tool message, it still does afterwards |
| `NormalForms.NormalMeaning` | packages/contracts/src/capability.ts:285-296 | a normal form has distinct settled ids in first-occurrence order, each with the payload seen last |
| `NormalForms.ExpandedMembers` | packages/contracts/src/capability.ts:285-296 | the expanded list holds exactly the expansions of the items, each with the payload of its item |
| `NormalForms.NormalIsIdempotent` | packages/contracts/src/capability.ts:285-296 | normalising twice is normalising once |
| `NormalForms.NormalOfConcat` | packages/contracts/src/capability.ts:285-296 | normalising either part of a concatenation first does not change the normal form of the whole |
| `Capabilities.ExpansionSettles` | packages/contracts/src/capability.ts:76-119 | no id that expansion produces is itself deprecated: expanding it again changes nothing |
| `Capabilities.CanonicalSettles` | packages/contracts/src/capability.ts:76-119 | no canonical id is a key of either table |
| `Capabilities.PlainExpansion` | packages/contracts/src/capability.ts:115-119 | an id that is no umbrella stands for its replacements if it has any, and else for itself |
| `Capabilities.SensorUmbrellas` | packages/contracts/src/capability.ts:259-283 | the mobile and browser umbrellas stand for the three sensors |
| `Capabilities.DesktopUmbrella` | packages/contracts/src/capability.ts:259-283 | the desktop umbrella stands for the desktop actions |
| `Capabilities.NormalizeCapabilityDescriptors` | packages/contracts/src/capability.ts:285-296 | the nested loops compute the normal form |
| `Capabilities.NormalizedDescriptors` | packages/contracts/src/capability.ts:269-296 | distinct, fully migrated ids in first-occurrence order with last-seen versions |
| `Capabilities.DescriptorsMeaning` | packages/contracts/src/capability.ts:285-296 | an id is in the result exactly if some descriptor stands for it, with the version of such a descriptor |
| `Capabilities.NormalizationLaws` | packages/contracts/src/capability.ts:285-296 | idempotence and independence of how a list is split |
| `ToolIds.PushAll` | packages/contracts/src/tool-id.ts:16-20 | pushing each id the first time it is seen builds the normal form |
| `ToolIds.EntryMeaning` | packages/contracts/src/tool-id.ts:1-66 | what an entry stands for in each of the three lists: nothing if blank, the replacement of a legacy id, the members of a legacy group, and any other id itself, trimmed |
| `ToolIds.NormalIdsMeaning` | packages/contracts/src/tool-id.ts:16-42 | a list holds each id once, exactly those its entries stand for |
| `ToolIds.CanonicalizeToolIdList` | packages/contracts/src/tool-id.ts:27-42 | the list form of canonicalisation, with group expansion: each id once, exactly those the entries stand for |
| `ToolIds.NormalizeStringIdList` | packages/contracts/src/tool-id.ts:44-55 | trimming and removal of duplicates only: each id once, exactly the trimmed entries that are not blank |
| `ToolIds.CanonicalizeExactToolIdList` | packages/contracts/src/tool-id.ts:57-69 | canonicalisation without group expansion: each id once, exactly those the entries stand for |
| `ToolIds.CanonicalListMeaning` | packages/contracts/src/tool-id.ts:27-42 | exactly the ids the entries stand for, each once, in first-occurrence order, none of them legacy |
| `ToolIds.CanonicalizationLaws` | packages/contracts/src/tool-id.ts:22-42 | idempotence and independence of how a list is split |
| `ToolIds.ExactListLaws` | packages/contracts/src/tool-id.ts:57-69 | the same for the exact form |
| `DesktopUiTree.CheckTree` | packages/contracts/src/desktop.ts:103-145 | accepts a tree of any shape exactly when it has at most 2048 nodes and their texts at most 32768 characters; an issue names a budget that is exceeded |
| `DesktopUiTree.TotalsMeaning` | packages/contracts/src/desktop.ts:103-145 | the recursive totals are the number of nodes of the forest, in pre-order, and the length of all their texts |
| `RecentActivity.BuildTranscriptConversationsByKey` | packages/operator-app/src/recent-activity.ts:291-299 | a key is present exactly when some conversation has it, with the last such conversation |
| `RecentActivity.ConversationRowMeaning` | packages/operator-app/src/recent-activity.ts:154-193 | a conversation has a row exactly if it names a latest turn, has a known status or an active turn; every field of the row, from that turn where the store holds it |
| `RecentActivity.TurnRowMeaning` | packages/operator-app/src/recent-activity.ts:195-239 | every field of the row of a turn, with the fallbacks for its conversation and agent |
| `RecentActivity.OrderMeaning` | packages/operator-app/src/recent-activity.ts:127-152 | newest first; at the same time rows by id, conversations by key, turns by descending id |
| `RecentActivity.ActivityRowsMeaning` | packages/operator-app/src/recent-activity.ts:301-331 | the merged rows are exactly those of some conversation or some turn |
| `Sorting.SortIsStable` | packages/operator-app/src/recent-activity.ts:160-254 | elements that tie keep their order, as `toSorted` promises |
| `RecentActivity.BuildConversationActivityRows` | packages/operator-app/src/recent-activity.ts:154-193 | the rows of the conversations that show activity, newest first, up to the limit |
| `RecentActivity.BuildTurnFallbackRows` | packages/operator-app/src/recent-activity.ts:195-239 | a row for every turn, newest first, up to the limit |
| `RecentActivity.SelectNewestRowsByConversation` | packages/operator-app/src/recent-activity.ts:252-269 | the loop with its early exit keeps the first row of each conversation in order, up to the limit |
| `RecentActivity.SelectionLaw` | packages/operator-app/src/recent-activity.ts:241-269 | min(limit, number of conversations) rows, sorted, one a conversation, each a newest of its conversation, and no conversation left out has a row before a selected one |
| `RecentActivity.BuildRecentActivityState` | packages/operator-app/src/recent-activity.ts:301-331 | the selection over the merged rows, with 8 as default limit |
| `RecentActivity.EveryTurnIsRepresented` | packages/operator-app/src/recent-activity.ts:301-331 | while the list is not full, every turn's conversation is shown with activity at least as recent as that turn |
| `RecentActivity.EveryActiveConversationIsRepresented` | packages/operator-app/src/recent-activity.ts:301-331 | while the list is not full, so is every conversation that shows activity |
| `ConversationKeys.BuildsResolvedAddress` | packages/contracts/src/keys.ts:87-158 | a key is built exactly when every part its scope uses is non-blank and colon-free after trimming, and is the key of the resolved address |
| `ConversationKeys.BuiltKeyText` | packages/contracts/src/keys.ts:87-158 | the text of a built key for each configured scope, for none with a known or unknown number of senders, and for groups and channels |
| `ConversationKeys.BuildFailure` | packages/contracts/src/keys.ts:119-158 | the peer is reported missing exactly when the agent is sound, the scope needs a peer and it is missing or blank; any other failure is a bad part |
| `ConversationKeys.ParseOfBuilt` | packages/contracts/src/keys.ts:294-363 | parsing a built key returns the resolved scope, channel, account and peer or container id |
| `ConversationKeys.SameKeyIffSameAddress` | packages/contracts/src/keys.ts:126-158 | two inputs give the same key exactly when they resolve to the same address |
| `ConversationKeys.PatternsAreDisjoint` | packages/contracts/src/keys.ts:164-219 | no string matches two of the six patterns |
| `ConversationKeys.BuiltKeyMatchesOnePattern` | packages/contracts/src/keys.ts:164-219 | a built key matches exactly one pattern, the one of its address |
| `ConversationKeys.AgentKeysAreThePatterns` | packages/contracts/src/keys.ts:294-363 | parsing accepts as agent keys exactly the strings that match a pattern and have no blank part |
| `ConversationKeys.AgentKeyErrors` | packages/contracts/src/keys.ts:294-363 | an agent key that is refused is malformed if its agent is missing or its literals are those of no pattern, and has a bad part otherwise |
| `ConversationKeys.OtherKeys` | packages/contracts/src/keys.ts:294-363 | exactly which cron, hook and node keys are read, and the error of each kind of malformed key |
| `Text.TrimLaw` | packages/contracts/src/keys.ts:119-124 | trimming takes away blanks at both ends and nothing else |
| `ConversationKeys.PaddedPartIsTrimmed` | packages/contracts/src/keys.ts:294-363 | one concrete padded key that is read and printed without its blank |
| `ConversationKeys.ParsePrintRoundTrip` | packages/contracts/src/keys.ts:294-363 | printing a parsed key gives it back exactly when no part is padded with blanks |

## Left out

- Registry: `TaskResult` payloads are one value, error messages are datatype constructors, and a caller changing a map from outside is not modelled.
- Strings: a `char` stands for one UTF-16 code unit; case folding, localised comparison and UUID recognition are parameters.
- Numbers: options that are NaN are not modelled; decimal path indices are rounded to doubles, other arithmetic is over reals.
- Location stream: `isNativePlatform` is constant over a run; the distance is an uninterpreted function; beacon payload fields beyond the sample are dropped; the promises returned by `start` and `stop` are not tracked.
- Auto-sync: the clock is read once per synchronous stretch; `dispose` and the interval timer are left out, every `tick` being an operation of its own; error formatting is a string.
- Postconditions: `checkPostcondition`, which turns a report into one line of text, and the message texts.
- `Postconditions.EvaluationHidesStrings`: covers the parts of an outcome that messages are made of, but not the texts themselves, because they only rephrase the code, path and statuses an outcome holds.
- Migrations: the alias table is a parameter, so the results hold for every table; a ROLLBACK that fails is the end of a connection whose transaction is discarded.
- Context pruning: the library's `pruneMessages` is not part of this model; compaction starts from an arbitrary list.
- Recent activity: labels, titles and agent names of rows are dropped; they play no part in the selection.
- Conversation keys: the workspace and tenant key schemas, and the pattern of `hook` keys beyond a UUID predicate.
- UI trees: the field schemas of nodes.
- HTTP routes, dependency wiring, the CLI, database drivers, React components and hooks, zod field lists, the URL normaliser and `haversineDistanceMeters`: I/O, field lists and library work.

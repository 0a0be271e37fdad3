# RotomNG: allocation, keep-alive and accounting

A Dafny model of the state machines at the centre of RotomNG, a proxy that lends MITM workers on
devices to controllers, with proofs of what they keep over whole runs.

| module | models |
|---|---|
| SelectorModel, SelectorViews, SelectorRuns, SelectorLaws, Scoring, Selector | the worker selector: queues, counters, rate limit, choice of a device |
| History | the sliding-window selection limiter |
| ManagerModel, Manager | the connection manager's locked sections and close handlers |
| ManagerRuns, Scenario, NoLeaks, TableAgreement, Selectability, Requests, Traffic | whole runs of the manager |
| ConnStats, MitmDevice | connection statistics and the device that carries them over |
| CountDuration | the time-bucket ring buffer |
| KeepAlive | the ping and data timeout loop (RFC 6455, sections 5.5.2 and 5.5.3) |
| Commands, CommandReplies | device commands and their replies, between many callers and one reader |
| Writer, WriterAnswers | the background writer and Flush |

How to read it:

- The selector, the manager, the history, the ring buffer, the statistics, the device and the keep-alive
  loop are classes with the source's fields and loops. Each method's contract equates the abstract state
  after it with a function of the state before it. Runs are sequences of those functions, over values.
- What runs under one lock is one step. A controller registration is several: a claim, and later
  success or a give-back, which holds the selector's lock alone. So a worker's registration and its close, which
  change both the selector and the manager's table, are two steps each (`ManagerRuns.Section`).
  The background closes the manager starts are events that come at any time.
- Commands and Writer are interleavings: one action is one locked section, channel operation or write
  outcome of one goroutine, and a run is any sequence of actions whose guards hold.
- SelectorLaws, Requests, CommandReplies, WriterAnswers and the last section of CountDuration say what a run comes to in
  terms of its calls, events or actions alone, without the functions that carry them out.
- Times are integers (nanoseconds), scores are reals, a map is walked in an arbitrary order, and a
  connection's identity is its serial. Clocks, socket outcomes, identifiers and settings are parameters.
- Properties that turned out to need a condition have it proved exact: `SelectorRuns.RemovalIsExact`,
  `TableAgreement.GiveBackAgreesExactly`, `Traffic.TrafficIsConserved`, `KeepAlive.SurvivalIsExact`,
  `Writer.NilMisleadsExactlyWhenCancelled`, `Selectability.SwitchedAsRequested`.
  The runs on the failing side stand beside them.

Where code and comments differ, the model follows the code: the scoring comment at
libs/selector/balanced_selector.go:81 speaks of scores of about 0 to 100 and the one at line 90 of a
multiplier, while the code multiplies by ten times that multiplier as well, so penalised scores are 10 to
200 times larger; minPositiveDuration is said to return -1 when neither duration is positive and returns the
second one; and RegisterDeviceConnection's comment says selection was disabled when there was no
prior connection, which is so except after an enable request made meanwhile (`Selectability.SwitchedAsRequested`).

## Model

| member | source | states |
|---|---|---|
| `ManagerRuns.ExclusiveAllocation` | libs/connections/manager.go:187-291 | In every run, under any interleaving of joins, closes, claims, give-backs, completions, deletes and prunes: no worker connection is held by two controller registrations, completed or not; a held one is never queued; no two controllers in the manager's table got the same connection |
| `NoLeaks.NothingLeaks` | libs/connections/manager.go:187-291 | In every reachable state a worker connection the selector holds live is either on offer and held by no registration, or not on offer and held by exactly one: none is leaked |
| `NoLeaks.ClaimKeepsHeld` | libs/connections/manager.go:187-223 | What a claim takes off the queue, its own registration holds |
| `NoLeaks.GiveBackKeepsHeld` | libs/connections/manager.go:245-254 | A give-back puts back on offer what its registration held, and everything else taken stays held |
| `NoLeaks.NothingNewTaken` | libs/connections/manager.go:293-305 | No other event takes a live connection off the queue |
| `ManagerRuns.JoinKeepsExclusive` | libs/connections/manager.go:525-545 | Taking a worker's registration up, replacement included, keeps exclusive allocation |
| `ManagerRuns.EntryKeepsExclusive` | libs/connections/manager.go:547-575 | So does its end, the table entry and the announcement |
| `ManagerRuns.ClaimKeepsExclusive` | libs/connections/manager.go:187-191 | A claim, successful or not, keeps exclusive allocation |
| `ManagerRuns.GiveBackKeepsExclusive` | libs/connections/manager.go:244-254 | A failed registration's give-back, even of a connection that has since closed or been replaced, keeps exclusive allocation |
| `ManagerRuns.CompleteKeepsExclusive` | libs/connections/manager.go:271-291 | Entering a controller in the table keeps exclusive allocation, and each controller tied to the registration that claimed its worker |
| `ManagerRuns.NothingNewOnOffer` | libs/connections/manager.go:293-305 | Closes, device events, requests, deletes, prunes and settings changes make no connection available that was not |
| `TableAgreement.TablesAgree` | libs/connections/manager.go:541-596 | In every run whose give-backs are harmless, wherever they fall, and with a half-done section finished: a connection is in workersByDeviceID exactly when the selector holds it live; neither table names a device the manager does not know; and any delete the manager accepts also removes the device from the selector |
| `TableAgreement.GiveBackAgreesExactly` | libs/connections/manager.go:245-254 | From tables on the way to agreement, at rest or between the two steps of a registration or close, a give-back keeps them so if and only if the worker is current in the table that section leaves, or is being replaced by it; the give-back makes no such test |
| `TableAgreement.StaleGiveBackBreaksAgreement` | libs/connections/manager.go:244-254 | A concrete run: a worker that closes during a registration which then fails is on offer again with no entry in the manager's table |
| `TableAgreement.CurrentGiveBackCanBreakAgreement` | libs/connections/manager.go:579-584 | A concrete run: a give-back between the two steps of the worker's own close is of a connection still in the table, and breaks the agreement too |
| `TableAgreement.StaleGiveBackRevivesADevice` | libs/connections/manager.go:682-712 | A concrete run: a give-back after the device's delete brings it back in the selector alone, switched on |
| `TableAgreement.RunKeepsTidy` | libs/connections/manager.go:541-596 | Agreement, and knowing no device the manager does not, are kept along any run whose give-backs are harmless |
| `TableAgreement.JoinKeepsAgree` | libs/connections/manager.go:541-575 | Registering or replacing a worker keeps the tables in agreement |
| `TableAgreement.CloseKeepsAgree` | libs/connections/manager.go:578-589 | A worker's close, stale or not, keeps the tables in agreement |
| `TableAgreement.DeleteRemovesFromSelector` | libs/connections/manager.go:682-712 | Under agreement, a delete the manager accepts leaves the selector without the device |
| `TableAgreement.DeleteKeepsAgree` | libs/connections/manager.go:682-712 | A delete keeps the tables in agreement |
| `TableAgreement.TablesUntouched` | libs/connections/manager.go:447-497 | Device connections, requests, prunes, claims, completions and settings change no entry of the manager's table and no live connection of the selector |
| `Selectability.SwitchedAsRequested` | libs/connections/manager.go:447-497 | In every reachable state, from the device's flag: off means off in the selector; connected and on means not off there; without a connection it is known to the selector and on there exactly if an enable request flipped it meanwhile, so never in runs without such a request (Requests.LastRequestDecides ties the flag to the requests) |
| `Selectability.JoinKeepsSelectable` | libs/connections/manager.go:528-535 | A worker that comes before its device's control connection, or after, keeps every device switched as requested |
| `Selectability.DeviceJoinKeepsSelectable` | libs/connections/manager.go:447-479 | So does a control connection, first or replacing another |
| `Selectability.DeviceCloseKeepsSelectable` | libs/connections/manager.go:481-497 | So does the close of one, current or superseded |
| `Selectability.RequestsKeepSelectable` | libs/connections/manager.go:771-802 | So do the user's enable and disable requests |
| `Selectability.NothingFlipped` | libs/connections/manager.go:780-782 | In a run where no request switches on an unconnected device, no device joins the exception |
| `Selectability.FlippedDeviceIsSelected` | libs/connections/manager.go:771-785 | A concrete run: a device switched off, disconnected and switched on again by request has no connection, is on in the selector, and a claim hands out its worker |
| `Requests.LastRequestDecides` | libs/connections/manager.go:771-802 | In every reachable state, from the events alone: a device whose last request since it came into the table is a disable is reported off and is off in the selector, connected or not when it was asked; one last enabled or never asked about is reported on, and is not off in the selector while connected; one without a connection is on in the selector exactly if an enable followed a disable while it had none, with neither a connection nor a disable since |
| `Requests.DevicesComeAndGo` | libs/connections/manager.go:682-712 | A device comes into the table by a registration with no empty name, its own or a worker's, and leaves it by a delete while it has neither a connection nor a worker in the table, and in no other way |
| `Requests.DeviceAfter` | libs/connections/manager.go:420-497 | Flag, connection and origin after every event: the flag changes by requests alone, the connection is that of the last to join until it is closed, the origin that of the last to join |
| `Requests.TableHoldsTheRegistered` | libs/connections/manager.go:541-589 | In every reachable state a worker connection is in the table if and only if its registration ended, no other ended under the same ids since, and its close has not |
| `Requests.ControllersAreTold` | libs/connections/manager.go:271-290 | Along any run the controller under a uuid is the last completed there and not closed since, with the worker its registration claimed |
| `Requests.ClaimBearsItsWeight` | libs/connections/manager.go:187-223 | A controller's claim puts its weight, brought into 1 to 10, on the very worker its registration holds |
| `Requests.ForgottenAfterTenMinutes` | libs/connections/manager.go:293-305 | The manager's prune makes the selector forget a connection exactly if it left ten minutes ago or more |
| `Requests.RefusalsAreExact` | libs/connections/manager.go:682-712 | Every refusal of a registration, a request or a delete, and the order in which they are made |
| `Traffic.TrafficIsConserved` | libs/connections/manager.go:447-497 | In every reachable state, per device: each control connection accepted has been folded exactly once, in order, but for the current one; the device never reports more than they have counted; its counts are the sum of theirs if and only if along the run none of them counted more when it was no longer the device's own; and the whole report, timestamps included, is that sum if and only if, besides, no such late activity is more recent than what is reported |
| `Traffic.LateTrafficIsLost` | libs/mitm/deviceconn.go:471-478 | The failing side, from every such state: whatever a replaced or closed connection of the device still counts leaves the report as it is and short of the sum |
| `Traffic.ReplacedConnectionLosesTraffic` | libs/connections/manager.go:471-478 | A concrete run: a connection is replaced and then reads a message; 0 messages are reported and 1 was counted |
| `Traffic.MissedOnTheRun` | libs/connections/manager.go:447-497 | Along any run, the connections whose counts are missed are exactly those that counted more when not their device's own |
| `Traffic.CloseChangesOnlyTheUnfolded` | libs/connections/manager.go:481-494 | In every reachable state a control connection's close changes anything, in the manager, the selector or the reports, if and only if the connection has not been folded yet; closing twice changes nothing more |
| `Traffic.ReportedAgainstWire` | libs/mitm/device.go:120-127 | Under the invariant of conservation, the report against the sum of what the connections counted: never more; the same counts if and only if none is missed; the same altogether if and only if, besides, no late activity is more recent than the report |
| `Traffic.ReportedNeverFalls` | libs/mitm/device.go:120-127 | No event (traffic, replacement, close, anything) lowers a total or moves back a timestamp a device reports |
| `Traffic.ReportedOnlyGrows` | libs/mitm/device.go:120-127 | The same over any number of events, from any reachable state, while the device is not deleted |
| `Traffic.JoinBalances` | libs/connections/manager.go:447-479 | When a control connection joins: connections accepted are still those folded, in order and once each, then the current one, and the past total is the sum of the folds |
| `Traffic.CloseBalances` | libs/connections/manager.go:486-490 | The same when the current connection closes |
| `Traffic.CloseReports` | libs/connections/manager.go:486-490 | The moment of a close leaves the reported statistics exactly as they were |
| `ManagerModel.DeletionOrderIsFree` | libs/connections/manager.go:665-677 | Deleting all unconnected devices gives one result whatever order the map is walked in |
| `ManagerModel.StillDeletable` | libs/connections/manager.go:665-671 | Deleting some devices changes no other device's answer to a delete |
| `Manager.ConnectionManager.constructor` | libs/connections/manager.go:86-103 | A new manager has empty tables |
| `Manager.ConnectionManager.RegisterWorker` | libs/connections/manager.go:503-576 | The refusals for empty ids and origin; otherwise the whole new state, as ManagerModel.WorkerRegistered gives it |
| `Manager.ConnectionManager.WorkerConnClosed` | libs/connections/manager.go:578-589 | The worker's close handler: selector first, then the table entry only if it is this connection's |
| `Manager.ConnectionManager.RegisterDeviceConnection` | libs/connections/manager.go:420-479 | The refusals; the fold of the replaced connection, the swap, and the switch to on only without a prior connection |
| `Manager.ConnectionManager.DeviceConnClosed` | libs/connections/manager.go:481-497 | The control connection's close handler on the device object it captured acts as ManagerModel.DeviceClosed does on the device's id, also after a replacement or a delete |
| `Manager.ConnectionManager.EnableDevice` | libs/connections/manager.go:771-785 | Error for an unknown device, and nothing changed; otherwise the flag is on, and the selector is told only of a change |
| `Manager.ConnectionManager.DisableDevice` | libs/connections/manager.go:788-802 | Error for an unknown device, and nothing changed; otherwise the flag is off, connected or not, and the selector is told only of a change |
| `Manager.ConnectionManager.DeleteUnconnectedDeviceID` | libs/connections/manager.go:682-712 | The three refusals in order; otherwise the device leaves both tables and, when nothing is assigned there, the selector |
| `Manager.ConnectionManager.DeleteUnconnectedDevices` | libs/connections/manager.go:650-679 | Removes exactly the devices that could be deleted one by one, and counts them |
| `Manager.ConnectionManager.ClaimWorker` | libs/connections/manager.go:187-223 | The weight is clamped and a best worker claimed, as SelectorModel.MayPick allows |
| `Manager.ConnectionManager.GiveBackWorker` | libs/connections/manager.go:245-254 | The unconditional give-back |
| `Manager.ConnectionManager.RegisterController` | libs/connections/manager.go:271-284 | Tries identifiers until one is not taken, so no controller in the table is overwritten |
| `Manager.ConnectionManager.ControllerConnClosed` | libs/connections/manager.go:286-290 | The controller's close handler |
| `Manager.ConnectionManager.PruneSelectorWorkerIDs` | libs/connections/manager.go:293-305 | Prunes what has been gone for ten minutes |
| `MitmDevice.MitmDevice.AccumulateStats` | libs/mitm/device.go:38-42 | Adds a connection's statistics to the device's, nothing for no connection |
| `MitmDevice.MitmDevice.SwapConn` | libs/mitm/device.go:50-52 | Answers the previous connection |
| `MitmDevice.MitmDevice.CompareAndSwapConn` | libs/mitm/device.go:55-57 | Swaps only from the expected connection |
| `MitmDevice.MitmDevice.WebsocketStats` | libs/mitm/device.go:120-127 | Session and total, leaving the stored statistics alone |
| `MitmDevice.MitmDevice.SetSelectionEnabled` | libs/mitm/device.go:141-143 | Answers whether the flag changed |
| `ConnStats.ConnStats.Add` | libs/ws/stats.go:29-49 | Counts add up, timestamps keep the latest |
| `ConnStats.ConnStats.LastSeenAt` | libs/ws/stats.go:53-61 | The running maximum is one of the four timestamps, and none is later |
| `ConnStats.ConnStats.SetMessageReceived` | libs/ws/stats.go:63-67 | One message and its bytes more; nothing falls while the clock does not run backwards |
| `ConnStats.ConnStats.SetMessageSent` | libs/ws/stats.go:69-73 | One message and its bytes more; nothing falls while the clock does not run backwards |
| `ConnStats.ConnStats.SetPongReceived` | libs/ws/stats.go:75-77 | A pong moves its own timestamp and no other |
| `ConnStats.LastSeenOfPlus` | libs/ws/stats.go:26-61 | Merged statistics were last seen when either part was |
| `ConnStats.SumOfBoth` | libs/ws/stats.go:29-49 | Merging sessions in two batches gives what merging them one by one gives |
| `ConnStats.SessionWithinSum` | libs/ws/stats.go:29-49 | No merged session exceeds the total in any count or timestamp |
| `ConnStats.SumCountsExactly` | libs/ws/stats.go:29-49 | Of sessions that have only grown, the merged counts are the same if and only if every session's are |
| `ConnStats.SumExactly` | libs/ws/stats.go:29-49 | The merged statistics are the same altogether if and only if, besides, no session has become more recent than the merged total |
| `ConnStats.MergedInPlainNumbers` | libs/ws/stats.go:29-49 | Merged sessions in plain numbers: every count is the sum of theirs, every timestamp the latest of theirs |
| `SelectorRuns.EveryReachableStateAccounts` | libs/selector/base_selector.go:119-286 | After any calls whatever: every seen worker is exactly one of queued once, assigned with weight 1 to 10, or gone; the counters are the number, histogram and sum of the assigned weights; and whatever is queued has positive capacity |
| `SelectorModel.Apply` | libs/selector/base_selector.go:119-286 | Every call on the selector keeps that accounting on every device |
| `SelectorModel.AnnounceAccounts` | libs/selector/base_selector.go:163-194 | SetWorkerAvailable keeps it, releasing a re-announced worker's assignment or its place in the queue |
| `SelectorModel.DepartAccounts` | libs/selector/base_selector.go:196-217 | SetWorkerUnavailable keeps it, and does nothing for a connection that was replaced |
| `SelectorModel.ClaimAccounts` | libs/selector/base_selector.go:119-131 | Claiming keeps it |
| `SelectorModel.ForgetAccounts` | libs/selector/base_selector.go:271-286 | Pruning forgets only workers neither queued nor assigned, so no counter moves |
| `SelectorModel.WeightWithinCapacity` | libs/selector/balanced_selector.go:52-57 | 0 <= currentWeight <= 10 times the workers seen, so a scored device never divides by zero |
| `SelectorViews.LiveIsQueuedOrAssigned` | libs/selector/base_selector.go:133-149 | A connection the selector holds and has not marked gone is queued or assigned |
| `SelectorViews.AvailableViews` | libs/selector/base_selector.go:163-194 | Exactly the announced connection becomes live and queued, exactly its predecessor under the same ids ceases to be, and an unknown device is created switched on |
| `SelectorViews.UnavailableViews` | libs/selector/base_selector.go:196-217 | Exactly the departing connection ceases to be live and queued; a stale departure disturbs no replacement |
| `SelectorViews.SelectedViews` | libs/selector/balanced_selector.go:22-109 | What a selection hands out was queued and is exactly what leaves the queues; no connection becomes live or ceases to be, no device is switched |
| `SelectorViews.DeadIsRemoved` | libs/selector/base_selector.go:251-266 | A device without live connections is removed on request |
| `SelectorRuns.BoundedBypass` | libs/selector/base_selector.go:119-217 | A connection queued behind i others, not announced again, not reported gone itself and its device not removed, is handed out by the (i+1)-th later claim on the device, whatever else happens, the late close of a connection it replaced and refused removals included; until then it is queued no further back |
| `SelectorRuns.DepartMovesUp` | libs/selector/base_selector.go:208-216 | A departure under the same ids of a connection since replaced leaves the queued one in place; any other only makes room |
| `SelectorRuns.RateLimit` | libs/selector/history.go:61-107 | Over any stretch of calls with an enabled, unchanged limit and a nondecreasing clock, in which the device is not removed while its history holds a selection of the last Duration, no window (t - Duration, t] holds more than MaxSelections of its selections |
| `SelectorRuns.RemovalForgetsTheLimit` | libs/selector/base_selector.go:251-266 | A concrete run: a device removed and announced again exceeds the limit, because its history went with it |
| `SelectorRuns.RemovalIsExact` | libs/selector/base_selector.go:251-266 | In any state whose history mirrors a log within an enabled limit, a removal leaves every continuation within the limit if and only if the history, pruned at the time of the removal, is empty |
| `SelectorRuns.ForgottenIsUnsafe` | libs/selector/base_selector.go:251-266 | After a removal with recent history some continuation exceeds the limit, from every such state: the other devices switched off, and MaxSelections rounds of announcing and selecting one worker |
| `SelectorRuns.HistoryIsTheRecentLog` | libs/selector/history.go:93-107 | Over any such stretch from an empty selector, the pruned history is the log of the device's selections filtered to the window |
| `SelectorLaws.SelectionFollowsFromTheCalls` | libs/selector/balanced_selector.go:22-109 | After any calls from an empty selector that leave the limit alone: a selection answers None if and only if every device has nothing queued, is switched off or, the limit being enabled, was selected MaxSelections times or more in (now - Duration, now], counted in the calls since it came in; the device picked is none of these, and no other such device is lighter, compared in integers: handicap times weight borne over workers seen |
| `SelectorLaws.SteadySelectionFollowsFromTheCalls` | libs/selector/balanced_selector.go:22-109 | The same with all the calls' selections of a device counted, over a stretch that removes none with recent history |
| `SelectorLaws.LimitOffNeverRefuses` | libs/selector/history.go:69-76 | With the limit off, some device switched on with a worker queued means that a worker is handed out |
| `SelectorLaws.PickHandsOut` | libs/selector/base_selector.go:119-131 | What is handed out is the connection of the worker at the head of the picked device's queue, and nothing when no device is picked |
| `SelectorLaws.PenaltyIsHandicap` | libs/selector/balanced_selector.go:84-93 | The penalty at every distance from the last selection: 200 less 10 for each half minute gone by, 1 from ten minutes on or if never selected, and more than 200 for a clock run backwards |
| `SelectorLaws.RankInPlainNumbers` | libs/selector/balanced_selector.go:73-93 | Ranks compare as handicap times (weight borne + weight) over workers seen do, cross-multiplied |
| `SelectorLaws.LimitFollowsFromTheCalls` | libs/selector/base_selector.go:303-305 | After any calls the limit is the last one given that is off or has both numbers positive |
| `SelectorLaws.SelectionAssigns` | libs/selector/base_selector.go:119-131 | The worker handed out bears the weight asked for if that is 1 to 10, 5 for less and 10 for more, and no other worker's weight changes |
| `SelectorLaws.AnnouncedGoesToTheBack` | libs/selector/base_selector.go:177-193 | An announced id ends the queue, taken from its place if it was queued already, and no other changes place |
| `SelectorLaws.DepartedLeavesTheQueue` | libs/selector/base_selector.go:208-216 | A departing connection leaves its place in the queue, no other changes place, and the time it left is kept |
| `SelectorLaws.ForgottenExactlyAfter` | libs/selector/base_selector.go:277-284 | A connection that left is forgotten by a prune exactly when the given time or more has passed; one that has not left never is |
| `History.PruneOfSorted` | libs/selector/history.go:93-107 | On a history in time order, pruning is filtering |
| `History.BelowMaxMeansFew` | libs/selector/history.go:69-76 | Not at the maximum means fewer selections in the window than the maximum, whatever was pruned before |
| `History.RecordRemembers` | libs/selector/history.go:61-65 | Recording forgets nothing that can still matter |
| `History.PruneIdempotent` | libs/selector/history.go:93-107 | Pruning twice is pruning once |
| `History.SelectionHistory.PruneTo` | libs/selector/history.go:93-107 | The reslicing loop drops entries up to the first one after the cutoff |
| `History.SelectionHistory.Record` | libs/selector/history.go:61-65 | Prunes, then appends |
| `History.SelectionHistory.IsAtMaxSelections` | libs/selector/history.go:69-76 | Prunes even when the limit is off, and answers whether the limit is reached |
| `Scoring.ScoresCompareAsRanks` | libs/selector/balanced_selector.go:73-93 | Comparing two devices' scores is comparing penalty times projected load: the ideal ratio drops out |
| `Scoring.ScoreIsScaledRank` | libs/selector/balanced_selector.go:73-93 | A score is the device's rank times one positive factor common to all devices |
| `Scoring.IdealIsShared` | libs/selector/balanced_selector.go:78-79 | The ideal ratio is the same for every device |
| `Scoring.PenaltyFalls` | libs/selector/balanced_selector.go:84-93 | The penalty is 1 or 10 to 200, and falls as time since the last selection passes |
| `Scoring.SelectionIsPenalized` | libs/selector/balanced_selector.go:84-93 | A device just selected has penalty 200 for exactly thirty seconds, 1 from exactly ten minutes on, and 10 to 200 between |
| `Scoring.LoadBound` | libs/selector/balanced_selector.go:34-98 | When no eligible device was selected within ten minutes, the chosen one's new load is at most the pooled load of all n eligible devices with the weight on each |
| `Scoring.PooledSplits` | libs/selector/balanced_selector.go:39-57 | The totals do not depend on the order the devices are met in |
| `Selector.BalancedSelector.GetAvailableWorker` | libs/selector/balanced_selector.go:22-109 | For every order of the map: the pick is an eligible device of least rank, none exactly when none is eligible, the single-device shortcut agrees; the connection handed out heads the pick's queue; and the whole new state |
| `Selector.BalancedSelector.CollectEligible` | libs/selector/balanced_selector.go:34-57 | The first loop finds exactly the eligible devices, prunes the histories it looks at, and totals their weights and capacities |
| `Selector.BalancedSelector.LeastScore` | libs/selector/balanced_selector.go:68-98 | The scoring loop returns a device of least score |
| `Selector.SelectableDevice.ComputeScore` | libs/selector/balanced_selector.go:74-93 | One round of it computes Scoring.Score |
| `Selector.PickLeast` | libs/selector/balanced_selector.go:63-98 | The least score found by the loop is the least rank over all devices |
| `Selector.SelectableDevice.Examine` | libs/selector/balanced_selector.go:40-50 | The eligibility checks in order; only a device that passes the first two has its history pruned |
| `Selector.SelectableDevice.ClaimWorker` | libs/selector/base_selector.go:119-131 | Hands out the head of the queue and updates every counter; the whole new state |
| `Selector.SelectableDevice.RemoveWorker` | libs/selector/base_selector.go:133-149 | Undoes an assignment, or takes the worker out of the queue; the worker stays seen |
| `Selector.SelectableDevice.WorkerAvailable` | libs/selector/base_selector.go:177-193 | The announced connection takes over the slot of its id, at the back of the queue; the whole new state |
| `Selector.SelectableDevice.WorkerUnavailable` | libs/selector/base_selector.go:208-216 | Marks the connection gone only if it is the one held; the whole new state |
| `Selector.SelectableDevice.PruneWorkerIDs` | libs/selector/base_selector.go:277-284 | Forgets exactly the ids gone for the given time |
| `Selector.SelectableDevice.HasAssignedWorker` | libs/selector/base_selector.go:259-264 | Answers whether any worker of the device is assigned |
| `Selector.BalancedSelector.AddNewDevice` | libs/selector/base_selector.go:151-161 | A device with nothing seen and nothing used |
| `Selector.BalancedSelector.SetWorkerAvailable` | libs/selector/base_selector.go:163-194 | Nothing for a zero worker; creates an unknown device, enabled; the whole new state |
| `Selector.BalancedSelector.SetWorkerUnavailable` | libs/selector/base_selector.go:196-217 | Nothing for a zero worker or an unknown device; the whole new state |
| `Selector.BalancedSelector.EnableDevice` | libs/selector/base_selector.go:228-236 | Only a known device is switched on |
| `Selector.BalancedSelector.DisableDevice` | libs/selector/base_selector.go:239-249 | An unknown device is created switched off |
| `Selector.BalancedSelector.RemoveDeadDevice` | libs/selector/base_selector.go:251-266 | Removes the device unless a worker of it is assigned |
| `Selector.BalancedSelector.PruneWorkerIDsSeen` | libs/selector/base_selector.go:271-286 | Prunes every device, in any order |
| `Selector.BalancedSelector.PutSettings` | libs/selector/base_selector.go:303-305 | Stores a new limit only if it is valid |
| `CountDuration.WindowCountsTheLog` | libs/stats/count_duration.go:54-144 | For a window of k whole buckets within the maximum, all k are scanned and cutoff lies in (now - window, now - window + d] |
| `CountDuration.AnyWindowCountsTheLog` | libs/stats/count_duration.go:54-144 | After any calls at nondecreasing times, any window is answered with the total of the events since headTime - (k-1)d, k the buckets scanned: nothing for less than a bucket, a cutoff less than two buckets after now - window within the ring, the oldest bucket beyond it |
| `CountDuration.PlaySummarizes` | libs/stats/count_duration.go:54-91 | After any calls each bucket holds exactly the logged events of its own interval |
| `CountDuration.BulkResetRotates` | libs/stats/count_duration.go:60-69 | The bulk reset equals that many single rotations |
| `CountDuration.NextHeadRotates` | libs/stats/count_duration.go:71-78 | One modular step of the head and a cleared bucket is one rotation |
| `CountDuration.AdvanceRestoresHead` | libs/stats/count_duration.go:54-79 | Advancing restores headTime <= now < headTime + d, aligned to the creation time |
| `CountDuration.AdvancesOnlyForward` | libs/stats/count_duration.go:54-62 | A time within the head bucket or before it moves nothing on: what is added then goes into the head bucket |
| `CountDuration.Collector.AdvanceTo` | libs/stats/count_duration.go:54-79 | Both paths act on the logical ring as the same number of rotations |
| `CountDuration.Collector.RotateOnce` | libs/stats/count_duration.go:73-78 | One step of the modular head is one rotation of the logical ring |
| `CountDuration.Collector.BulkReset` | libs/stats/count_duration.go:63-71 | Clearing every bucket is that many rotations |
| `CountDuration.Collector.AddEvent` | libs/stats/count_duration.go:82-91 | Advances, then adds to the newest bucket; the event joins the record of calls that the ring stays faithful to |
| `CountDuration.Collector.GetWindows` | libs/stats/count_duration.go:102-144 | After any calls at nondecreasing times, each window's periods hold the plain sums of the counts and of the durations of the events logged since its cutoff, with their number, from the later of now - window and the creation time until now |
| `CountDuration.Collector.SumWindow` | libs/stats/count_duration.go:112-141 | One turn of its loop: the newest buckets the window covers, summed up |
| `CountDuration.WindowIsPlainSums` | libs/stats/count_duration.go:54-144 | The same of the logical ring, for any window: the events at or after the end of the bucket in progress less the whole buckets scanned, summed in integers |
| `CountDuration.TotalInPlainNumbers` | libs/stats/count_duration.go:82-91 | What the log comes to in an interval: the sum of its counts, the sum of its durations, and how many events |
| `CountDuration.Collector.constructor` | libs/stats/count_duration.go:42-51 | One bucket more than the window, all empty |
| `CountDuration.NewCountDurationCollector` | libs/stats/count_duration.go:31-51 | No collector for a geometry that does not divide; otherwise one of the whole geometry, but a panic or a collector without buckets for a negative one |
| `KeepAlive.ResponsivePeerSurvives` | libs/ws/wsconn.go:404-477 | With Timeout = Interval + PongWait, wake-ups late by at most delta and pings answered within PongWait - delta, the ping timeout fires in no run that begins with activity no older than the floor |
| `KeepAlive.SurvivalIsExact` | libs/ws/wsconn.go:404-477 | For all intervals, waits, delays, starts and first turns: the ping timeout fires in no such run if and only if the loop begins with activity no older than its own lastPing or, where a ping is due at once, than Interval plus delay before the first turn |
| `KeepAlive.StaleActivityKills` | libs/ws/wsconn.go:404-477 | Below that floor, always, there is a run in which the peer answers every ping in time and is declared dead |
| `KeepAlive.DeathIsExact` | libs/ws/wsconn.go:404-495 | Over any run with late wake-ups and settings changes: a timeout is declared no earlier than its deadline and at most one delay after it or after the last change, and at no earlier turn was an enabled timeout out |
| `KeepAlive.DecisionIsUnique` | libs/ws/wsconn.go:404-477 | What a turn must do is determined |
| `KeepAlive.PingsAreWrittenWhenDue` | libs/ws/wsconn.go:421-439 | Over any run, from the turns alone: a turn writes a ping if and only if the last one is an interval old and the write succeeds; the run ends with PingWriteFailed exactly at the first turn where one is due and its write fails |
| `KeepAlive.PongResetsOnlyThePingTimeout` | libs/ws/wsconn.go:443-456 | Of two turns that differ only in a later pong: the ping, the ping's failure and the data deadline are the same; the ping timeout fires in the second if and only if it does in the first and the pong is not recent enough; the data timeout fires in the second if and only if it does in the first, or is out there behind a ping timeout that the pong prevents; and a sleep stays a sleep, no shorter |
| `KeepAlive.DataResetsBothTimeouts` | libs/ws/wsconn.go:443-456 | The same for data received later, which prevents either timeout exactly when it is recent enough |
| `KeepAlive.Conn.TimeoutLoop` | libs/ws/wsconn.go:404-477 | Every turn of the loop decides as Decides says, lastPing carries over, and the first error stays |
| `KeepAlive.Conn.CheckTimeout` | libs/ws/wsconn.go:483-495 | Dead exactly at or after the deadline; otherwise what remains, or -1 when disabled |
| `KeepAlive.LaterTime` | libs/ws/wsconn.go:498-503 | The later of two times |
| `KeepAlive.MinPositiveDuration` | libs/ws/wsconn.go:507-518 | The smaller of two positive durations; the positive one of two; the second when neither is positive |
| `Commands.ReaderNeverBlocksOrPanics` | libs/mitm/deviceconn.go:480-558 | In every interleaving the reader's send finds an open channel with room, and every close an open channel |
| `Commands.ReturnedCallsAreClean` | libs/mitm/deviceconn.go:518-558 | A returned call got a reply with its own id or an error, never a closed channel's zero value; its id is out of the map; its channel is closed exactly once |
| `Commands.MapNamesOnlyLiveCalls` | libs/mitm/deviceconn.go:518-541 | The map names only calls between their listing and their leaving, each under its own id |
| `Commands.LateAndDuplicateRepliesAreDropped` | libs/mitm/deviceconn.go:480-503 | A reply to a call that returned or was answered changes nothing |
| `CommandReplies.FirstReplyReachesItsCaller` | libs/mitm/deviceconn.go:480-503 | In every run: a reply is the first with a call's id to arrive between the call's listing and its leaving if and only if it is in the reader's hands for the call, in its channel, or received by it |
| `CommandReplies.ResultsAreEarned` | libs/mitm/deviceconn.go:518-558 | A call has a result if and only if it received, failed to write, timed out or was cancelled, and the result says which; a reply received is that first one |
| `CommandReplies.PlaceFollowsFromActions` | libs/mitm/deviceconn.go:518-558 | Where a call is in executeCommand follows from which of its own steps have happened |
| `CommandReplies.RepliesAreDroppedExactly` | libs/mitm/deviceconn.go:480-503 | An arriving reply is dropped if and only if no call awaits it; otherwise the reader takes that call out of the map and turns to its channel |
| `CommandReplies.NoCallIsStuck` | libs/mitm/deviceconn.go:518-558 | A waiting call whose first reply arrived can receive that very reply, after at most the reader's send; without one it can time out or be cancelled; a call with a result can leave |
| `Commands.StepKeepsInv` | libs/mitm/deviceconn.go:480-558 | Each atomic step keeps the life cycle of every call's channel |
| `Writer.WireIsAPrefixOfTheQueue` | libs/ws/wsconn.go:536-572 | What was written is always the messages of a prefix of the queue, in order, and the counters are their number and bytes |
| `Writer.FlushMeansWritten` | libs/ws/wsconn.go:285-289 | A Flush that returned nil: every message queued before it was written |
| `Writer.WriteMeansWritten` | libs/ws/wsconn.go:578-614 | The same for a waiting write, its own message included, if its context was never cancelled |
| `Writer.CancelledWriteCanReportSuccess` | libs/ws/wsconn.go:560-566 | A concrete run: a cancelled write can return nil although its message was never written |
| `Writer.NilMisleadsExactlyWhenCancelled` | libs/ws/wsconn.go:560-614 | For every reachable state, whatever the writer is doing, and every waiting write it has not taken yet: the write can come to return nil unwritten, without a further cancellation, if and only if its caller is already cancelled and has no answer yet and the writer is not halted, that is stopped or dealing with a write that failed |
| `Writer.CancelledWriteCanAlwaysMislead` | libs/ws/wsconn.go:536-572 | The failing side, from every such state with the writer not halted: it finishes what it has in hand, the writes before this one succeed, its own fails, and the caller reads nil from the closed channel |
| `Writer.HaltedTakesNoMore` | libs/ws/wsconn.go:536-572 | Once a write has failed or the writer has stopped, no run takes another ticket |
| `Writer.UnwrittenIsTheFailedWrite` | libs/ws/wsconn.go:536-614 | In every reachable state a message reported written is missing from the wire exactly when it is the one whose write failed, and then its caller was cancelled |
| `WriterAnswers.ResultsAreExact` | libs/ws/wsconn.go:560-614 | In every reachable state: a result is one its caller collected; a write error only that of a waiting message whose own write failed, the last ticket taken and not on the wire, so never of a flush; nil that of a ticket answered whose write did not fail, or of a cancelled caller that was skipped; the others those of a cancelled context or a closed connection |
| `WriterAnswers.CallersCanCollectExactly` | libs/ws/wsconn.go:560-614 | What a waiting caller without a result can be told, both ways: a write error if and only if its own write failed and it was answered; nil if and only if it was answered and its write did not fail, or its channel was closed without an answer |
| `WriterAnswers.DealtWithMeansAnswered` | libs/ws/wsconn.go:556-566 | A caller the writer is through with and that was not cancelled has been answered: it can collect a write error and not nil if its write failed, and nil and not a write error otherwise, a flush always nil |
| `WriterAnswers.WireIsWhatWasWritten` | libs/ws/wsconn.go:536-572 | A message is on the wire if and only if its socket write was made and succeeded; a failed write is that of the last ticket taken |
| `Writer.MessagesOfMembers` | libs/ws/wsconn.go:536-572 | The prefix's messages are exactly those queued in it, in ascending order |

## Left out

- Commands and Writer: the messages map, the channels and the counters are values of a transition system rather than objects updated in place; what the goroutines do between two steps that others can see is not modelled.
- Writer: calls refused before anything is queued (closed connection, cancelled context), reader pools and the closing handshake are not modelled.
- SelectorRuns.RemovalIsExact: RemoveDeadDevice reads no clock; the time of its call is a parameter of the model.
- SelectorLaws.SelectionFollowsFromTheCalls: over stretches that leave the limit alone; a change of Duration makes the history forget more or less than the new window needs.
- CountDuration.NewCountDurationCollector: what Go does with a collector without buckets, once it is used, is not modelled.
- Manager.ConnectionManager.DeviceConnClosed: presumes that a control connection is registered once and that serials identify connections.
- Manager.ConnectionManager.RegisterController: presumes that some identifier tried is free; the generator is a parameter.
- 64-bit overflow of counters and durations, rounding of float64 scores, and the initial bestScore's role as a maximum are abstracted by unbounded integers and reals.
- Settings are read once per selection; a change of the limit in the middle of one selection's walk is not modelled.
- Worker statistics carried over on replacement (libs/connections/manager.go:550-567), device version, public address and memory, and the origin gauges kept per device total.
- The prune's panic recovery, background closes as goroutines and Wait; logging and Prometheus counters.
- WebSocket framing, dialing, TLS, HTTP handlers, protobuf and JSON encoding, authentication, jobs, tracking, settings files and the UI.
- Snapshots (GetDevices, GetStatus, Clone) and the read-only getters: easy members.

# Meeting notifier owner and its companions: a verified model

This project models, in Dafny, the durable state machine at the heart of the
meeting notifier and four smaller programs beside it, and proves what their runs
keep.

**The meeting-notifier owner.** Every calendar occurrence moves through seven
phases with two revision counters, retry backoff and a phase to resume. One
reducer takes ticks, polls, activity results, launch results and notification
events. `Meetings`, `Order` and `Wrappers` hold the shared values. `Storage`, `Events`, `Retry`, `Scheduler`, `Expiry`, `Reconcile`,
`ReducerNotifications`, `PollHealth` and `Reducer` model it twice: as methods that
rewrite the maps of a `Draft` object in any map order, and as functions those
methods are proved equal to. `TickOutcomes`,
`PollOutcomes`, `NoticeOutcomes` and `EffectOutcomes` tell field by field what each
kind of accepted event leaves and asks for, without those functions. `Pointwise`,
`Closure`, `Lifetimes`, `Runs`, `Finality`, `Backoff` and `Draining` prove what the
reducer does to one key, to one event and over whole runs with restarts; `Incidents`
holds concrete runs.

**Owner, runtime, workers and transport.** `Control` and `Owner` give the commit
rule and the runtime's flags, slots and counters as values; `Runtime` holds the
`Runtime` and `Loop` objects, proved equal to them. `System` lets the owner's
stages, the four workers and the notification transport interleave in any order.
`Interleavings`, `WriteAhead`, `Handshake` and `Conservation` prove slot
discipline, write-ahead order, the delivery handshake and work conservation in
every reachable state. `Executions` shows that executions are runs, so that
soundness, staleness and backoff hold of the commands handed out; `PollRetries` and
`ActivityChecks` say when accounts are polled and activity is looked at.

**Companions.** `Authorization` and `AuthorizationRuns`: the per-account
authorization file under concurrent setups and token refreshes. `Broker`: the
PassFF broker's cache, in-flight table and lock as asyncio segments.
`MetadataIndex`: incremental maintenance of the PassFF index against a rebuild.
`PassItems`, `Payloads`, `Migration`, `MigrationRuns`, `MigrationIndex` and `MigrationReruns`:
the password-store migration planner.

## Assumptions

- Times are nanoseconds as natural numbers; 0 is the zero time. Run theorems take
  event times that do not go backwards.
- Notification ids from the server are non-zero and not held by another
  occurrence when they are delivered
  (`org.freedesktop.Notifications.Notify` in the D-BUS Protocol section of the
  Desktop Notifications Specification).
- The key hash used for close jitter and the URL policy are parameters; the
  theorems hold for all of them. So are the text normalizations of the migration,
  of which the theorems use only that the migration's own field names are normal,
  and the entry-name normalization of the metadata index, used where it fixes the
  names involved.
- A save is told apart as done, failed before the file was replaced, or failed
  after it.

## Where the code does not do what one might expect

- A cancelled or vanished meeting can come back when its close completes.
  `Finality.RemovedMeetingReturns` gives the exact condition, which covers polls that
  both list and remove the key; `Incidents.CancelledMeetingReturnsExample` and
  `Incidents.ListedAndCancelledReturnsExample` are runs of either kind.
- A positive acknowledgement does not always mean that the delivery was recorded:
  `Handshake.PositiveAckMeans` gives the exact condition,
  `Incidents.StaleYetPersistedExample` an instance.
- Revision counters restart when an occurrence is deleted and created again, so
  staleness is stated per lifetime of a key: `Incidents.RevisionsRestartExample`.
- A second migration can create an entry the first one skipped:
  `MigrationIndex.SkippedIsCreatedExactly` says exactly when,
  `MigrationReruns.SkippedIsCreatedExample` gives two runs.

## Model

| member | source | states |
|---|---|---|
| `Storage.Validate` | modules/home/desktop/services/meeting-notifier/internal/storage/state.go:113-142 | the loop over the occurrences accepts a state exactly when it satisfies the declarative field rules of `Valid`: unknown phase, resume phase and reason texts and duplicate notification ids are refused |
| `Storage.ValidIffFieldsFit` | modules/home/desktop/services/meeting-notifier/internal/storage/state.go:190-243 | read field by field: an occurrence is valid exactly when every field belongs to its phase, such as a join time to joined, a close reason to a pending close, action times to what is shown |
| `Storage.NotificationIndex` | modules/home/desktop/services/meeting-notifier/internal/storage/state.go:144-155 | builds the exact inverse of the id field, or fails exactly when two occurrences share an id |
| `Storage.UniqueIffIndexed` | modules/home/desktop/services/meeting-notifier/internal/storage/state.go:144-155 | an index that inverts the id field exists if and only if the ids are unique |
| `Storage.IndexUnique` | modules/home/desktop/services/meeting-notifier/internal/storage/state.go:144-155 | there is at most one such index, so loop and specification build the same |
| `Storage.NormalizedIdempotent` | modules/home/desktop/services/meeting-notifier/internal/storage/state_migration.go:5-28 | for a copied state: normalizing a normal state changes nothing, normalizing twice is normalizing once, and normal states are exactly the fixed points |
| `TickOutcomes.StartLeaves` | modules/home/desktop/services/meeting-notifier/internal/daemon/daemon.go:88-112 | a start takes over every stored occurrence, with the revisions an older program did not write set to one, aged to the time of the start, and everything else as it is |
| `Drafts.Draft.NormalizeLegacy` | modules/home/desktop/services/meeting-notifier/internal/storage/state_migration.go:5-28 | rewriting the map in place, in any order, gives the pointwise normal form and reports whether anything changed |
| `Retry.DelayClosedForm` | modules/home/desktop/services/meeting-notifier/internal/daemon/retry.go:15-34 | the shifted and capped delay is min(2^(n-1), 15) minutes for every attempt n >= 1 |
| `Retry.BackoffWindow` | modules/home/desktop/services/meeting-notifier/internal/daemon/retry.go:15-50 | with any jitter source the next attempt after a failure at t lies between t + 1 min and t + 18 min 45 s, for account retries and notification retries alike |
| `Scheduler.OrderedOccurrenceKeys` | modules/home/desktop/services/meeting-notifier/internal/daemon/scheduler.go:27-40 | collecting the keys in any map order and sorting them gives the one sorted sequence of the ranks |
| `Scheduler.OrderedKeysIsPermutation` | modules/home/desktop/services/meeting-notifier/internal/daemon/scheduler.go:27-40 | that sequence holds every key of the map exactly once, in (start, key) order |
| `Scheduler.SortedUnique` | modules/home/desktop/services/meeting-notifier/internal/daemon/scheduler.go:27-40 | there is only one such sequence, so the map order cannot show |
| `Scheduler.OldestNotificationEffect` | modules/home/desktop/services/meeting-notifier/internal/daemon/scheduler.go:42-57 | the scan over the sorted keys returns the effect of the least ready notification or close |
| `Scheduler.OldestLaunchEffect` | modules/home/desktop/services/meeting-notifier/internal/daemon/scheduler.go:80-88 | the same for the least occurrence that is join-pending |
| `Scheduler.OldestAuthWarningEffect` | modules/home/desktop/services/meeting-notifier/internal/daemon/scheduler.go:59-78 | the same for pending warnings by (creation time, account) |
| `Scheduler.PendingEffectsOf` | modules/home/desktop/services/meeting-notifier/internal/daemon/scheduler.go:11-25 | at most one notification and one launch, in that order, as the specification selects them |
| `Scheduler.SelectionIsLeastReady` | modules/home/desktop/services/meeting-notifier/internal/daemon/scheduler.go:42-88 | something is chosen exactly when something is ready, the chosen item is ready and no ready item precedes it: backed-off items never block ready ones |
| `Order.LessAtFirstDifference` | modules/home/desktop/services/meeting-notifier/internal/daemon/scheduler.go:27-40 | keys are compared where they first differ, and a proper prefix goes first |
| `EffectOutcomes.EffectsMean` | modules/home/desktop/services/meeting-notifier/internal/daemon/scheduler.go:11-110 | every effect of an accepted event, field by field: a notify command carries the revision, the id to replace, summary, label and start of a pending meeting that starts within the lead time and is not waiting, and offers "join"; a close its id; a launch its URL, account and join revision; a check comes from a tick with a meeting due; a warning command carries its revision and account |
| `EffectOutcomes.EffectsAskForAll` | modules/home/desktop/services/meeting-notifier/internal/daemon/scheduler.go:11-110 | and whenever a notification or close is ready, a join pending, or a tick finds a meeting due, some such effect is among them |
| `EffectOutcomes.ChosenGoesFirst` | modules/home/desktop/services/meeting-notifier/internal/daemon/scheduler.go:42-88 | the one that is asked for belongs to the earliest start, and among equal starts to the least key |
| `EffectOutcomes.OldestWarningGoesFirst` | modules/home/desktop/services/meeting-notifier/internal/daemon/scheduler.go:59-78 | of the warnings that are ready the oldest is asked for, and among equals the least account |
| `Scheduler.HasDue` | modules/home/desktop/services/meeting-notifier/internal/daemon/scheduler.go:112-119 | answers whether some scheduled meeting is due, whatever order the map is walked in |
| `Expiry.Prune` | modules/home/desktop/services/meeting-notifier/internal/daemon/expiry.go:11-38 | removing from the maps while walking them in any order gives the pointwise pruned maps |
| `Expiry.ExpireNotifyPending` | modules/home/desktop/services/meeting-notifier/internal/daemon/expiry.go:40-60 | the same for pending notifications of meetings that have started |
| `TickOutcomes.TickLeaves` | modules/home/desktop/services/meeting-notifier/internal/daemon/expiry.go:11-60 | an accepted tick, field by field: what is scheduled, pending or joined goes when its meeting is over, at its end or two hours after its start; what is shown or being joined is closed then or when its action has expired; history goes with its action; all else only ages |
| `TickOutcomes.OnlyPollsTouch` | modules/home/desktop/services/meeting-notifier/internal/daemon/reducer.go:93-174 | no event but a poll changes snapshots or health |
| `TickOutcomes.NothingNew` | modules/home/desktop/services/meeting-notifier/internal/daemon/reducer.go:93-174 | and none but a successful poll makes an occurrence |
| `Reconcile.Reconcile` | modules/home/desktop/services/meeting-notifier/internal/daemon/reconcile.go:11-73 | whatever order the three loops take, an accepted poll leaves the state that the pointwise function of old occurrence, snapshot membership, current meeting and removal reason gives; a poll fails exactly when validation or some key fails, and then the draft is discarded |
| `Reconcile.ReconcileCurrent` | modules/home/desktop/services/meeting-notifier/internal/daemon/reconcile.go:110-155 | one current meeting changes only its own key, as specified for that key, or exhausts a revision |
| `Reconcile.ReconcileRemoved` | modules/home/desktop/services/meeting-notifier/internal/daemon/reconcile.go:157-182 | one removal changes only its own key: a close, a deletion, a join kept, or a pending close left alone |
| `Reconcile.ReconciledFrame` | modules/home/desktop/services/meeting-notifier/internal/daemon/reconcile.go:11-73 | keys the poll and the snapshot do not mention, and the snapshots and health of other accounts, are unchanged |
| `Reconcile.LastMeetingWins` | modules/home/desktop/services/meeting-notifier/internal/daemon/reconcile.go:24-40 | when a poll lists a key twice the last meeting counts |
| `Reconcile.RemoveOneIdempotent` | modules/home/desktop/services/meeting-notifier/internal/daemon/reconcile.go:157-182 | removing a key again changes nothing, which is why a key that vanished and is also observed as removed is safe in either order |
| `Reconcile.ValidateObservations` | modules/home/desktop/services/meeting-notifier/internal/daemon/reconcile.go:75-96 | the poll is accepted exactly when every observation has a key, a known kind and the reason or meeting its kind needs |
| `PollOutcomes.AcceptedIsReadable` | modules/home/desktop/services/meeting-notifier/internal/daemon/reconcile.go:11-96 | a poll is accepted only when every meeting has a key and every observation is clear, listed reason by reason; one that is clear is refused only for an exhausted revision |
| `PollOutcomes.PollLeaves` | modules/home/desktop/services/meeting-notifier/internal/daemon/reconcile.go:11-199 | after an accepted poll the occurrence of every key, field by field and read off the poll's own lists: a new meeting is scheduled; a changed one that is due is pending under the next revision at once; a changed one that is not due waits again, after a close if something is shown; what is removed goes, is closed for its reason, or is withdrawn under the next revision |
| `PollOutcomes.ListedMeetingStands` | modules/home/desktop/services/meeting-notifier/internal/daemon/reconcile.go:110-155 | so whatever stands under a listed key is the listed meeting, in every phase |
| `ReducerNotifications.ReduceNotification` | modules/home/desktop/services/meeting-notifier/internal/daemon/reducer_notifications.go:10-22 | in-place handling of a delivery, completion, failure or signal equals the specification by event kind; only the occurrence, or the warning, that the event names changes |
| `ReducerNotifications.ApplyDelivery` | modules/home/desktop/services/meeting-notifier/internal/daemon/reducer_notifications.go:38-54 | a delivery is recorded on the pending occurrence or warning with its revision, and ignored otherwise |
| `ReducerNotifications.ApplyNotificationFailure` | modules/home/desktop/services/meeting-notifier/internal/daemon/reducer_notifications.go:56-86 | a failure adds one attempt and a retry time to the work it names, and nothing else |
| `ReducerNotifications.ApplySignal` | modules/home/desktop/services/meeting-notifier/internal/daemon/reducer_notifications.go:88-122 | a signal changes the occurrence the index finds for its id: join, keep, or forget |
| `ReducerNotifications.CompleteClose` | modules/home/desktop/services/meeting-notifier/internal/daemon/reducer_notifications.go:24-36 | a completed close drops the occurrence or resumes it as scheduled with its revisions kept |
| `NoticeOutcomes.ClickLeaves` | modules/home/desktop/services/meeting-notifier/internal/daemon/reducer_notifications.go:88-109 | a click makes the occurrence that holds the id join-pending if and only if it is on "join", the occurrence is shown or in the history, its action has not expired, its URL may be opened and a join revision is left; then it has the next join revision, the time of the click and its old phase to resume |
| `NoticeOutcomes.ClickLaunches` | modules/home/desktop/services/meeting-notifier/internal/daemon/reducer_notifications.go:88-109 | a click on the action that a notify command offered does so, and the event asks for a launch |
| `NoticeOutcomes.DismissalLeaves` | modules/home/desktop/services/meeting-notifier/internal/daemon/reducer_notifications.go:110-122 | a notification that closes goes to the history with its id and action times kept; one that was being closed is scheduled again if it was rescheduled, and gone otherwise |
| `NoticeOutcomes.DeliveryLeaves` | modules/home/desktop/services/meeting-notifier/internal/daemon/reducer_notifications.go:38-54 | a delivery of the pending revision is shown under its id with an action that lasts 24 hours; any other changes nothing |
| `NoticeOutcomes.FailureLeaves` | modules/home/desktop/services/meeting-notifier/internal/daemon/reducer_notifications.go:67-86 | a failure of the pending work adds one attempt and waits 1, 2, 4, 8 or 15 minutes, for a close up to a quarter more; any other changes nothing |
| `NoticeOutcomes.CompletionLeaves` | modules/home/desktop/services/meeting-notifier/internal/daemon/reducer_notifications.go:24-36 | a completed close of that id, or of none, ends it: scheduled again or gone |
| `NoticeOutcomes.WarningAnswerLeaves` | modules/home/desktop/services/meeting-notifier/internal/daemon/reducer_notifications.go:38-65 | an answer of the pending warning revision clears it and is remembered, or, when it failed, waits 1, 2, 4, 8 or 15 minutes; any other answer changes no warning |
| `NoticeOutcomes.OthersOnlyAge` | modules/home/desktop/services/meeting-notifier/internal/daemon/reducer_notifications.go:10-122 | an occurrence that a notice is not about only ages |
| `NoticeOutcomes.ReportAnswersItsCommand` | modules/home/desktop/services/meeting-notifier/internal/notifications/client.go:163-226 | what the transport reports of a command handed out delivers, fails or completes exactly the work the command stood for |
| `NoticeOutcomes.ReportAnswersItsWarning` | modules/home/desktop/services/meeting-notifier/internal/notifications/client.go:163-226 | the same for a warning command |
| `NoticeOutcomes.PollAnswersItsCommand` | modules/home/desktop/services/meeting-notifier/internal/daemon/workers.go:24-49 | a poll worker's result carries its command's account and generation and what the source answered |
| `NoticeOutcomes.LaunchAnswersItsCommand` | modules/home/desktop/services/meeting-notifier/internal/daemon/workers.go:72-96 | and a launch worker's result is for the join its command was for |
| `PollHealth.ApplyPollFailure` | modules/home/desktop/services/meeting-notifier/internal/daemon/poll_health.go:11-38 | the failed poll changes that account only: its health, and a new warning with the next revision when none is pending and the last delivery is a day old |
| `PollOutcomes.FailedPollLeaves` | modules/home/desktop/services/meeting-notifier/internal/daemon/poll_health.go:11-38 | a failed poll, field by field: the account's last error, its need for authorization and the generation that failed; a warning with the next revision, due at once, exactly when authorization failed, none is pending and none was shown for 24 hours |
| `PollOutcomes.FailedPollAges` | modules/home/desktop/services/meeting-notifier/internal/daemon/poll_health.go:11-38 | and every occurrence only ages |
| `PollOutcomes.SuccessfulPollHeals` | modules/home/desktop/services/meeting-notifier/internal/daemon/reconcile.go:70-72 | a successful poll records its time and meetings, clears the error and leaves warnings alone |
| `Reducer.ReduceWithIndex` | modules/home/desktop/services/meeting-notifier/internal/daemon/reducer.go:93-174 | the whole step over mutable maps equals the functional reducer; on any error the returned state is the input and there are no effects |
| `Reducer.Step` | modules/home/desktop/services/meeting-notifier/internal/daemon/reducer.go:93-160 | the five event kinds in place, before expiry and validation, give the specified transition or its error |
| `Reducer.Promote` | modules/home/desktop/services/meeting-notifier/internal/daemon/reducer.go:119-132 | an eligible activity result makes exactly the due scheduled meetings pending, each with its next revision, or fails because one has none left |
| `TickOutcomes.ActivityLeaves` | modules/home/desktop/services/meeting-notifier/internal/daemon/reducer.go:119-132 | an accepted activity result that found the user present, or could not tell, makes exactly the scheduled meetings that start within the lead time pending, each under its next revision |
| `Reducer.ApplyLaunch` | modules/home/desktop/services/meeting-notifier/internal/daemon/reducer.go:134-149 | a launch result changes the occurrence it answers, and only that one |
| `TickOutcomes.LaunchLeaves` | modules/home/desktop/services/meeting-notifier/internal/daemon/reducer.go:134-149 | field by field: a failed launch puts back what was shown, a successful one joins at that time and gives up id and action |
| `Pointwise.NextAt` | modules/home/desktop/services/meeting-notifier/internal/daemon/reducer.go:93-174 | the occurrence of every key after an accepted event is a function of that key's old occurrence and the event alone |
| `Closure.ReducerClosure` | modules/home/desktop/services/meeting-notifier/internal/daemon/reducer.go:93-174 | from any state whose normal form is valid every well-formed event succeeds and leaves a valid state: the final validation can never reject |
| `Closure.DeliveryIsValid` | modules/home/desktop/services/meeting-notifier/internal/daemon/reducer_notifications.go:38-54 | a delivery with a fresh id keeps the ids unique |
| `Closure.WarningsUntouched` | modules/home/desktop/services/meeting-notifier/internal/daemon/reducer.go:93-174 | only failed polls and answers to warnings change warnings or their revisions |
| `Runs.RunsAreSound` | modules/home/desktop/services/meeting-notifier/internal/daemon/reducer.go:93-174 | over every run from the empty state, restarts included, with times that do not go backwards: pending notifications have now < start <= now + lead, closes resume to nothing or to scheduled, non-scheduled occurrences have a notify revision, and warnings respect their interval |
| `Runs.SoundIsNormal` | modules/home/desktop/services/meeting-notifier/internal/storage/state_migration.go:5-28 | in those states legacy normalization does nothing |
| `Runs.ValidNeedNotBeSound` | modules/home/desktop/services/meeting-notifier/internal/storage/state.go:113-142 | the run invariant is strictly stronger than validation |
| `Runs.LifetimeFollows` | modules/home/desktop/services/meeting-notifier/internal/daemon/reconcile.go:110-199 | while a key stays in the map its two revisions never decrease, and what is pending under one revision keeps summary, start, end, URL and account |
| `Runs.AcceptedDeliveryIsCurrent` | modules/home/desktop/services/meeting-notifier/internal/daemon/reducer_notifications.go:38-54 | a delivery accepted with the revision of an emitted notify command, in the same lifetime of the key, finds the meeting content that command showed, and is recorded |
| `Runs.AcceptedLaunchIsCurrent` | modules/home/desktop/services/meeting-notifier/internal/daemon/reducer.go:134-149 | a join pending with the revision of an emitted launch still has that launch's URL and account |
| `Runs.WarningsAreRateLimited` | modules/home/desktop/services/meeting-notifier/internal/daemon/poll_health.go:11-38 | two accepted warning deliveries of one account are at least 24 hours apart and carry strictly growing revisions |
| `Runs.DeliveredWarning` | modules/home/desktop/services/meeting-notifier/internal/daemon/reducer_notifications.go:38-50 | an accepted warning delivery clears the pending warning, records its time and keeps the revision counter |
| `Lifetimes.MovedGood` | modules/home/desktop/services/meeting-notifier/internal/daemon/reducer.go:93-160 | every transition keeps the per-occurrence invariant and only moves revisions forward |
| `Finality.JoinedIsFinal` | modules/home/desktop/services/meeting-notifier/internal/daemon/reducer.go:134-149 | a joined occurrence leaves exactly when a tick finds its meeting over; otherwise it keeps phase, join time and join revision, and no effect names it |
| `Finality.JoinedUntilOver` | modules/home/desktop/services/meeting-notifier/internal/daemon/expiry.go:11-60 | the same over whole runs, restarts included |
| `Finality.LaunchAnswersItsJoin` | modules/home/desktop/services/meeting-notifier/internal/daemon/reducer.go:134-149 | a launch result changes an occurrence only when it is join-pending with exactly that revision; every other occurrence only ages |
| `Finality.EffectsNameWork` | modules/home/desktop/services/meeting-notifier/internal/daemon/scheduler.go:11-25 | every effect of an accepted event names ready work of the state the event leaves, with that work's own content |
| `Finality.RemovedKeysSettle` | modules/home/desktop/services/meeting-notifier/internal/daemon/reconcile.go:157-182 | after an accepted poll a key that vanished or was removed is absent, joined or being closed; unmentioned keys only age |
| `Finality.RemovedMeetingReturns` | modules/home/desktop/services/meeting-notifier/internal/daemon/reconcile.go:110-182 | through two accepted events from a reachable state: a meeting that a poll removes is scheduled again by the completed close if and only if a close that resumes was pending before, or the same poll also lists the key with changed content out of the window while its notification was shown or being replaced |
| `Finality.RemovalLeavesResume` | modules/home/desktop/services/meeting-notifier/internal/daemon/reconcile.go:110-182 | the same condition for the three loops on one key, with a current meeting or without |
| `Incidents.CancelledMeetingReturnsExample` | modules/home/desktop/services/meeting-notifier/internal/daemon/reconcile.go:157-182 | a run of six accepted events in which a meeting is shown, rescheduled out of the window, cancelled, and scheduled again by the completed close |
| `Incidents.ListedAndCancelledReturnsExample` | modules/home/desktop/services/meeting-notifier/internal/daemon/reconcile.go:45-66 | a run in which nothing is being closed before a poll that lists the key out of the window and cancels it; the completed close schedules it again |
| `Incidents.RevisionsRestartExample` | modules/home/desktop/services/meeting-notifier/internal/daemon/reconcile.go:110-182 | a run in which a notify command of revision 1 goes out, the meeting is deleted and listed again with other content, and the old delivery is recorded for the new meeting |
| `Incidents.ClickLaunchesExample` | modules/home/desktop/services/meeting-notifier/internal/daemon/reducer_notifications.go:88-109 | a run of four accepted events in which a listed meeting is shown and clicked and its launch is asked for |
| `Finality.FailureBacksOff` | modules/home/desktop/services/meeting-notifier/internal/daemon/reducer_notifications.go:67-86 | a matching failure of a notification or close at t moves the next attempt into [t + 1 min, t + 18 min 45 s], keeps the phase and counts the attempt; in the state the failure leaves no selection before that time offers the item |
| `Backoff.WarningFailureBacksOff` | modules/home/desktop/services/meeting-notifier/internal/daemon/reducer_notifications.go:56-65 | a failed warning keeps its revision, counts one attempt and waits between one and fifteen minutes |
| `Backoff.CloseWaitGrows` | modules/home/desktop/services/meeting-notifier/internal/daemon/reducer_notifications.go:67-86 | with any key hash a close never waits less after one more failure: jitter does not undo the growth of the delay |
| `Backoff.RunsArePatient` | modules/home/desktop/services/meeting-notifier/internal/daemon/reducer.go:93-174 | in every state of every run no notification, close or warning waits longer, from the last event on, than its last failure can make it wait |
| `Backoff.NotificationsBackOff` | modules/home/desktop/services/meeting-notifier/internal/daemon/reducer_notifications.go:56-86 | over every run, restarts included: while a notification stays pending under one revision its next attempt never comes nearer, and until the clock reaches it no selection names the key |
| `Backoff.ClosesBackOff` | modules/home/desktop/services/meeting-notifier/internal/daemon/reducer_notifications.go:67-86 | the same for a close as long as it is pending |
| `Backoff.WarningsBackOff` | modules/home/desktop/services/meeting-notifier/internal/daemon/reducer_notifications.go:56-65 | the same for a warning of one revision, which no event raises again either |
| `Backoff.FailureSilences` | modules/home/desktop/services/meeting-notifier/internal/daemon/reducer_notifications.go:56-86 | after a failure at some time of a run the item is not offered for at least a minute, whatever comes between, as long as it is the same work |
| `Draining.CompletionProgress` | modules/home/desktop/services/meeting-notifier/internal/daemon/reducer.go:106-174 | each completion that finds ready work strictly lowers the work left: the sum of phase ranks plus the pending warnings |
| `Draining.DrainTerminates` | modules/home/desktop/services/meeting-notifier/internal/daemon/reducer.go:106-174 | with time fixed and workers succeeding there are at most four completions per occurrence and one per pending warning |
| `Draining.DrainEndsIdle` | modules/home/desktop/services/meeting-notifier/internal/daemon/reducer.go:106-174 | such a drain cannot go on exactly when no work is ready; revisions are asked to be left in its first state only, and a fresh id exists while there are fewer than 2^32 - 1 occurrences |
| `Draining.DrainReachesIdle` | modules/home/desktop/services/meeting-notifier/internal/daemon/reducer.go:106-174 | from every sound state with fewer than 2^32 - 1 occurrences in which every meeting that can still be promoted has a revision left, some drain reaches a state with no ready work |
| `Draining.ReadyWorkCompletes` | modules/home/desktop/services/meeting-notifier/internal/daemon/reducer.go:106-174 | while work is ready a completion of it exists and is accepted |
| `Runtime.Loop.Boot` | modules/home/desktop/services/meeting-notifier/internal/daemon/daemon.go:88-112 | starting from a stored state normalizes, validates, expires, saves what that changed, indexes and schedules; a refused state or a failed save leaves the loop stopped with nothing published |
| `WriteAhead.FailedStartCanBeRetried` | modules/home/desktop/services/meeting-notifier/internal/daemon/daemon.go:88-112 | whatever a failed startup save left on disk can be started from later |
| `Runtime.Loop.CommitEvent` | modules/home/desktop/services/meeting-notifier/internal/daemon/daemon.go:132-155 | reduce, refuse a stale delivery, save, then publish: on rejection or refusal nothing is published and memory is unchanged |
| `Runtime.Loop.Process` | modules/home/desktop/services/meeting-notifier/internal/daemon/daemon.go:132-171 | one event on the mutable loop equals the value-level commit followed by its stages in order, with the acknowledgement that commit demands |
| `Runtime.Runtime.Dispatch` | modules/home/desktop/services/meeting-notifier/internal/daemon/runtime.go:134-184 | sets the busy flag and fills the slot of a free worker, leaves a busy one alone, and fails only on a full slot |
| `Runtime.Runtime.BeforeEffects` | modules/home/desktop/services/meeting-notifier/internal/daemon/runtime_schedule.go:18-40 | the worker that reported is free again, its retry recorded and the generation moved as specified |
| `PollRetries.PollWaitsItsTurn` | modules/home/desktop/services/meeting-notifier/internal/daemon/runtime_schedule.go:51-75 | in every interleaving: after n failed polls of an account in a row, the last at t, no poll of it is started before t + 1, 2, 4, 8 or 15 minutes, and each poll asks for the window from its start on |
| `PollRetries.RetriesTell` | modules/home/desktop/services/meeting-notifier/internal/daemon/retry.go:15-40 | the stored retry counts the failures in a row and waits up to a quarter longer than those minutes; after a success there is none |
| `PollRetries.FailedPollWaits` | modules/home/desktop/services/meeting-notifier/internal/daemon/retry.go:36-42 | after a failed poll no poll of the account is started for a minute, unless one has succeeded meanwhile |
| `PollRetries.IdleAccountIsPolled` | modules/home/desktop/services/meeting-notifier/internal/daemon/runtime_schedule.go:59-75 | when a tick is accepted and an account is idle and has waited long enough for its failures, or has none, a poll of it is started by the time the tick is worked off |
| `PollRetries.StartPollsAll` | modules/home/desktop/services/meeting-notifier/internal/daemon/runtime_schedule.go:11-16 | a start polls every account |
| `ActivityChecks.ChangeIsChecked` | modules/home/desktop/services/meeting-notifier/internal/daemon/runtime_schedule.go:18-49 | in every interleaving: once the owner has worked off a tick, a successful poll or any other change, and a meeting is due, an activity check is under way |
| `Runtime.Runtime.SchedulePolls` | modules/home/desktop/services/meeting-notifier/internal/daemon/runtime_schedule.go:59-75 | one poll per account that is idle and past its retry time, accounts in order |
| `Runtime.Runtime.ScheduleDurable` | modules/home/desktop/services/meeting-notifier/internal/daemon/runtime_schedule.go:77-103 | activity, notification, launch and warning stages in order, stopping at the first error |
| `Runtime.Runtime.AfterCommit` | modules/home/desktop/services/meeting-notifier/internal/daemon/runtime_schedule.go:42-49 | polls on a tick, a new generation on any other change but an activity result, then the durable stages |
| `Control.StagesConcat` | modules/home/desktop/services/meeting-notifier/internal/daemon/runtime_schedule.go:42-103 | running two groups of stages is running their concatenation, errors included |
| `Owner.FinishedIsFold` | modules/home/desktop/services/meeting-notifier/internal/daemon/daemon.go:156-171 | the interleavable one-stage steps, run to the end, are what the loop does in one go |
| `WriteAhead.CommandsAreWrittenAhead` | modules/home/desktop/services/meeting-notifier/internal/daemon/daemon.go:132-171 | every command handed to a worker is the one the durable state asks for, by phase, id and revision; a refused or rejected event hands out and publishes nothing |
| `WriteAhead.LoopStep` | modules/home/desktop/services/meeting-notifier/internal/daemon/daemon.go:132-171 | every step keeps memory, disk, index and published index in agreement while the loop runs |
| `WriteAhead.CommitLeaves` | modules/home/desktop/services/meeting-notifier/internal/daemon/daemon.go:132-155 | field by field what a hand-over leaves in memory and on disk, for a save that works, one that fails before and one that fails after the file is in place |
| `WriteAhead.StartupIsSettled` | modules/home/desktop/services/meeting-notifier/internal/daemon/daemon.go:88-112 | what a start leaves is valid and normal |
| `Conservation.ExecutionWritesAhead` | modules/home/desktop/services/meeting-notifier/internal/daemon/daemon.go:88-171 | over every interleaving: memory equals disk and the published index inverts it while the loop runs, each step writes ahead, and the disk always holds a state a restart accepts |
| `Conservation.SlotDiscipline` | modules/home/desktop/services/meeting-notifier/internal/daemon/runtime.go:134-184 | in every interleaving a worker, and each account's poller, has at most one command between slot and hands and none while its flag is clear; while the owner runs it has exactly one when the flag is set; no dispatch finds a full slot and no poll blocks |
| `Interleavings.OutstandingStep` | modules/home/desktop/services/meeting-notifier/internal/daemon/runtime_schedule.go:18-40 | while the owner runs every step of every participant keeps a command in the slot or in the worker's hands for each set flag |
| `Conservation.BusyWorkersMove` | modules/home/desktop/services/meeting-notifier/internal/daemon/workers.go:24-96 | between events no busy worker is stuck: it can take its command or hand over its result, or the transport can take the acknowledgement it waits for |
| `Executions.ExecutionIsRun` | modules/home/desktop/services/meeting-notifier/internal/daemon/daemon.go:88-171 | the owner's states in an execution whose event times do not go backwards, started from where a run ended, continue that run |
| `Executions.DiskEndsRun` | modules/home/desktop/services/meeting-notifier/internal/daemon/daemon.go:132-155 | and so does what is on disk whenever the process dies, after a save that failed past its rename as well: the next execution starts from the end of a run again |
| `Executions.ExecutionIsSound` | modules/home/desktop/services/meeting-notifier/internal/daemon/daemon.go:132-171 | so the run invariant holds of the owner's state in every interleaving |
| `Executions.HandedOutOnTime` | modules/home/desktop/services/meeting-notifier/internal/daemon/runtime_schedule.go:77-103 | every effect handed to a worker is durable work that is ready at the owner's time when it is handed out |
| `Executions.NotificationsAreHandedOutLate` | modules/home/desktop/services/meeting-notifier/internal/daemon/runtime_schedule.go:77-103 | in every interleaving a notification pending until some time is not handed out again under its revision before that time, and what is handed out shows the meeting that was pending |
| `Executions.WarningsAreHandedOutLate` | modules/home/desktop/services/meeting-notifier/internal/daemon/runtime_schedule.go:77-103 | the same for warnings, whatever the account's polls do meanwhile |
| `Executions.HandedOutIsCurrent` | modules/home/desktop/services/meeting-notifier/internal/daemon/reducer_notifications.go:38-54 | a command handed out whose delivery still answers pending work of the same lifetime shows the meeting as it is then |
| `Conservation.StagesNeverStopTheOwner` | modules/home/desktop/services/meeting-notifier/internal/daemon/runtime.go:134-184 | the owner stops only on a rejected event, a stale delivery or a failed save, never on a full slot |
| `Interleavings.SlotStep` | modules/home/desktop/services/meeting-notifier/internal/daemon/workers.go:24-96 | slot discipline is kept by every step of owner, workers and transport |
| `Conservation.WorkIsConserved` | modules/home/desktop/services/meeting-notifier/internal/daemon/runtime_schedule.go:77-103 | between events ready notify, close or warning work implies a busy notifier, a pending join a busy launcher, and a due meeting a check under way or made in this generation |
| `Conservation.ChecksAreBounded` | modules/home/desktop/services/meeting-notifier/internal/daemon/runtime_schedule.go:11-103 | over any execution there are never more activity checks than generations |
| `Conservation.ExecutionInvariant` | modules/home/desktop/services/meeting-notifier/internal/daemon/runtime_schedule.go:11-103 | the joint invariant of slots, write-ahead, handshake, check counting and conservation holds in every reachable state |
| `Handshake.OneAckPerDelivery` | modules/home/desktop/services/meeting-notifier/internal/daemon/daemon.go:132-204 | a delivery the reducer accepts or ignores gets exactly one acknowledgement, anything else none; a refusal leaves state, index and runtime alone and stops the loop |
| `Handshake.NoOtherAck` | modules/home/desktop/services/meeting-notifier/internal/daemon/daemon.go:191-204 | no other action acknowledges anything |
| `Conservation.HandshakeOverRuns` | modules/home/desktop/services/meeting-notifier/internal/notifications/client.go:163-214 | over any execution the acknowledgements count the answerable deliveries, at most one is negative, and the transport closes that id and no other |
| `Handshake.RefusalIsCompensated` | modules/home/desktop/services/meeting-notifier/internal/notifications/client.go:197-214 | taking a refusal closes the refused id, once, and halts the transport |
| `Handshake.NoSignalBeforeTheAck` | modules/home/desktop/services/meeting-notifier/internal/notifications/client.go:126-161 | no notice reaches the owner while an acknowledgement is outstanding, so the acknowledgement slot is never full |
| `Handshake.PositiveAckMeans` | modules/home/desktop/services/meeting-notifier/internal/daemon/daemon.go:132-155 | a delivery is acknowledged as persisted if and only if it answers current work or some pending notification had started; in the first case it is on disk whatever else had started, otherwise only the expiry is |
| `Incidents.StaleYetPersistedExample` | modules/home/desktop/services/meeting-notifier/internal/daemon/daemon.go:132-155 | after a run of two accepted events, a delivery for a key that never was is committed because the listed meeting starts at that time |
| `Authorization.Directory.AtomicWrite` | modules/home/desktop/services/meeting-notifier/internal/storage/atomic.go:66-110 | whatever stage fails, the file is replaced as a whole or not at all, exactly when the rename succeeded; a temporary file stays exactly when it was not renamed and cannot be removed |
| `Authorization.Store.SaveAuthorization` | modules/home/desktop/services/meeting-notifier/internal/storage/authorization.go:91-101 | a setup writes its own valid bundle or nothing; "preserved" is claimed only when the file is unchanged; after a storage error setup calls the outcome ambiguous only when its bundle is in place |
| `Authorization.Store.UpdateToken` | modules/home/desktop/services/meeting-notifier/internal/storage/authorization.go:110-131 | a refresh changes the token only, and nothing when the stored generation is another one |
| `Authorization.RefreshedIsValid` | modules/home/desktop/services/meeting-notifier/internal/storage/authorization.go:110-131 | refreshing a valid bundle keeps it valid, keeps everything but the token and never loses a refresh token |
| `Authorization.TokenSource.Next` | modules/home/desktop/services/meeting-notifier/internal/googlecalendar/token_source.go:35-65 | a token handed out is remembered and on file if memory and file agreed before; a failed write leaves the memory alone |
| `AuthorizationRuns.FileIsLastSetupWithLatestToken` | modules/home/desktop/services/meeting-notifier/internal/storage/authorization.go:91-189 | in every interleaving of setups and refreshes, failing or dying anywhere and leaving temporary files cut short: one writer at a time, and the file is absent or whole: the last setup's valid bundle with the latest non-empty refresh token written since |
| `AuthorizationRuns.RefreshIsCompareAndSwap` | modules/home/desktop/services/meeting-notifier/internal/storage/authorization.go:110-189 | a file changes only by a setup's rename or by a refresh whose loaded generation it still holds |
| `AuthorizationRuns.LogTellsTheFile` | modules/home/desktop/services/meeting-notifier/internal/storage/authorization.go:110-189 | any history in which each content follows from the one before ends in the last setup with the latest refresh token |
| `AuthorizationRuns.SaveIsSteps` | modules/home/desktop/services/meeting-notifier/internal/storage/authorization.go:91-108 | a setup's save that gets the lock, whichever call in it fails, leaves the file as its steps, taken without interruption, do |
| `AuthorizationRuns.UpdateIsSteps` | modules/home/desktop/services/meeting-notifier/internal/storage/authorization.go:110-131 | and so does a token update that finds its generation |
| `Broker.PassffBroker.Handle` | modules/home/desktop/browser/firefox/passff-shared/daemon.py:46-67 | the segment before the first await: serve a young entry, drop an old one, join or start the scan |
| `Broker.PassffBroker.Return` | modules/home/desktop/browser/firefox/passff-shared/daemon.py:73-92 | the segment after the runner: release the lock, store a successful scan, keep the answer for the waiters |
| `Broker.PassffBroker.Finish` | modules/home/desktop/browser/firefox/passff-shared/daemon.py:65-71 | the waiter's last segment, cancelled or not: copy the answer and drop a finished in-flight entry |
| `Broker.PassffBroker.DropInflight` | modules/home/desktop/browser/firefox/passff-shared/daemon.py:82-85 | the done-callback removes the in-flight entry only while it is this task's |
| `Broker.OneRunnerOneScan` | modules/home/desktop/browser/firefox/passff-shared/daemon.py:46-92 | in every interleaving, cancelled waiters included: one runner call at a time, and one unfinished scan per key, which is the in-flight entry |
| `Broker.CacheServesTheLastScan` | modules/home/desktop/browser/firefox/passff-shared/daemon.py:52-58 | a request is served from the cache if and only if the last successful scan of its key is younger than the TTL, and then with what that scan answered |
| `Broker.ResponsesAreNotShared` | modules/home/desktop/browser/firefox/passff-shared/daemon.py:57-67 | a response handed out is neither the cached object nor another caller's |
| `Broker.WaiterGetsTheAnswer` | modules/home/desktop/browser/firefox/passff-shared/daemon.py:60-71 | whoever waits to the end gets the runner's answer to its own key, whatever other callers did to theirs, or its failure |
| `Broker.FinishedScanLetsGo` | modules/home/desktop/browser/firefox/passff-shared/daemon.py:82-85 | a caller joins a finished scan only while that scan's done-callback is still to run |
| `MetadataIndex.IndexFile.Refresh` | modules/home/desktop/browser/firefox/passff-shared/metadata_index.py:147-178 | the full rebuild holds exactly the fields of the entries that decrypt |
| `MetadataIndex.IndexFile.Update` | modules/home/desktop/browser/firefox/passff-shared/metadata_index.py:181-217 | an update replaces the facts of the requested entries that decrypt or are gone and leaves the others |
| `MetadataIndex.IndexFile.Remove` | modules/home/desktop/browser/firefox/passff-shared/metadata_index.py:220-235 | a removal drops exactly the facts of the requested entries |
| `MetadataIndex.RebuiltExactly` | modules/home/desktop/browser/firefox/passff-shared/metadata_index.py:147-178 | a rebuilt index shows a path exactly when its file decrypts to some field, and then its fields |
| `MetadataIndex.ProcessDiff` | modules/home/desktop/browser/firefox/passff-shared/metadata_hooks.py:41-66 | reading a diff record by record applies the operations of the index commands that do not fail, in order; when none fails, the records tell the change from the old store to the new and what they name decrypts, an index that agreed with the old store agrees with the new one |
| `MetadataIndex.RecordAt` | modules/home/desktop/browser/firefox/passff-shared/metadata_hooks.py:41-66 | one record at one path: a delete or a rename away takes the entry out, a rename or copy to it or a change reads it again, a command that fails or an entry that does not decrypt leaves it |
| `MetadataIndex.LastRecordDecides` | modules/home/desktop/browser/firefox/passff-shared/metadata_hooks.py:41-66 | the last record that takes a path out or reads it again decides what the whole diff leaves of it |
| `MetadataIndex.DiffRefinesRebuild` | modules/home/desktop/browser/firefox/passff-shared/metadata_hooks.py:41-66 | the diff refines the rebuild, stated on records: what deletes and renames say is gone is, what the others say is there is, every changed file is named |
| `MetadataIndex.ReplayedExactlyAt` | modules/home/desktop/browser/firefox/passff-shared/metadata_hooks.py:41-66 | what a replay leaves at a path is decided by the last operation on it that does anything; an update of a file that cannot be decrypted does nothing |
| `MetadataIndex.ReplayRefinesRebuild` | modules/home/desktop/browser/firefox/passff-shared/metadata_hooks.py:41-66 | for names that normalization fixes: replaying a diff over an index that agreed with the old store gives the rebuild of the new store if and only if every path was last updated, or last removed and shows nothing now, or not affected and shows what it showed |
| `MetadataIndex.SettledReplayRefines` | modules/home/desktop/browser/firefox/passff-shared/metadata_hooks.py:41-66 | when updated files decrypt and removed ones are gone, that holds if and only if the diff mentions every path whose entry changed |
| `MetadataIndex.ReplayOrderIrrelevant` | modules/home/desktop/browser/firefox/passff-shared/metadata_hooks.py:41-66 | when updated files decrypt and removed ones are gone, two diffs over the same paths, in any order and with repetitions, leave the same index |
| `MetadataIndex.FailedDecryptionKeeps` | modules/home/desktop/browser/firefox/passff-shared/metadata_index.py:181-217 | an entry that cannot be decrypted keeps what the index held |
| `PassItems.MatchingIsMonotone` | scripts/migrate-pass-to-1password.py:491-536 | knowing more items, or more about them, never turns a match into none |
| `PassItems.IdentifiesBy` | scripts/migrate-pass-to-1password.py:491-536 | an item is identified by a shared username with the title or a URL; by a URL when the entry has no username; by the title when it has neither |
| `PassItems.FoundExactly` | scripts/migrate-pass-to-1password.py:491-536 | an id is found if and only if an item of it carries the path under the title or, when no item does, is identified |
| `PassItems.ClassifiedExactly` | scripts/migrate-pass-to-1password.py:149-159 | an entry is an API credential exactly when its title carries a marker or a custom field is named by one; otherwise a login exactly when it has a username or a URL |
| `PassItems.MarkerBetweenBlanks` | scripts/migrate-pass-to-1password.py:149-155 | a title carries a marker when it stands in it between blanks or the ends |
| `PassItems.ReadsNoSecret` | scripts/migrate-pass-to-1password.py:446-488 | what is read back from an item is shown and not empty, never concealed |
| `PassItems.BuildSucceeds` | scripts/migrate-pass-to-1password.py:395-443 | a payload is built if and only if the template offers every built-in field the entry needs and an API credential's first URL can be split |
| `Payloads.PayloadHoldsEntry` | scripts/migrate-pass-to-1password.py:395-443 | a payload that is built holds the entry, field by field: secret and notes in their own fields, first username and host in theirs; then exactly the URLs, other usernames, one-time passwords, custom fields and path, in order, concealed exactly where they were; title and tag; and the template's other fields unchanged |
| `Payloads.TotpNamed` | scripts/migrate-pass-to-1password.py:433-435 | one-time passwords are named so and numbered from two on |
| `PassItems.CreatedItemCovers` | scripts/migrate-pass-to-1password.py:395-488 | an item read back from the payload has the entry's title and path and all its usernames and URLs |
| `Migration.Planner.AddInMemoryItem` | scripts/migrate-pass-to-1password.py:714-724 | the loop over the URLs indexes the new item under its title and all its URLs and stores its details |
| `Migration.Planner.CandidateItems` | scripts/migrate-pass-to-1password.py:741-767 | the lookups and fetches return the specified candidates, and keep what was fetched before a failure |
| `Migration.Planner.ProcessEntry` | scripts/migrate-pass-to-1password.py:791-818 | one entry gets one line, one count and the specified context |
| `Migration.Planner.Execute` | scripts/migrate-pass-to-1password.py:821-860 | the run is the fold over the paths; every path gets one line in order, the counters sum to the number discovered, planned or created is zero by mode, and the exit code is zero exactly when nothing was ambiguous or failed |
| `Migration.TallyAccounts` | scripts/migrate-pass-to-1password.py:821-860 | each kind of line is counted once, and a counter is zero exactly when there is no such line |
| `MigrationRuns.DryRunPredictsApply` | scripts/migrate-pass-to-1password.py:791-860 | with the same store and vault, payloads that can be built and creations that succeed with fresh ids, the applying run gives every entry the dry run's verdict and creates exactly the planned paths |
| `MigrationRuns.RenamedVerdict` | scripts/migrate-pass-to-1password.py:491-536 | matching does not depend on what item ids are called |
| `MigrationRuns.CreatedIsNeverRecreated` | scripts/migrate-pass-to-1password.py:741-818 | an entry whose item is listed and held by the vault is never planned or created again, whatever else the run meets |
| `MigrationReruns.CreatedStaysCreated` | scripts/migrate-pass-to-1password.py:395-536 | an entry created once is not created by any later run over a vault still holding the item as sent |
| `MigrationIndex.UnmatchedExactly` | scripts/migrate-pass-to-1password.py:741-767 | matching finds nothing if and only if every known item that would match in full is overlooked, having another title and a listing that shows none of the entry's URLs, and the URLs compared can be parsed |
| `MigrationIndex.CreatesExactly` | scripts/migrate-pass-to-1password.py:791-818 | a path is planned, or when applying created, exactly when its entry finds nothing in that sense and can be built and created |
| `MigrationIndex.CreatesInRun` | scripts/migrate-pass-to-1password.py:821-860 | the same for every line of a whole run, against what is known by then |
| `MigrationIndex.FoundIsNamed` | scripts/migrate-pass-to-1password.py:791-818 | an entry that is found is skipped when one id is and ambiguous when several are, and each id is of a known item that matches in full |
| `MigrationIndex.CandidatesSuffice` | scripts/migrate-pass-to-1password.py:741-767 | when the listing tells all URLs, matching with the indexed candidates gives what matching with every known item gives |
| `MigrationIndex.MirrorRun` | scripts/migrate-pass-to-1password.py:668-677 | the indexes go on holding exactly what is known, as the run adds items with new ids |
| `MigrationIndex.IndexedMirrors` | scripts/migrate-pass-to-1password.py:668-677 | the preflight index holds exactly the listing, when listed titles and URLs are in the vault and the listed ids are distinct |
| `MigrationIndex.SkippedIsCreatedExactly` | scripts/migrate-pass-to-1password.py:741-818 | an entry that matched once is planned by a later run if and only if every item that would match it in full is overlooked then and the URLs compared can be parsed, and created if and only if, besides, its payload can be built and the creation succeeds |
| `MigrationIndex.SkippedStaysSkipped` | scripts/migrate-pass-to-1password.py:741-818 | so it is not while every item it could have matched is kept as full as it was and listed under the entry's URLs if it was before |
| `MigrationReruns.SkippedIsCreatedExample` | scripts/migrate-pass-to-1password.py:424-434 | two concrete runs over entries the classifier classifies so: the first skips an entry by the URL of an API credential, the second creates it, because that URL lives in a custom field the listing does not show: the exact condition, met |

## Left out

- Runs.AcceptedDeliveryIsCurrent: stated for one lifetime of a key, because the revision counters restart when an occurrence is deleted and created again
- Handshake.PositiveAckMeans: the promise that a positive acknowledgement means a recorded delivery is replaced by its exact condition, because the code does not keep it
- Finality.RemovedKeysSettle: says where a removed key stands after the poll and not that it is gone for good, because a close that resumes brings it back
- MigrationRuns.DryRunPredictsApply: assumes that payloads can be built and creations succeed, because a dry run tries neither
- Broker.CacheServesTheLastScan: the clock is a natural number and the TTL a whole number of its units
- Integer overflow of attempt counts, and the wrap of the activity generation after 2^64 changes.
- Nil maps are not told apart from empty ones, and the slices inside copied states are values, so aliasing between a state and its copy is not modelled.
- Which field a validation error names: every one is the same invalid-state error.
- The text of notification bodies: they are kept as the data they are formatted from.
- The library sorts are modelled as insertion sorts; only that the result is sorted and a permutation is used.
- Events from outside sent into the loop by `Send`: only what ticks, workers and the transport hand over takes part in executions.
- Receiving an event up to its acknowledgement is one step of an execution, and each later dispatch is a step of its own; a crash between two steps is a restart from the disk.
- Re-validation inside the state store's own save: on accepted states it changes nothing.
- Reading an item that the vault lists but cannot show: the exact results about the planner's indexes are for listings whose items can be read.
- Cancellation, shutdown order and wall-clock timeouts; a stopped run simply has no further steps.
- Diagnostics, status output, configuration, logging, D-Bus, logind, OAuth, Google Calendar, browser launching and systemctl: only the shape of their results is kept.
- JSON encoding, file modes and permissions, and the parsing and SHA-256 hashing behind occurrence keys.
- Normalization of calendar candidates into meetings (meeting.go): its output is an input here.
- The set that keeps the broker's plain tasks alive, request classification, native-message framing and the client timeout itself (a timeout is a cancelled waiter); what the runner does.
- Deep copies are one new object: sharing inside a response is not modelled.
- The metadata hook's record separators: records are taken after they have been split and decoded; index modification times are ignored.
- Migration preflight, discovery of recent entries, decryption and parsing: their results, failures included, are inputs. The order in which several created or matched ids are printed is not kept.
- Digits in numbered field names are the ten ASCII digits.
- `scripts/reset-firefox-onepassword-indexeddb.py`, the Nix modules and the shell scripts.

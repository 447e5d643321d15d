// What the notification transport's events leave of an occurrence, told field by
// field: deliveries, failures, completed closes, and what the user does.
module NoticeOutcomes {
  import opened Wrappers
  import opened Meetings
  import opened Storage
  import opened Events
  import opened Retry
  import opened Expiry
  import opened Reconcile
  import opened ReducerNotifications
  import opened Scheduler
  import opened Reducer
  import opened Pointwise
  import opened Closure
  import opened Lifetimes
  import opened Runs
  import opened Owner
  import opened System
  import opened WriteAhead
  import opened TickOutcomes
  import opened EffectOutcomes

  // ---- which occurrence a notice is about -----------------------------------------------

  // A notice that is not for this occurrence only lets it age: one that answers an
  // authorization warning, names another key, or carries another id.
  predicate IsAbout(n: Notification, k: Key, o: Occurrence) {
    match n
    case Delivered(key, account, _, _) => account == "" && key == k
    case Failed(key, account, _, _) => account == "" && key == k
    case CommandCompleted(key, _) => key == k
    case SignalReceived(signal) => signal.id != 0 && signal.id == o.notificationId
  }

  lemma TargetIsAbout(s: State, n: Notification, k: Key)
    requires UniqueIds(s.occurrences) && k in s.occurrences
    ensures Target(n, IndexOf(s.occurrences)) == Some(k) <==> IsAbout(n, k, s.occurrences[k])
    ensures IsAbout(n, k, s.occurrences[k]) ==> !AnswersWarning(s, n)
  {
  }

  lemma OthersOnlyAge(s: State, e: Event, policy: Policy, k: Key)
    requires Valid(s) && IsNormal(s) && e.payload.Notice? && Reduce(s, IndexOf(s.occurrences), e, policy).Ok?
    requires k in s.occurrences && !IsAbout(e.payload.notification, k, s.occurrences[k])
    ensures AgesTo(Some(s.occurrences[k]), e.at,
                   Lookup(Reduce(s, IndexOf(s.occurrences), e, policy).value.state.occurrences, k))
  {
    var n, o := e.payload.notification, s.occurrences[k];
    NormalNextAt(s, IndexOf(s.occurrences), e, policy, k);
    TargetIsAbout(s, n, k);
    SettlingAges(Some(o), e.at);
  }

  // The event reaches the occurrence it is about.
  lemma NoticeReaches(s: State, e: Event, policy: Policy, k: Key)
    requires Valid(s) && IsNormal(s) && e.payload.Notice? && Reduce(s, IndexOf(s.occurrences), e, policy).Ok?
    requires k in s.occurrences && IsAbout(e.payload.notification, k, s.occurrences[k])
    ensures Lookup(Reduce(s, IndexOf(s.occurrences), e, policy).value.state.occurrences, k)
         == SettledOne(NotificationOne(s.occurrences[k], e.payload.notification, e.at, policy), e.at)
  {
    var n := e.payload.notification;
    NormalNextAt(s, IndexOf(s.occurrences), e, policy, k);
    TargetIsAbout(s, n, k);
  }

  // ---- what the user does --------------------------------------------------------------------

  // The button still works: the notification is shown or in the history, its action
  // has not expired, its URL may be opened, and a join revision is left.
  predicate Joinable(o: Occurrence, at: Time, policy: Policy) {
    && (o.phase == Notified || o.phase == ActionableHistory)
    && at < o.actionExpiresAt
    && policy.validActionURL(o.meeting.url)
    && o.joinRevision < MAX_REVISION
  }

  // A click on the action a notification offered.
  ghost predicate Offered(s: State, t: Time, lead: nat, action: string) {
    exists k, command ::
      && NotifyEffect(k, command) in PendingEffects(s.occurrences, t, lead)
      && command.NotifyCommand? && command.request.actions != [] && command.request.actions[0] == action
  }

  lemma OfferedIsJoin(s: State, t: Time, lead: nat, action: string)
    requires Offered(s, t, lead, action)
    ensures action == "join"
  {
    var k, command :| NotifyEffect(k, command) in PendingEffects(s.occurrences, t, lead)
                      && command.NotifyCommand? && command.request.actions != []
                         && command.request.actions[0] == action;
    PendingMeant(s, Event(t, Tick), lead, NotifyEffect(k, command));
  }

  predicate ClickedTo(o: Occurrence, action: string, at: Time, policy: Policy, next: Slot) {
    if action == "join" && Joinable(o, at, policy) then
      next == Some(Occurrence(o.meeting, JoinPending, o.notificationId, o.notifiedAt, o.actionExpiresAt, o.notBefore,
                              o.attempt, at, o.joinedAt, o.closeReason, o.phase, o.notifyRevision, o.joinRevision + 1))
    else AgesTo(Some(o), at, next)
  }

  lemma SignalledOne(o: Occurrence, signal: Signal, at: Time, policy: Policy)
    requires ValidOccurrence(o) && signal.id == o.notificationId && signal.ActionInvoked?
    ensures ClickedTo(o, signal.actionKey, at, policy, SettledOne(SignalOne(o, signal, at, policy), at))
  {
  }

  lemma ClickedJoins(o: Occurrence, action: string, at: Time, policy: Policy, next: Slot)
    requires ClickedTo(o, action, at, policy, next)
    ensures o.phase != JoinPending && next.Some? && next.value.phase == JoinPending
       <==> action == "join" && Joinable(o, at, policy)
  {
  }

  // A click asks for a join exactly when it is on the offered action and the button
  // still works; any other click lets the occurrence age.
  lemma ClickLeaves(s: State, e: Event, policy: Policy, k: Key, action: string)
    requires Valid(s) && IsNormal(s) && Reduce(s, IndexOf(s.occurrences), e, policy).Ok?
    requires k in s.occurrences && s.occurrences[k].notificationId != 0
    requires e.payload == Notice(SignalReceived(ActionInvoked(s.occurrences[k].notificationId, action)))
    ensures var (o, next) := (s.occurrences[k],
                              Lookup(Reduce(s, IndexOf(s.occurrences), e, policy).value.state.occurrences, k));
            && ClickedTo(o, action, e.at, policy, next)
            && (o.phase != JoinPending && next.Some? && next.value.phase == JoinPending
                <==> action == "join" && Joinable(o, e.at, policy))
  {
    assert ValidOccurrence(s.occurrences[k]);
    NoticeReaches(s, e, policy, k);
    SignalledOne(s.occurrences[k], ActionInvoked(s.occurrences[k].notificationId, action), e.at, policy);
    ClickedJoins(s.occurrences[k], action, e.at, policy,
                 Lookup(Reduce(s, IndexOf(s.occurrences), e, policy).value.state.occurrences, k));
  }

  // So a click on what some notification offered, on a button that still works,
  // leads to a launch: the state asks for one, with the next join revision.
  lemma ClickLaunches(s: State, e: Event, policy: Policy, k: Key, action: string, shown: State, t: Time)
    requires Valid(s) && IsNormal(s) && Reduce(s, IndexOf(s.occurrences), e, policy).Ok?
    requires k in s.occurrences && s.occurrences[k].notificationId != 0
    requires e.payload == Notice(SignalReceived(ActionInvoked(s.occurrences[k].notificationId, action)))
    requires Offered(shown, t, policy.lead, action) && Joinable(s.occurrences[k], e.at, policy)
    ensures var outcome := Reduce(s, IndexOf(s.occurrences), e, policy).value;
            && k in outcome.state.occurrences && outcome.state.occurrences[k].phase == JoinPending
            && outcome.state.occurrences[k].joinRevision == s.occurrences[k].joinRevision + 1
            && exists effect :: effect in outcome.effects && effect.LaunchEffect?
  {
    OfferedIsJoin(shown, t, policy.lead, action);
    ClickLeaves(s, e, policy, k, action);
    EffectsAskForAll(s, IndexOf(s.occurrences), e, policy);
  }

  // A notification that closes by itself goes to the history with its action; one
  // that the owner was closing is closed.
  predicate ClosedTo(o: Occurrence, at: Time, next: Slot) {
    if o.phase == Notified then next == Some(o.(phase := ActionableHistory))
    else if o.phase == ClosePending then ReopenedTo(o, next)
    else AgesTo(Some(o), at, next)
  }

  // A close is done: a meeting that was rescheduled waits again, any other is gone.
  predicate ReopenedTo(o: Occurrence, next: Slot) {
    if o.resumePhase == Scheduled then
      next == Some(Occurrence(o.meeting, Scheduled, 0, 0, 0, 0, 0, 0, 0, NoReason, NoPhase,
                              o.notifyRevision, o.joinRevision))
    else next == None
  }

  lemma DismissedOne(o: Occurrence, id: NotificationId, at: Time, policy: Policy)
    requires ValidOccurrence(o) && id == o.notificationId
    requires o.phase == ClosePending ==> o.resumePhase == NoPhase || o.resumePhase == Scheduled
    ensures ClosedTo(o, at, SettledOne(SignalOne(o, NotificationClosed(id), at, policy), at))
  {
  }

  lemma DismissalLeaves(s: State, t: Time, e: Event, policy: Policy, k: Key)
    requires Sound(s, t, policy.lead) && Reduce(s, IndexOf(s.occurrences), e, policy).Ok?
    requires k in s.occurrences && s.occurrences[k].notificationId != 0
    requires e.payload == Notice(SignalReceived(NotificationClosed(s.occurrences[k].notificationId)))
    ensures ClosedTo(s.occurrences[k], e.at,
                     Lookup(Reduce(s, IndexOf(s.occurrences), e, policy).value.state.occurrences, k))
  {
    SoundIsNormal(s, t, policy.lead);
    assert ValidOccurrence(s.occurrences[k]) && SoundOne(s.occurrences[k], t, policy.lead);
    NoticeReaches(s, e, policy, k);
    DismissedOne(s.occurrences[k], s.occurrences[k].notificationId, e.at, policy);
  }

  // ---- what the server did ---------------------------------------------------------------------

  // A delivery of the pending revision is on the screen under its id, with an action
  // that lasts 24 hours; any other delivery changes nothing.
  predicate DeliveredTo(o: Occurrence, revision: Revision, id: NotificationId, at: Time, next: Slot) {
    if o.phase == NotifyPending && o.notifyRevision == revision then
      next == Some(Occurrence(o.meeting, Notified, id, at, at + 86400 * 1_000_000_000, 0, 0, 0, 0, NoReason, NoPhase,
                              o.notifyRevision, o.joinRevision))
    else AgesTo(Some(o), at, next)
  }

  lemma DeliveredOne(o: Occurrence, n: Notification, at: Time, policy: Policy)
    requires ValidOccurrence(o) && n.Delivered?
    ensures DeliveredTo(o, n.revision, n.id, at, SettledOne(NotificationOne(o, n, at, policy), at))
  {
  }

  lemma DeliveryLeaves(s: State, e: Event, policy: Policy, k: Key, revision: Revision, id: NotificationId)
    requires Valid(s) && IsNormal(s) && Reduce(s, IndexOf(s.occurrences), e, policy).Ok? && k in s.occurrences
    requires e.payload == Notice(Delivered(k, "", revision, id))
    ensures DeliveredTo(s.occurrences[k], revision, id, e.at,
                        Lookup(Reduce(s, IndexOf(s.occurrences), e, policy).value.state.occurrences, k))
  {
    assert ValidOccurrence(s.occurrences[k]);
    NoticeReaches(s, e, policy, k);
    DeliveredOne(s.occurrences[k], e.payload.notification, e.at, policy);
  }

  // Minutes to wait after that many failures in a row.
  function WaitMinutes(attempt: int): nat {
    if attempt <= 1 then 1 else if attempt == 2 then 2 else if attempt == 3 then 4 else if attempt == 4 then 8 else 15
  }

  // One more failure, and a wait: of the minutes for that many failures, and for a
  // close of up to a quarter more. Nothing else changes.
  predicate FailedTo(o: Occurrence, at: Time, next: Occurrence) {
    var wait := WaitMinutes(o.attempt + 1) * 60 * 1_000_000_000;
    && next == o.(attempt := o.attempt + 1, notBefore := next.notBefore)
    && at + wait <= next.notBefore <= at + wait + (if o.phase == ClosePending then wait / 4 else 0)
  }

  // The failure is of the work the occurrence waits for.
  predicate FailsWork(o: Occurrence, revision: Revision, id: NotificationId) {
    || (o.phase == ClosePending && id != 0 && id == o.notificationId)
    || (o.phase == NotifyPending && o.notifyRevision == revision)
  }

  lemma FailedOne(o: Occurrence, n: Notification, at: Time, policy: Policy)
    requires ValidOccurrence(o) && n.Failed?
    ensures var next := NotificationOne(o, n, at, policy);
            next.Some? && if FailsWork(o, n.revision, n.id) then FailedTo(o, at, next.value) else next.value == o
  {
    DelayInMinutes(o.attempt + 1);
    BackoffWindow(at, o.attempt + 1, (limit: nat) => policy.keyHash(n.key) % (limit + 1));
  }

  lemma DelayInMinutes(attempt: int)
    requires attempt >= 1
    ensures Delay(attempt) == WaitMinutes(attempt) * 60 * 1_000_000_000
  {
    DelayClosedForm(attempt);
    assert Pow2(0) == 1 && Pow2(1) == 2 && Pow2(2) == 4 && Pow2(3) == 8;
    if attempt >= 5 {
      Pow2Monotone(4, attempt - 1);
      assert Pow2(4) == 16;
    } else {
      assert attempt == 1 || attempt == 2 || attempt == 3 || attempt == 4;
    }
  }

  lemma FailureLeaves(s: State, e: Event, policy: Policy, k: Key, revision: Revision, id: NotificationId)
    requires Valid(s) && IsNormal(s) && Reduce(s, IndexOf(s.occurrences), e, policy).Ok? && k in s.occurrences
    requires e.payload == Notice(Failed(k, "", revision, id))
    ensures exists failed: Occurrence ::
              && (if FailsWork(s.occurrences[k], revision, id) then FailedTo(s.occurrences[k], e.at, failed)
                  else failed == s.occurrences[k])
              && AgesTo(Some(failed), e.at,
                        Lookup(Reduce(s, IndexOf(s.occurrences), e, policy).value.state.occurrences, k))
  {
    assert ValidOccurrence(s.occurrences[k]);
    NoticeReaches(s, e, policy, k);
    FailedOne(s.occurrences[k], e.payload.notification, e.at, policy);
    SettlingAges(NotificationOne(s.occurrences[k], e.payload.notification, e.at, policy), e.at);
  }

  lemma CompletedOne(o: Occurrence, k: Key, id: NotificationId, at: Time, policy: Policy)
    requires ValidOccurrence(o)
    requires o.phase == ClosePending ==> o.resumePhase == NoPhase || o.resumePhase == Scheduled
    ensures var next := SettledOne(NotificationOne(o, CommandCompleted(k, id), at, policy), at);
            if o.phase == ClosePending && (id == 0 || id == o.notificationId) then ReopenedTo(o, next)
            else AgesTo(Some(o), at, next)
  {
  }

  // A completed close ends the close of its id, or whatever close there is when it
  // names none; any other completion changes nothing.
  lemma CompletionLeaves(s: State, t: Time, e: Event, policy: Policy, k: Key, id: NotificationId)
    requires Sound(s, t, policy.lead) && Reduce(s, IndexOf(s.occurrences), e, policy).Ok? && k in s.occurrences
    requires e.payload == Notice(CommandCompleted(k, id))
    ensures var (o, next) := (s.occurrences[k],
                              Lookup(Reduce(s, IndexOf(s.occurrences), e, policy).value.state.occurrences, k));
            if o.phase == ClosePending && (id == 0 || id == o.notificationId) then ReopenedTo(o, next)
            else AgesTo(Some(o), e.at, next)
  {
    SoundIsNormal(s, t, policy.lead);
    assert ValidOccurrence(s.occurrences[k]) && SoundOne(s.occurrences[k], t, policy.lead);
    NoticeReaches(s, e, policy, k);
    CompletedOne(s.occurrences[k], k, id, e.at, policy);
  }

  // ---- what a worker reports answers what it was asked ----------------------------------------------

  // The report of a command handed out for durable work is about that work: it
  // delivers or fails the pending revision, or ends or fails the pending close.
  lemma ReportAnswersItsCommand(s: State, effect: Effect, outcome: CommandOutcome)
    requires DurableWork(s, effect) && (effect.NotifyEffect? || effect.CloseEffect?)
    requires effect.CloseEffect? ==> s.occurrences[effect.key].notificationId != 0
    ensures var (n, o) := (Report(effect.command, outcome), s.occurrences[effect.key]);
            && IsAbout(n, effect.key, o)
            && (if outcome.CallFailed? then n.Failed? && FailsWork(o, n.revision, n.id)
                else if o.phase == NotifyPending then n == Delivered(effect.key, "", o.notifyRevision, outcome.id)
                else n == CommandCompleted(effect.key, o.notificationId))
  {
  }

  // And a launch worker's result is for the join its command was handed out for.
  lemma LaunchAnswersItsCommand(s: System, durable: State, at: Time, failed: bool, save: SaveResult)
    requires s.launcher.Some? && s.launcher.value.LaunchEffect? && DurableWork(durable, s.launcher.value)
    ensures var e := HandedEvent(s, LaunchAnswers(at, failed, save));
            && e.Some? && e.value.at == at && e.value.payload.LaunchDone? && e.value.payload.failed == failed
            && e.value.payload.key in durable.occurrences
            && durable.occurrences[e.value.payload.key].phase == JoinPending
            && durable.occurrences[e.value.payload.key].joinRevision == e.value.payload.joinRevision
  {
  }

  // So is the report of a warning command: it delivers or fails the pending warning.
  lemma ReportAnswersItsWarning(s: State, effect: Effect, outcome: CommandOutcome)
    requires DurableWork(s, effect) && effect.AuthWarningEffect? && effect.account != ""
    ensures var n := Report(effect.command, outcome);
            && n.account == effect.account && n.revision == s.pendingAuthWarnings[effect.account].revision
            && (if outcome.CallFailed? then n.Failed? else n.Delivered? && n.id == outcome.id)
  {
  }

  // And a poll worker's result carries the account and the generation of its command,
  // and what the source answered.
  lemma PollAnswersItsCommand(s: System, a: Label, at: Time, answer: PollAnswer, save: SaveResult)
    requires a in s.polls
    ensures var e := HandedEvent(s, PollAnswers(a, at, answer, save));
            && e.Some? && e.value.at == at && e.value.payload.PollDone?
            && e.value.payload.poll
               == PollResult(a, s.polls[a].generation, answer.fetchedAt, answer.meetings, answer.observations,
                             answer.error)
  {
  }

  // ---- answers to authorization warnings ----------------------------------------------------------

  // A delivery of the pending revision clears the warning and is remembered, a failure
  // of it waits for the minutes of that many failures; nothing else changes.
  predicate WarningTo(s: State, n: Notification, at: Time, next: State)
    requires n.Delivered? || n.Failed?
  {
    if n.account !in s.pendingAuthWarnings || s.pendingAuthWarnings[n.account].revision != n.revision then
      next.pendingAuthWarnings == s.pendingAuthWarnings && next.authWarnings == s.authWarnings
    else if n.Delivered? then
      && next.pendingAuthWarnings == s.pendingAuthWarnings - {n.account}
      && next.authWarnings == s.authWarnings[n.account := at]
    else
      var w := s.pendingAuthWarnings[n.account];
      && next.authWarnings == s.authWarnings
      && next.pendingAuthWarnings == s.pendingAuthWarnings[n.account :=
           AuthWarning(w.revision, w.createdAt, at + WaitMinutes(w.attempt + 1) * 60 * 1_000_000_000, w.attempt + 1)]
  }

  lemma WarningOne(s: State, index: Index, n: Notification, at: Time, policy: Policy)
    requires ValidWarnings(s) && (n.Delivered? || n.Failed?) && n.account != ""
    ensures WarningTo(s, n, at, ApplyNotification(s, index, n, at, policy))
  {
    if AnswersWarning(s, n) {
      assert ValidWarning(s, n.account);
      DelayInMinutes(s.pendingAuthWarnings[n.account].attempt + 1);
    }
  }

  lemma WarningAnswerLeaves(s: State, index: Index, e: Event, policy: Policy)
    requires Valid(s) && IsNormal(s) && e.payload.Notice? && Reduce(s, index, e, policy).Ok?
    requires e.payload.notification.Delivered? || e.payload.notification.Failed?
    requires e.payload.notification.account != ""
    ensures WarningTo(s, e.payload.notification, e.at, Reduce(s, index, e, policy).value.state)
  {
    NormalTransition(s, index, e, policy);
    assert Transition(s, index, e, policy) == Ok(ApplyNotification(s, index, e.payload.notification, e.at, policy));
    WarningOne(s, index, e.payload.notification, e.at, policy);
  }
}

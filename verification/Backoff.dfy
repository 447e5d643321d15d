// Backoff over whole runs: what has failed waits until its next attempt, whatever
// else happens meanwhile.
module Backoff {
  import opened Wrappers
  import opened Meetings
  import opened Storage
  import opened Events
  import opened Retry
  import opened Expiry
  import opened Reconcile
  import opened ReducerNotifications
  import opened PollHealth
  import opened Scheduler
  import opened Reducer
  import opened Pointwise
  import opened Closure
  import opened Lifetimes
  import opened Runs
  import opened Finality

  // ---- how long the last failure can make an item wait ----------------------------

  function FailureWait(attempt: int): nat {
    if attempt < 1 then 0 else Delay(attempt)
  }

  function CloseWait(attempt: int, k: Key, policy: Policy): nat {
    if attempt < 1 then 0 else CloseRetry(0, attempt, k, policy.keyHash).nextAttempt
  }

  lemma DelayGrows(attempt: int)
    requires attempt >= 1
    ensures Delay(attempt) == Delay(attempt + 1) || 5 * Delay(attempt) <= 4 * Delay(attempt + 1)
    ensures Delay(attempt) <= Delay(attempt + 1)
  {
    DelayClosedForm(attempt);
    DelayClosedForm(attempt + 1);
    assert Pow2(attempt) == 2 * Pow2(attempt - 1);
    if attempt >= 4 {
      Pow2Monotone(3, attempt - 1);
      assert Pow2(3) == 8;
    } else {
      assert Pow2(0) == 1 && Pow2(1) == 2 && Pow2(2) == 4;
      assert attempt == 1 || attempt == 2 || attempt == 3;
    }
  }

  // A close retry waits for its delay and a share of it that the key decides; more
  // failures never make it wait less.
  lemma CloseWaitGrows(attempt: int, k: Key, policy: Policy)
    ensures CloseWait(attempt, k, policy) <= CloseWait(attempt + 1, k, policy)
  {
    if attempt >= 1 {
      DelayGrows(attempt);
    }
  }

  lemma CloseRetryIs(at: Time, attempt: int, k: Key, policy: Policy)
    requires attempt >= 1
    ensures CloseRetry(at, attempt, k, policy.keyHash) == Retry(attempt, at + CloseWait(attempt, k, policy))
  {
  }

  lemma NextRetryIs(at: Time, attempt: int)
    requires attempt >= 1
    ensures NextRetry(at, attempt, NoJitter) == Retry(attempt, at + FailureWait(attempt))
  {
  }

  // ---- the invariant ---------------------------------------------------------------

  predicate PatientOne(o: Occurrence, k: Key, t: Time, policy: Policy) {
    && (o.phase == NotifyPending ==> o.notBefore <= t + FailureWait(o.attempt))
    && (o.phase == ClosePending ==> o.notBefore <= t + CloseWait(o.attempt, k, policy))
  }

  predicate PatientWarning(w: AuthWarning, t: Time) {
    w.notBefore <= t + FailureWait(w.attempt)
  }

  ghost predicate Patient(s: State, t: Time, policy: Policy) {
    && (forall k | k in s.occurrences :: PatientOne(s.occurrences[k], k, t, policy))
    && (forall a | a in s.pendingAuthWarnings :: PatientWarning(s.pendingAuthWarnings[a], t))
  }

  // Work that stays pending under one revision is never tried earlier than before.
  predicate WaitsOn(o: Occurrence, next: Occurrence) {
    && (o.phase == NotifyPending && next.phase == NotifyPending && o.notifyRevision == next.notifyRevision ==>
          o.notBefore <= next.notBefore)
    && (o.phase == ClosePending && next.phase == ClosePending ==> o.notBefore <= next.notBefore)
  }

  ghost predicate PatientStep(prior: Slot, next: Slot, k: Key, at: Time, policy: Policy) {
    next.Some? ==>
      && PatientOne(next.value, k, at, policy)
      && (prior.Some? ==> WaitsOn(prior.value, next.value))
  }

  // ---- one occurrence, one event -----------------------------------------------------

  lemma LaterIsPatient(o: Occurrence, k: Key, t: Time, at: Time, policy: Policy)
    requires PatientOne(o, k, t, policy) && t <= at
    ensures PatientOne(o, k, at, policy)
  {
  }

  lemma CurrentIsPatient(prior: Slot, m: Meeting, k: Key, at: Time, policy: Policy)
    requires prior.Some? ==> PatientOne(prior.value, k, at, policy)
    requires CurrentOne(prior, m, at, policy.lead).Ok?
    ensures PatientStep(prior, Some(CurrentOne(prior, m, at, policy.lead).value), k, at, policy)
  {
  }

  lemma RemoveIsPatient(prior: Slot, reason: CloseReason, k: Key, at: Time, policy: Policy)
    requires prior.Some? ==> PatientOne(prior.value, k, at, policy)
    requires RemoveOne(prior, reason).Ok?
    ensures PatientStep(prior, RemoveOne(prior, reason).value, k, at, policy)
  {
  }

  lemma ReconcileIsPatient(prior: Slot, v: Verdict, k: Key, at: Time, policy: Policy)
    requires prior.Some? ==> NearlySound(prior.value, at, policy.lead) && PatientOne(prior.value, k, at, policy)
    requires v.vanished ==> v.current.None? && v.removal.None?
    requires ReconcileOne(prior, v, at, policy.lead).Ok?
    ensures PatientStep(prior, ReconcileOne(prior, v, at, policy.lead).value, k, at, policy)
  {
    if v.vanished {
      RemoveIsPatient(prior, CloseDeleted, k, at, policy);
    } else {
      var second := AfterCurrent(prior, v, at, policy.lead).value;
      if v.current.Some? {
        CurrentIsPatient(prior, v.current.value, k, at, policy);
      }
      if v.removal.Some? {
        RemoveIsPatient(second, CloseReasonOf(v.removal.value).value, k, at, policy);
      }
    }
  }

  // A failure counts one attempt and waits from now on, at least as long.
  lemma FailureIsPatient(o: Occurrence, n: Notification, k: Key, t: Time, at: Time, policy: Policy)
    requires ValidOccurrence(o) && PatientOne(o, k, t, policy) && t <= at
    requires n.Failed? && n.key == k
    ensures PatientStep(Some(o), NotificationOne(o, n, at, policy), k, at, policy)
  {
    CloseRetryIs(at, o.attempt + 1, k, policy);
    NextRetryIs(at, o.attempt + 1);
    CloseWaitGrows(o.attempt, k, policy);
    if o.attempt >= 1 {
      DelayGrows(o.attempt);
    }
  }

  lemma NoticeIsPatient(o: Occurrence, n: Notification, k: Key, t: Time, at: Time, policy: Policy)
    requires ValidOccurrence(o) && SoundOne(o, t, policy.lead) && PatientOne(o, k, t, policy) && t <= at
    requires n.Failed? ==> n.key == k
    ensures PatientStep(Some(o), NotificationOne(o, n, at, policy), k, at, policy)
  {
    if n.Failed? {
      FailureIsPatient(o, n, k, t, at, policy);
    } else {
      LaterIsPatient(o, k, t, at, policy);
    }
  }

  lemma OtherIsPatient(o: Occurrence, e: Event, k: Key, policy: Policy)
    requires PatientOne(o, k, e.at, policy)
    ensures PatientStep(Some(o), PruneOne(o, e.at), k, e.at, policy)
    ensures PatientStep(Some(o), Some(PromoteOne(o, e.at, policy.lead)), k, e.at, policy)
    ensures PatientStep(Some(o), Some(o), k, e.at, policy)
  {
  }

  lemma LaunchIsPatient(o: Occurrence, revision: Revision, failed: bool, k: Key, at: Time, policy: Policy)
    requires ValidOccurrence(o) && PatientOne(o, k, at, policy)
    ensures PatientStep(Some(o), Some(LaunchedOne(o, revision, failed, at)), k, at, policy)
  {
  }

  lemma PolledIsPatient(s: State, t: Time, poll: PollResult, at: Time, policy: Policy, k: Key)
    requires Sound(s, t, policy.lead) && t <= at
    requires WellFormedPoll(poll) && OutcomeAt(s, poll, at, policy.lead, k).Ok?
    requires k in s.occurrences ==> PatientOne(s.occurrences[k], k, at, policy)
    ensures PatientStep(Lookup(s.occurrences, k), OutcomeAt(s, poll, at, policy.lead, k).value, k, at, policy)
  {
    assert k in s.occurrences ==> SoundOne(s.occurrences[k], t, policy.lead);
    VerdictShape(s, poll, k);
    ReconcileIsPatient(Lookup(s.occurrences, k), VerdictOf(s, poll, k), k, at, policy);
  }

  lemma MovedIsPatient(s: State, t: Time, index: Index, e: Event, policy: Policy, k: Key)
    requires Sound(s, t, policy.lead) && t <= e.at && Transition(s, index, e, policy).Ok?
    requires k in s.occurrences ==> PatientOne(s.occurrences[k], k, t, policy)
    ensures PatientStep(Lookup(s.occurrences, k), MovedOne(s, index, e, policy, k), k, e.at, policy)
  {
    if k in s.occurrences {
      assert SoundOne(s.occurrences[k], t, policy.lead) && ValidOccurrence(s.occurrences[k]);
      LaterIsPatient(s.occurrences[k], k, t, e.at, policy);
      if !e.payload.PollDone? {
        KnownIsPatient(s, s.occurrences[k], t, index, e, policy, k);
      }
    }
    if e.payload.PollDone? && e.payload.poll.error.None?
       && OutcomeAt(s, e.payload.poll, e.at, policy.lead, k).Ok? {
      PolledIsPatient(s, t, e.payload.poll, e.at, policy, k);
    }
  }

  lemma KnownIsPatient(s: State, o: Occurrence, t: Time, index: Index, e: Event, policy: Policy, k: Key)
    requires Lookup(s.occurrences, k) == Some(o) && ValidOccurrence(o) && SoundOne(o, t, policy.lead)
    requires PatientOne(o, k, t, policy) && PatientOne(o, k, e.at, policy) && t <= e.at && !e.payload.PollDone?
    ensures PatientStep(Some(o), MovedOne(s, index, e, policy, k), k, e.at, policy)
  {
    OtherIsPatient(o, e, k, policy);
    match e.payload {
      case Tick =>
      case ActivityDone(_, _, _) =>
      case Notice(n) =>
        if !AnswersWarning(s, n) && Target(n, index) == Some(k) {
          NoticeIsPatient(o, n, k, t, e.at, policy);
        }
      case LaunchDone(_, _, revision, failed) => LaunchIsPatient(o, revision, failed, k, e.at, policy);
      case Malformed =>
    }
  }

  lemma SettlingIsPatient(prior: Slot, moved: Slot, k: Key, at: Time, policy: Policy)
    requires PatientStep(prior, moved, k, at, policy)
    requires prior.Some? && moved.Some? && prior.value.phase == ClosePending ==> moved.value.phase != NotifyPending
    ensures PatientStep(prior, SettledOne(moved, at), k, at, policy)
  {
  }

  lemma CloseReconciles(o: Occurrence, v: Verdict, at: Time, lead: nat)
    requires o.phase == ClosePending
    ensures ReconcileOne(Some(o), v, at, lead).Ok? ==>
              var next := ReconcileOne(Some(o), v, at, lead).value; next.Some? && next.value.phase == ClosePending
  {
  }

  lemma CloseNoticed(o: Occurrence, n: Notification, at: Time, policy: Policy)
    requires o.phase == ClosePending && (o.resumePhase == NoPhase || o.resumePhase == Scheduled)
    ensures var next := NotificationOne(o, n, at, policy); next.Some? ==> next.value.phase != NotifyPending
  {
  }

  // A close that is pending does not become a pending notification in one event.
  lemma CloseStaysAway(s: State, t: Time, index: Index, e: Event, policy: Policy, k: Key)
    requires Sound(s, t, policy.lead) && Transition(s, index, e, policy).Ok?
    requires k in s.occurrences && s.occurrences[k].phase == ClosePending
    ensures var moved := MovedOne(s, index, e, policy, k); moved.Some? ==> moved.value.phase != NotifyPending
  {
    var o := s.occurrences[k];
    assert SoundOne(o, t, policy.lead);
    match e.payload {
      case PollDone(poll) => CloseReconciles(o, VerdictOf(s, poll, k), e.at, policy.lead);
      case Notice(n) => CloseNoticed(o, n, e.at, policy);
      case Tick =>
      case ActivityDone(_, _, _) =>
      case LaunchDone(_, _, _, _) =>
    }
  }

  lemma OccurrenceIsPatient(s: State, t: Time, index: Index, e: Event, policy: Policy, k: Key)
    requires Sound(s, t, policy.lead) && t <= e.at && Reduce(s, index, e, policy).Ok?
    requires k in s.occurrences ==> PatientOne(s.occurrences[k], k, t, policy)
    ensures PatientStep(Lookup(s.occurrences, k), Lookup(Reduce(s, index, e, policy).value.state.occurrences, k),
                        k, e.at, policy)
  {
    SoundIsNormal(s, t, policy.lead);
    NormalNextAt(s, index, e, policy, k);
    MovedIsPatient(s, t, index, e, policy, k);
    if k in s.occurrences && s.occurrences[k].phase == ClosePending {
      CloseStaysAway(s, t, index, e, policy, k);
    }
    SettlingIsPatient(Lookup(s.occurrences, k), MovedOne(s, index, e, policy, k), k, e.at, policy);
  }

  lemma RestartIsPatient(o: Occurrence, k: Key, t: Time, now: Time, policy: Policy)
    requires SoundOne(o, t, policy.lead) && PatientOne(o, k, t, policy) && t <= now
    ensures PatientStep(Some(o), ExpireOne(o, now), k, now, policy)
  {
  }

  // ---- one warning, one event ---------------------------------------------------------

  // A warning that stays pending under one revision is never tried earlier.
  ghost predicate WarningStep(s: State, next: State, a: Label, at: Time) {
    a in next.pendingAuthWarnings ==>
      && PatientWarning(next.pendingAuthWarnings[a], at)
      && (a in s.pendingAuthWarnings
          && s.pendingAuthWarnings[a].revision == next.pendingAuthWarnings[a].revision ==>
            s.pendingAuthWarnings[a].notBefore <= next.pendingAuthWarnings[a].notBefore)
  }

  lemma AnsweredIsPatient(s: State, t: Time, index: Index, n: Notification, at: Time, policy: Policy, a: Label)
    requires ValidWarnings(s) && AnswersWarning(s, n) && t <= at
    requires a in s.pendingAuthWarnings ==> PatientWarning(s.pendingAuthWarnings[a], t)
    ensures WarningStep(s, ApplyNotification(s, index, n, at, policy), a, at)
  {
    var w := s.pendingAuthWarnings[n.account];
    assert ValidWarning(s, n.account);
    NextRetryIs(at, w.attempt + 1);
    if w.attempt >= 1 {
      DelayGrows(w.attempt);
    }
  }

  lemma FailedPollIsPatient(s: State, t: Time, poll: PollResult, kind: PollErrorKind, at: Time, a: Label)
    requires FailedPoll(s, poll, kind, at).Ok? && t <= at
    requires a in s.pendingAuthWarnings ==> PatientWarning(s.pendingAuthWarnings[a], t)
    ensures WarningStep(s, FailedPoll(s, poll, kind, at).value, a, at)
  {
  }

  lemma WarningIsPatient(s: State, t: Time, index: Index, e: Event, policy: Policy, a: Label)
    requires Sound(s, t, policy.lead) && t <= e.at && Reduce(s, index, e, policy).Ok?
    requires a in s.pendingAuthWarnings ==> PatientWarning(s.pendingAuthWarnings[a], t)
    ensures WarningStep(s, Reduce(s, index, e, policy).value.state, a, e.at)
  {
    SoundIsNormal(s, t, policy.lead);
    TransitionWarning(s, t, index, e, policy, a);
  }

  lemma TransitionWarning(s: State, t: Time, index: Index, e: Event, policy: Policy, a: Label)
    requires ValidWarnings(s) && t <= e.at && Transition(s, index, e, policy).Ok?
    requires a in s.pendingAuthWarnings ==> PatientWarning(s.pendingAuthWarnings[a], t)
    ensures WarningStep(s, Transition(s, index, e, policy).value, a, e.at)
  {
    if !TouchesWarnings(s, e) {
      WarningsUntouched(s, index, e, policy);
    } else if e.payload.Notice? {
      AnsweredIsPatient(s, t, index, e.payload.notification, e.at, policy, a);
    } else {
      FailedPollIsPatient(s, t, e.payload.poll, e.payload.poll.error.value, e.at, a);
    }
  }

  // A failed warning waits at least a minute, and at most fifteen.
  lemma WarningFailureBacksOff(s: State, index: Index, e: Event, policy: Policy)
    requires Valid(s) && IsNormal(s) && Reduce(s, index, e, policy).Ok?
    requires e.payload.Notice? && e.payload.notification.Failed? && AnswersWarning(s, e.payload.notification)
    ensures var a := e.payload.notification.account;
            var next := Reduce(s, index, e, policy).value.state.pendingAuthWarnings;
            && a in next && next[a].revision == s.pendingAuthWarnings[a].revision
            && next[a].attempt == s.pendingAuthWarnings[a].attempt + 1
            && e.at + MINUTE <= next[a].notBefore <= e.at + 15 * MINUTE
  {
    NormalizedIdempotent(s);
    var n := e.payload.notification;
    assert ValidWarning(s, n.account);
    NextRetryIs(e.at, s.pendingAuthWarnings[n.account].attempt + 1);
    DelayClosedForm(s.pendingAuthWarnings[n.account].attempt + 1);
    assert Transition(s, index, e, policy) == Ok(ApplyNotification(s, index, n, e.at, policy));
  }

  // ---- whole runs -----------------------------------------------------------------------

  lemma PatientInput(s: State, t: Time, input: Input, policy: Policy, next: State, k: Key)
    requires Sound(s, t, policy.lead) && t <= TimeOf(input) && Accepts(s, input, policy, next)
    requires k in s.occurrences ==> PatientOne(s.occurrences[k], k, t, policy)
    ensures PatientStep(Lookup(s.occurrences, k), Lookup(next.occurrences, k), k, TimeOf(input), policy)
  {
    match input {
      case Handled(e) => OccurrenceIsPatient(s, t, IndexOf(s.occurrences), e, policy, k);
      case Restarted(now) =>
        SoundRestart(s, t, now, policy.lead);
        if k in s.occurrences {
          RestartIsPatient(s.occurrences[k], k, t, now, policy);
        }
    }
  }

  lemma WarningInput(s: State, t: Time, input: Input, policy: Policy, next: State, a: Label)
    requires Sound(s, t, policy.lead) && t <= TimeOf(input) && Accepts(s, input, policy, next)
    requires a in s.pendingAuthWarnings ==> PatientWarning(s.pendingAuthWarnings[a], t)
    ensures WarningStep(s, next, a, TimeOf(input))
  {
    match input {
      case Handled(e) => WarningIsPatient(s, t, IndexOf(s.occurrences), e, policy, a);
      case Restarted(now) => SoundRestart(s, t, now, policy.lead);
    }
  }

  lemma PatientAfter(s: State, t: Time, input: Input, policy: Policy, next: State)
    requires Sound(s, t, policy.lead) && Patient(s, t, policy) && t <= TimeOf(input) && Accepts(s, input, policy, next)
    ensures Patient(next, TimeOf(input), policy)
  {
    forall k | k in next.occurrences
      ensures PatientOne(next.occurrences[k], k, TimeOf(input), policy)
    {
      PatientInput(s, t, input, policy, next, k);
    }
    forall a | a in next.pendingAuthWarnings
      ensures PatientWarning(next.pendingAuthWarnings[a], TimeOf(input))
    {
      WarningInput(s, t, input, policy, next, a);
    }
  }

  lemma PatientStepAt(states: seq<State>, inputs: seq<Input>, policy: Policy, i: nat)
    requires IsRun(states, inputs, policy) && i < |inputs| && Patient(states[i], ClockAt(inputs, i), policy)
    ensures Patient(states[i + 1], TimeOf(inputs[i]), policy)
  {
    RunStep(states, inputs, policy, i);
    PatientAfter(states[i], ClockAt(inputs, i), inputs[i], policy, states[i + 1]);
  }

  // In every state of every run no item waits longer than its last failure can make
  // it wait from the time of the last event.
  lemma {:induction false} RunsArePatient(states: seq<State>, inputs: seq<Input>, policy: Policy, i: nat)
    requires IsRun(states, inputs, policy) && i <= |inputs|
    ensures Patient(states[i], ClockAt(inputs, i), policy)
  {
    if i > 0 {
      RunsArePatient(states, inputs, policy, i - 1);
      PatientStepAt(states, inputs, policy, i - 1);
    }
  }

  lemma RunStepWaits(states: seq<State>, inputs: seq<Input>, policy: Policy, k: Key, j: nat)
    requires IsRun(states, inputs, policy) && j < |inputs|
    requires k in states[j].occurrences && k in states[j + 1].occurrences
    ensures WaitsOn(states[j].occurrences[k], states[j + 1].occurrences[k])
  {
    RunsArePatient(states, inputs, policy, j);
    RunStep(states, inputs, policy, j);
    PatientInput(states[j], ClockAt(inputs, j), inputs[j], policy, states[j + 1], k);
  }

  // Nothing that is selected at time t names the key.
  ghost predicate Silent(s: State, t: Time, lead: nat, k: Key) {
    forall effect | effect in PendingEffects(s.occurrences, t, lead) :: EffectKey(effect) != Some(k)
  }

  // Pending at both ends under one revision is pending just before the end.
  lemma StillPending(states: seq<State>, inputs: seq<Input>, policy: Policy, k: Key, i: nat, j: nat)
    requires IsRun(states, inputs, policy) && i < j <= |inputs| && LivesThrough(states, k, i, j)
    requires states[i].occurrences[k].phase == NotifyPending && states[j].occurrences[k].phase == NotifyPending
    requires states[i].occurrences[k].notifyRevision == states[j].occurrences[k].notifyRevision
    ensures states[j - 1].occurrences[k].phase == NotifyPending
    ensures states[j - 1].occurrences[k].notifyRevision == states[j].occurrences[k].notifyRevision
    ensures states[j - 1].occurrences[k].notBefore <= states[j].occurrences[k].notBefore
  {
    RunStepWaits(states, inputs, policy, k, j - 1);
    LifetimeFollows(states, inputs, policy, k, j - 1, j);
    LifetimeFollows(states, inputs, policy, k, i, j - 1);
  }

  lemma {:induction false} PendingWaits(states: seq<State>, inputs: seq<Input>, policy: Policy, k: Key, i: nat, j: nat)
    requires IsRun(states, inputs, policy) && i <= j <= |inputs| && LivesThrough(states, k, i, j)
    requires states[i].occurrences[k].phase == NotifyPending && states[j].occurrences[k].phase == NotifyPending
    requires states[i].occurrences[k].notifyRevision == states[j].occurrences[k].notifyRevision
    ensures states[i].occurrences[k].notBefore <= states[j].occurrences[k].notBefore
    decreases j
  {
    if i < j {
      StillPending(states, inputs, policy, k, i, j);
      PendingWaits(states, inputs, policy, k, i, j - 1);
    }
  }

  // While a notification stays pending under one revision its next attempt never
  // comes nearer, whatever ticks, polls, reports and restarts come between; until
  // the clock reaches it nothing offers the item.
  lemma NotificationsBackOff(states: seq<State>, inputs: seq<Input>, policy: Policy, k: Key, i: nat, j: nat)
    requires IsRun(states, inputs, policy) && i <= j <= |inputs| && LivesThrough(states, k, i, j)
    requires states[i].occurrences[k].phase == NotifyPending && states[j].occurrences[k].phase == NotifyPending
    requires states[i].occurrences[k].notifyRevision == states[j].occurrences[k].notifyRevision
    ensures states[i].occurrences[k].notBefore <= states[j].occurrences[k].notBefore
    ensures ClockAt(inputs, j) < states[i].occurrences[k].notBefore ==>
              Silent(states[j], ClockAt(inputs, j), policy.lead, k)
  {
    PendingWaits(states, inputs, policy, k, i, j);
    BackedOffIsSilent(states[j].occurrences, k, ClockAt(inputs, j), policy.lead);
  }

  ghost predicate ClosingThrough(states: seq<State>, k: Key, i: nat, j: nat)
    requires i <= j < |states|
  {
    forall m | i <= m <= j :: k in states[m].occurrences && states[m].occurrences[k].phase == ClosePending
  }

  // The same for a close, as long as it is pending.
  lemma {:induction false} ClosesBackOff(states: seq<State>, inputs: seq<Input>, policy: Policy, k: Key, i: nat, j: nat)
    requires IsRun(states, inputs, policy) && i <= j <= |inputs| && ClosingThrough(states, k, i, j)
    ensures states[i].occurrences[k].notBefore <= states[j].occurrences[k].notBefore
    ensures ClockAt(inputs, j) < states[i].occurrences[k].notBefore ==>
              Silent(states[j], ClockAt(inputs, j), policy.lead, k)
    decreases j
  {
    if i < j {
      RunStepWaits(states, inputs, policy, k, j - 1);
      ClosesBackOff(states, inputs, policy, k, i, j - 1);
    }
    BackedOffIsSilent(states[j].occurrences, k, ClockAt(inputs, j), policy.lead);
  }

  // ---- warnings over whole runs ------------------------------------------------------

  ghost predicate PendingAt(s: State, a: Label, revision: Revision) {
    a in s.pendingAuthWarnings && s.pendingAuthWarnings[a].revision == revision
  }

  lemma WarningRunStep(states: seq<State>, inputs: seq<Input>, policy: Policy, a: Label, j: nat)
    requires IsRun(states, inputs, policy) && j < |inputs|
    ensures WarningStep(states[j], states[j + 1], a, TimeOf(inputs[j]))
    ensures WarningFollows(states[j], states[j + 1], a, TimeOf(inputs[j]))
    ensures a in states[j + 1].pendingAuthWarnings ==>
              RevisionOf(states[j + 1], a) == states[j + 1].pendingAuthWarnings[a].revision
  {
    RunsArePatient(states, inputs, policy, j);
    RunStep(states, inputs, policy, j);
    WarningInput(states[j], ClockAt(inputs, j), inputs[j], policy, states[j + 1], a);
    SoundInput(states[j], ClockAt(inputs, j), inputs[j], policy, states[j + 1]);
    assert a in states[j + 1].pendingAuthWarnings ==> ValidWarning(states[j + 1], a);
  }

  lemma WarningRevisionStep(states: seq<State>, inputs: seq<Input>, policy: Policy, a: Label, j: nat)
    requires IsRun(states, inputs, policy) && j < |inputs|
    ensures RevisionOf(states[j], a) <= RevisionOf(states[j + 1], a)
  {
    WarningRunStep(states, inputs, policy, a, j);
  }

  lemma {:induction false} WarningRevisionGrows(states: seq<State>, inputs: seq<Input>, policy: Policy, a: Label,
                                                i: nat, j: nat)
    requires IsRun(states, inputs, policy) && i <= j <= |inputs|
    ensures RevisionOf(states[i], a) <= RevisionOf(states[j], a)
    decreases j
  {
    if i < j {
      WarningRevisionGrows(states, inputs, policy, a, i, j - 1);
      WarningRevisionStep(states, inputs, policy, a, j - 1);
    }
  }

  lemma PendingIsCurrent(states: seq<State>, inputs: seq<Input>, policy: Policy, a: Label, revision: Revision, i: nat)
    requires IsRun(states, inputs, policy) && i <= |inputs| && PendingAt(states[i], a, revision)
    ensures RevisionOf(states[i], a) == revision
  {
    RunsAreSound(states, inputs, policy, i);
    assert ValidWarning(states[i], a);
  }

  // A warning that is pending at both ends under one revision was pending just
  // before the end.
  lemma StillWarned(states: seq<State>, inputs: seq<Input>, policy: Policy, a: Label, revision: Revision, i: nat,
                    j: nat)
    requires IsRun(states, inputs, policy) && i < j <= |inputs|
    requires PendingAt(states[i], a, revision) && PendingAt(states[j], a, revision)
    ensures PendingAt(states[j - 1], a, revision)
    ensures states[j - 1].pendingAuthWarnings[a].notBefore <= states[j].pendingAuthWarnings[a].notBefore
  {
    PendingIsCurrent(states, inputs, policy, a, revision, i);
    WarningRevisionGrows(states, inputs, policy, a, i, j - 1);
    WarningRunStep(states, inputs, policy, a, j - 1);
  }

  lemma {:induction false} WarningWaits(states: seq<State>, inputs: seq<Input>, policy: Policy, a: Label,
                                        revision: Revision, i: nat, j: nat)
    requires IsRun(states, inputs, policy) && i <= j <= |inputs|
    requires PendingAt(states[i], a, revision) && PendingAt(states[j], a, revision)
    ensures states[i].pendingAuthWarnings[a].notBefore <= states[j].pendingAuthWarnings[a].notBefore
    decreases j
  {
    if i < j {
      StillWarned(states, inputs, policy, a, revision, i, j);
      WarningWaits(states, inputs, policy, a, revision, i, j - 1);
    }
  }

  // And for a warning of one revision: until the clock reaches its next attempt the
  // scheduler does not offer it, and no poll that fails meanwhile raises it again.
  lemma WarningsBackOff(states: seq<State>, inputs: seq<Input>, policy: Policy, a: Label, revision: Revision, i: nat,
                        j: nat)
    requires IsRun(states, inputs, policy) && i <= j <= |inputs|
    requires PendingAt(states[i], a, revision) && PendingAt(states[j], a, revision)
    ensures states[i].pendingAuthWarnings[a].notBefore <= states[j].pendingAuthWarnings[a].notBefore
    ensures ClockAt(inputs, j) < states[i].pendingAuthWarnings[a].notBefore ==>
              OldestWarning(states[j].pendingAuthWarnings, ClockAt(inputs, j)) != Some(WarningEffectOf(a, revision))
    ensures i < j && inputs[j - 1].Handled? ==>
              WarningEffectOf(a, revision) !in EffectsAt(states[j - 1], inputs[j - 1].event, policy)
  {
    WarningWaits(states, inputs, policy, a, revision, i, j);
    if ClockAt(inputs, j) < states[j].pendingAuthWarnings[a].notBefore {
      WaitingWarningIsSilent(states[j].pendingAuthWarnings, a, revision, ClockAt(inputs, j));
    }
    if i < j && inputs[j - 1].Handled? {
      StillWarned(states, inputs, policy, a, revision, i, j);
      RunStep(states, inputs, policy, j - 1);
      PendingIsNotRaised(states[j - 1], ClockAt(inputs, j - 1), inputs[j - 1].event, policy, a, revision);
    }
  }

  // What the event itself asks for.
  ghost function EffectsAt(s: State, e: Event, policy: Policy): seq<Effect> {
    if UniqueIds(s.occurrences) && Reduce(s, IndexOf(s.occurrences), e, policy).Ok?
    then Reduce(s, IndexOf(s.occurrences), e, policy).value.effects
    else []
  }

  lemma PendingIsNotRaised(s: State, t: Time, e: Event, policy: Policy, a: Label, revision: Revision)
    requires Sound(s, t, policy.lead) && PendingAt(s, a, revision)
    ensures WarningEffectOf(a, revision) !in EffectsAt(s, e, policy)
  {
    SoundIsNormal(s, t, policy.lead);
    if Reduce(s, IndexOf(s.occurrences), e, policy).Ok? {
      var outcome := Reduce(s, IndexOf(s.occurrences), e, policy).value;
      var moved := Transition(s, IndexOf(s.occurrences), e, policy).value;
      OnlyNotices(outcome.state.occurrences, e.at, policy.lead, WarningEffectOf(a, revision));
      assert outcome.effects == OwnEffects(s, moved, e, policy)
               + PendingEffects(outcome.state.occurrences, e.at, policy.lead);
    }
  }

  lemma OnlyNotices(occurrences: map<Key, Occurrence>, at: Time, lead: nat, effect: Effect)
    requires effect.AuthWarningEffect?
    ensures effect !in PendingEffects(occurrences, at, lead)
  {
    if effect in PendingEffects(occurrences, at, lead) {
      EffectsNameReadyWork(occurrences, at, lead, effect);
    }
  }

  lemma WaitingWarningIsSilent(pending: map<Label, AuthWarning>, a: Label, revision: Revision, t: Time)
    requires a in pending && t < pending[a].notBefore
    ensures OldestWarning(pending, t) != Some(WarningEffectOf(a, revision))
  {
    var ready := ReadyWarnings(pending, t);
    if ready != {} {
      assert Least(ready) in ready;
    }
  }

  // ---- after a failure ------------------------------------------------------------------

  // A failure of the current notification or close at some time of a run keeps the
  // item from being offered for at least a minute, as long as it is the same work.
  lemma FailureSilences(states: seq<State>, inputs: seq<Input>, policy: Policy, i: nat, j: nat)
    requires IsRun(states, inputs, policy) && i < j <= |inputs|
    requires inputs[i].Handled? && inputs[i].event.payload.Notice?
    requires var n := inputs[i].event.payload.notification;
             && n.Failed? && n.account == "" && LivesThrough(states, n.key, i, j)
             && FailureMatches(states[i].occurrences[n.key], n)
             && (|| ClosingThrough(states, n.key, i, j)
                 || (&& states[i].occurrences[n.key].phase == NotifyPending
                     && inputs[i].event.at < states[i].occurrences[n.key].meeting.start
                     && states[j].occurrences[n.key].phase == NotifyPending
                     && states[i + 1].occurrences[n.key].notifyRevision == states[j].occurrences[n.key].notifyRevision))
    ensures var k := inputs[i].event.payload.notification.key;
            && inputs[i].event.at + MINUTE <= states[j].occurrences[k].notBefore
            && (ClockAt(inputs, j) < inputs[i].event.at + MINUTE ==>
                  Silent(states[j], ClockAt(inputs, j), policy.lead, k))
  {
    var e := inputs[i].event;
    var k := e.payload.notification.key;
    RunStep(states, inputs, policy, i);
    SoundIsNormal(states[i], ClockAt(inputs, i), policy.lead);
    FailureBacksOff(states[i], IndexOf(states[i].occurrences), e, policy, 0);
    if ClosingThrough(states, k, i, j) {
      ClosesBackOff(states, inputs, policy, k, i + 1, j);
    } else {
      NotificationsBackOff(states, inputs, policy, k, i + 1, j);
    }
  }
}

// Every event acts on each occurrence separately. This module gives the action
// on one key and shows that the reducer is nothing more than that action taken
// at every key, so what follows can be argued one occurrence at a time.
module Pointwise {
  import opened Wrappers
  import opened Meetings
  import opened Storage
  import opened Events
  import opened Expiry
  import opened Reconcile
  import opened ReducerNotifications
  import opened PollHealth
  import opened Scheduler
  import opened Reducer

  ghost function MovedOne(s: State, index: Index, e: Event, policy: Policy, k: Key): Slot {
    var prior := Lookup(s.occurrences, k);
    match e.payload
    case PollDone(poll) =>
      if poll.error.Some? then prior
      else var out := OutcomeAt(s, poll, e.at, policy.lead, k); if out.Ok? then out.value else prior
    case Tick => if prior.None? then None else PruneOne(prior.value, e.at)
    case ActivityDone(eligible, degraded, failed) =>
      if prior.None? || !(eligible || degraded || failed) then prior
      else Some(PromoteOne(prior.value, e.at, policy.lead))
    case Notice(n) =>
      if prior.None? || AnswersWarning(s, n) || Target(n, index) != Some(k) then prior
      else NotificationOne(prior.value, n, e.at, policy)
    case LaunchDone(j, _, revision, failed) =>
      if prior.None? || j != k then prior
      else Some(LaunchedOne(prior.value, revision, failed, e.at))
    case Malformed => prior
  }

  function SettledOne(slot: Slot, at: Time): Slot {
    if slot.None? then None else ExpireOne(slot.value, at)
  }

  ghost function NextOne(s: State, index: Index, e: Event, policy: Policy, k: Key): Slot {
    SettledOne(MovedOne(s, index, e, policy, k), e.at)
  }

  lemma MovedPollAt(s: State, poll: PollResult, at: Time, lead: nat, k: Key)
    requires Reconciled(s, poll, at, lead).Ok?
    ensures OutcomeAt(s, poll, at, lead, k).Ok?
    ensures Lookup(Reconciled(s, poll, at, lead).value.occurrences, k) == OutcomeAt(s, poll, at, lead, k).value
  {
    if k !in TouchedKeys(s, poll) {
      OutcomeTouched(s, poll, at, lead, k);
      UntouchedOk(s, poll, at, lead, k);
    }
  }

  lemma UntouchedOk(s: State, poll: PollResult, at: Time, lead: nat, k: Key)
    requires FirstObservationError(poll.observations).None?
    requires k !in TouchedKeys(s, poll)
    ensures OutcomeAt(s, poll, at, lead, k).Ok?
  {
    forall i | 0 <= i < |poll.observations|
      ensures ObservationError(poll.observations[i]).None?
    {
      ObservationsValid(poll.observations, i);
    }
    RemovalsClassified(poll.observations, KnownKeys(s, poll.account));
  }

  lemma AfterNotificationAt(occurrences: map<Key, Occurrence>, index: Index, n: Notification, at: Time, policy: Policy,
                            k: Key)
    ensures Lookup(AfterNotification(occurrences, index, n, at, policy), k)
            == if k !in occurrences || Target(n, index) != Some(k) then Lookup(occurrences, k)
               else NotificationOne(occurrences[k], n, at, policy)
  {
    var target := Target(n, index);
    if target.Some? && target.value in occurrences {
      AssignAt(occurrences, target.value, NotificationOne(occurrences[target.value], n, at, policy), k);
    }
  }

  lemma MovedNoticeAt(s: State, index: Index, n: Notification, at: Time, policy: Policy, k: Key)
    ensures Lookup(ApplyNotification(s, index, n, at, policy).occurrences, k)
            == if k !in s.occurrences || AnswersWarning(s, n) || Target(n, index) != Some(k)
               then Lookup(s.occurrences, k)
               else NotificationOne(s.occurrences[k], n, at, policy)
  {
    AfterNotificationAt(s.occurrences, index, n, at, policy, k);
    if AnswersWarning(s, n) {
      assert ApplyNotification(s, index, n, at, policy).occurrences == s.occurrences;
    } else {
      assert ApplyNotification(s, index, n, at, policy).occurrences
               == AfterNotification(s.occurrences, index, n, at, policy);
    }
  }

  lemma MovedAt(s: State, index: Index, e: Event, policy: Policy, k: Key)
    requires Transition(s, index, e, policy).Ok?
    ensures Lookup(Transition(s, index, e, policy).value.occurrences, k) == MovedOne(s, index, e, policy, k)
  {
    if e.payload.PollDone? {
      MovedPollEventAt(s, index, e, policy, k);
    } else if e.payload.Notice? {
      MovedNoticeAt(s, index, e.payload.notification, e.at, policy, k);
    } else {
      MovedPlainAt(s, index, e, policy, k);
    }
  }

  lemma MovedPlainAt(s: State, index: Index, e: Event, policy: Policy, k: Key)
    requires e.payload.Tick? || e.payload.ActivityDone? || e.payload.LaunchDone?
    requires Transition(s, index, e, policy).Ok?
    ensures Lookup(Transition(s, index, e, policy).value.occurrences, k) == MovedOne(s, index, e, policy, k)
  {
  }

  lemma MovedPollEventAt(s: State, index: Index, e: Event, policy: Policy, k: Key)
    requires e.payload.PollDone?
    requires Transition(s, index, e, policy).Ok?
    ensures Lookup(Transition(s, index, e, policy).value.occurrences, k) == MovedOne(s, index, e, policy, k)
  {
    var poll := e.payload.poll;
    if poll.error.None? {
      MovedPollAt(s, poll, e.at, policy.lead, k);
      assert Transition(s, index, e, policy) == Reconciled(s, poll, e.at, policy.lead);
    } else {
      assert Transition(s, index, e, policy) == FailedPoll(s, poll, poll.error.value, e.at);
      assert FailedPoll(s, poll, poll.error.value, e.at).value.occurrences == s.occurrences;
    }
  }

  // The accepted state, key by key.
  lemma NextAt(s: State, index: Index, e: Event, policy: Policy, k: Key)
    requires Reduce(s, index, e, policy).Ok?
    ensures Lookup(Reduce(s, index, e, policy).value.state.occurrences, k)
            == NextOne(Normalized(s), index, e, policy, k)
  {
    MovedAt(Normalized(s), index, e, policy, k);
  }

  // The same from a state that needs no normalization.
  lemma NormalNextAt(s: State, index: Index, e: Event, policy: Policy, k: Key)
    requires IsNormal(s) && Reduce(s, index, e, policy).Ok?
    ensures Lookup(Reduce(s, index, e, policy).value.state.occurrences, k) == NextOne(s, index, e, policy, k)
    ensures Transition(s, index, e, policy).Ok? && e.at != 0
  {
    NormalizedIdempotent(s);
    NextAt(s, index, e, policy, k);
  }
}

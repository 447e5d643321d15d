// What one accepted event may do to one occurrence, as a relation between the
// occurrence before and after. Everything proved about whole runs rests on it.
module Lifetimes {
  import opened Wrappers
  import opened Meetings
  import opened Storage
  import opened Events
  import opened Expiry
  import opened Reconcile
  import opened ReducerNotifications
  import opened PollHealth
  import opened Scheduler
  import opened Reducer
  import opened Pointwise
  import opened Closure

  // ---- the inductive invariant of one occurrence --------------------------

  // After an event at time t: pending notifications are due and not yet
  // started, a close resumes to nothing or to scheduled, and every occurrence
  // that left scheduled carries a revision.
  predicate SoundOne(o: Occurrence, t: Time, lead: nat) {
    && (o.phase == NotifyPending ==> t < o.meeting.start <= t + lead)
    && (o.phase == ClosePending ==> o.resumePhase == NoPhase || o.resumePhase == Scheduled)
    && (o.phase != Scheduled ==> o.notifyRevision >= 1)
  }

  // The same before expiry has removed what has started.
  predicate NearlySound(o: Occurrence, t: Time, lead: nat) {
    && (o.phase == NotifyPending ==> o.meeting.start <= t + lead)
    && (o.phase == ClosePending ==> o.resumePhase == NoPhase || o.resumePhase == Scheduled)
    && (o.phase != Scheduled ==> o.notifyRevision >= 1)
  }

  // ---- how an occurrence may change ---------------------------------------

  // Revisions never decrease; work that is pending under an unchanged revision
  // was pending before with the same content; joining is never undone.
  predicate Follows(o: Occurrence, next: Occurrence) {
    && o.notifyRevision <= next.notifyRevision
    && o.joinRevision <= next.joinRevision
    && (next.phase == NotifyPending && next.notifyRevision == o.notifyRevision ==>
          o.phase == NotifyPending && ContentOf(o.meeting) == ContentOf(next.meeting))
    && (next.phase == JoinPending && next.joinRevision == o.joinRevision ==>
          o.phase == JoinPending && ContentOf(o.meeting) == ContentOf(next.meeting))
    && (o.phase == Joined ==>
          next.phase == Joined && next.joinedAt == o.joinedAt && next.joinRevision == o.joinRevision)
  }

  lemma FollowsTransitive(a: Occurrence, b: Occurrence, c: Occurrence)
    requires Follows(a, b) && Follows(b, c)
    ensures Follows(a, c)
  {
  }

  // Good steps: from a sound occurrence to one that follows it and is nearly sound.
  ghost predicate Good(prior: Slot, next: Slot, at: Time, lead: nat) {
    next.Some? ==>
      && NearlySound(next.value, at, lead)
      && (prior.Some? ==> Follows(prior.value, next.value))
      && (prior.None? ==> next.value.phase == Scheduled)
  }

  lemma PruneGood(o: Occurrence, at: Time, lead: nat)
    requires NearlySound(o, at, lead)
    ensures Good(Some(o), PruneOne(o, at), at, lead)
  {
  }

  lemma RemoveGood(prior: Slot, reason: CloseReason, at: Time, lead: nat)
    requires prior.Some? ==> NearlySound(prior.value, at, lead)
    requires RemoveOne(prior, reason).Ok?
    ensures Good(prior, RemoveOne(prior, reason).value, at, lead)
  {
  }

  lemma CurrentGood(prior: Slot, m: Meeting, at: Time, lead: nat)
    requires prior.Some? ==> NearlySound(prior.value, at, lead)
    requires CurrentOne(prior, m, at, lead).Ok?
    ensures Good(prior, Some(CurrentOne(prior, m, at, lead).value), at, lead)
  {
  }

  lemma ReconcileGood(prior: Slot, v: Verdict, at: Time, lead: nat)
    requires prior.Some? ==> NearlySound(prior.value, at, lead)
    requires v.vanished ==> v.current.None? && v.removal.None?
    requires ReconcileOne(prior, v, at, lead).Ok?
    ensures Good(prior, ReconcileOne(prior, v, at, lead).value, at, lead)
  {
    var first := AfterVanish(prior, v).value;
    if v.vanished {
      RemoveGood(prior, CloseDeleted, at, lead);
    } else {
      var second := AfterCurrent(first, v, at, lead).value;
      if v.current.Some? {
        CurrentGood(first, v.current.value, at, lead);
      }
      if v.removal.Some? {
        RemoveGood(second, CloseReasonOf(v.removal.value).value, at, lead);
        var third := AfterRemoval(second, v).value;
        if prior.Some? && second.Some? && third.Some? {
          FollowsTransitive(prior.value, second.value, third.value);
        }
      }
    }
  }

  lemma PromoteGood(o: Occurrence, at: Time, lead: nat)
    requires NearlySound(o, at, lead)
    ensures Good(Some(o), Some(PromoteOne(o, at, lead)), at, lead)
  {
  }

  lemma LaunchGood(o: Occurrence, revision: Revision, failed: bool, at: Time, lead: nat)
    requires ValidOccurrence(o) && NearlySound(o, at, lead)
    ensures Good(Some(o), Some(LaunchedOne(o, revision, failed, at)), at, lead)
  {
  }

  lemma NoticeGood(o: Occurrence, n: Notification, at: Time, policy: Policy)
    requires NearlySound(o, at, policy.lead)
    ensures Good(Some(o), NotificationOne(o, n, at, policy), at, policy.lead)
  {
  }

  lemma MovedGood(s: State, index: Index, e: Event, policy: Policy, k: Key)
    requires Valid(s) && Transition(s, index, e, policy).Ok?
    requires k in s.occurrences ==> NearlySound(s.occurrences[k], e.at, policy.lead)
    ensures Good(Lookup(s.occurrences, k), MovedOne(s, index, e, policy, k), e.at, policy.lead)
  {
    var prior := Lookup(s.occurrences, k);
    match e.payload {
      case PollDone(poll) =>
        if poll.error.None? {
          VerdictShape(s, poll, k);
          if OutcomeAt(s, poll, e.at, policy.lead, k).Ok? {
            ReconcileGood(prior, VerdictOf(s, poll, k), e.at, policy.lead);
          }
        }
      case Tick =>
        if prior.Some? {
          PruneGood(prior.value, e.at, policy.lead);
        }
      case ActivityDone(_, _, _) =>
        if prior.Some? {
          PromoteGood(prior.value, e.at, policy.lead);
        }
      case Notice(n) =>
        if prior.Some? {
          NoticeGood(prior.value, n, e.at, policy);
        }
      case LaunchDone(_, _, revision, failed) =>
        if prior.Some? {
          LaunchGood(prior.value, revision, failed, e.at, policy.lead);
        }
      case Malformed =>
    }
  }

  lemma SettleGood(prior: Slot, moved: Slot, at: Time, lead: nat)
    requires Good(prior, moved, at, lead)
    ensures var next := SettledOne(moved, at);
            next.Some? ==>
              && SoundOne(next.value, at, lead)
              && (prior.Some? ==> Follows(prior.value, next.value))
              && (prior.None? ==> next.value.phase == Scheduled)
  {
  }
}

// From a valid state every well-formed event is accepted: the reducer's last
// check can never fire.
module Closure {
  import opened Wrappers
  import opened Meetings
  import opened Storage
  import opened Events
  import opened Retry
  import opened Expiry
  import opened Reconcile
  import opened ReducerNotifications
  import opened PollHealth
  import opened Reducer
  import opened Pointwise

  // Every counter can still advance n times. A poll that both lists and removes
  // a key may advance its counter twice.
  ghost predicate RevisionsLeft(occurrences: map<Key, Occurrence>, n: nat) {
    forall k | k in occurrences :: occurrences[k].notifyRevision + n <= MAX_REVISION
  }

  // Every occurrence that waits to be notified can still be.
  ghost predicate PromotionsLeft(occurrences: map<Key, Occurrence>) {
    forall k | k in occurrences && occurrences[k].phase == Scheduled :: occurrences[k].notifyRevision < MAX_REVISION
  }

  // The server hands out ids that are not zero and not in use elsewhere.
  ghost predicate FreshId(occurrences: map<Key, Occurrence>, k: Key, id: NotificationId) {
    id != 0 && forall j | j in occurrences && j != k :: occurrences[j].notificationId != id
  }

  ghost predicate WellFormedEvent(s: State, e: Event) {
    e.at != 0
    && match e.payload
       case Tick => true
       case ActivityDone(_, _, _) => PromotionsLeft(s.occurrences)
       case LaunchDone(_, _, _, _) => true
       case Notice(n) =>
         n.Delivered? && n.account == "" && n.key in s.occurrences
         && DeliveryMatches(s.occurrences[n.key], n.revision) ==>
           FreshId(s.occurrences, n.key, n.id)
       case PollDone(poll) =>
         (match poll.error
          case None =>
            && WellFormedPoll(poll)
            && (forall i | 0 <= i < |poll.meetings| :: poll.meetings[i].accountLabel != "")
            && RevisionsLeft(s.occurrences, 2)
          case Some(_) => poll.account != "" && RevisionOf(s, poll.account) < MAX_REVISION)
       case Malformed => false
  }

  // A step that keeps the field rules and the key, and holds no new id.
  ghost predicate Keeps(prior: Slot, next: Slot, k: Key) {
    next.Some? ==>
      && ValidOccurrence(next.value) && next.value.meeting.key == k
      && (next.value.notificationId != 0 ==> prior.Some? && next.value.notificationId == prior.value.notificationId)
  }

  lemma PruneKeeps(o: Occurrence, at: Time)
    requires ValidOccurrence(o)
    ensures Keeps(Some(o), PruneOne(o, at), o.meeting.key)
  {
  }

  lemma ExpireKeeps(o: Occurrence, at: Time)
    requires ValidOccurrence(o)
    ensures Keeps(Some(o), ExpireOne(o, at), o.meeting.key)
  {
  }

  lemma RemoveKeeps(prior: Slot, reason: CloseReason, k: Key)
    requires prior.Some? ==> ValidOccurrence(prior.value) && prior.value.meeting.key == k
    requires ValidReason(reason) && RemoveOne(prior, reason).Ok?
    ensures Keeps(prior, RemoveOne(prior, reason).value, k)
  {
  }

  lemma CurrentKeeps(prior: Slot, m: Meeting, at: Time, lead: nat)
    requires prior.Some? ==> ValidOccurrence(prior.value) && prior.value.meeting.key == m.key
    requires m.key != "" && m.accountLabel != "" && at != 0
    requires CurrentOne(prior, m, at, lead).Ok?
    ensures Keeps(prior, Some(CurrentOne(prior, m, at, lead).value), m.key)
  {
  }

  lemma ReconcileKeeps(prior: Slot, v: Verdict, at: Time, lead: nat, k: Key)
    requires prior.Some? ==> ValidOccurrence(prior.value) && prior.value.meeting.key == k
    requires v.current.Some? ==> v.current.value.key == k != "" && v.current.value.accountLabel != ""
    requires at != 0
    requires ReconcileOne(prior, v, at, lead).Ok?
    ensures Keeps(prior, ReconcileOne(prior, v, at, lead).value, k)
  {
    var first := AfterVanish(prior, v).value;
    if v.vanished {
      RemoveKeeps(prior, CloseDeleted, k);
    }
    var second := AfterCurrent(first, v, at, lead).value;
    if v.current.Some? {
      CurrentKeeps(first, v.current.value, at, lead);
    }
    if v.removal.Some? {
      RemoveKeeps(second, CloseReasonOf(v.removal.value).value, k);
    }
  }

  // Only an exhausted counter or an unclassified reason stops reconciliation.
  lemma ReconcileSucceeds(prior: Slot, v: Verdict, at: Time, lead: nat)
    requires prior.Some? ==> prior.value.notifyRevision + 2 <= MAX_REVISION
    requires v.vanished ==> v.current.None? && v.removal.None?
    requires v.removal.Some? ==> CloseReasonOf(v.removal.value).Some?
    ensures ReconcileOne(prior, v, at, lead).Ok?
  {
  }

  lemma LaunchKeeps(o: Occurrence, revision: Revision, failed: bool, at: Time)
    requires ValidOccurrence(o) && at != 0
    ensures Keeps(Some(o), Some(LaunchedOne(o, revision, failed, at)), o.meeting.key)
  {
  }

  lemma PromoteKeeps(o: Occurrence, at: Time, lead: nat)
    requires ValidOccurrence(o)
    ensures Keeps(Some(o), Some(PromoteOne(o, at, lead)), o.meeting.key)
  {
  }

  lemma NoticeKeeps(o: Occurrence, n: Notification, at: Time, policy: Policy)
    requires ValidOccurrence(o) && at != 0
    requires !(n.Delivered? && DeliveryMatches(o, n.revision))
    ensures Keeps(Some(o), NotificationOne(o, n, at, policy), o.meeting.key)
  {
    match n {
      case Failed(k, _, _, _) =>
        BackoffWindow(at, o.attempt + 1, (limit: nat) => policy.keyHash(k) % (limit + 1));
      case _ =>
    }
  }

  lemma VerdictShape(s: State, poll: PollResult, k: Key)
    requires WellFormedPoll(poll)
    ensures var v := VerdictOf(s, poll, k);
            && (v.vanished ==> v.current.None? && v.removal.None?)
            && (v.removal.Some? ==> CloseReasonOf(v.removal.value).Some?)
            && (v.current.Some? ==> v.current.value.key == k && v.current.value in poll.meetings)
  {
    forall i | 0 <= i < |poll.observations|
      ensures ObservationError(poll.observations[i]).None?
    {
      ObservationsValid(poll.observations, i);
    }
    RemovalsClassified(poll.observations, KnownKeys(s, poll.account));
    CurrentKeys(poll.meetings);
    CurrentListed(poll.meetings, k);
  }

  lemma {:induction false} CurrentListed(meetings: seq<Meeting>, k: Key)
    ensures k in CurrentMeetings(meetings) ==> CurrentMeetings(meetings)[k] in meetings
  {
    if meetings != [] {
      CurrentListed(meetings[..|meetings| - 1], k);
    }
  }

  lemma TransitionSucceeds(s: State, index: Index, e: Event, policy: Policy)
    requires WellFormedEvent(s, e)
    ensures Transition(s, index, e, policy).Ok?
  {
    match e.payload {
      case PollDone(poll) =>
        if poll.error.None? {
          forall k | k in TouchedKeys(s, poll)
            ensures OutcomeAt(s, poll, e.at, policy.lead, k).Ok?
          {
            VerdictShape(s, poll, k);
            ReconcileSucceeds(Lookup(s.occurrences, k), VerdictOf(s, poll, k), e.at, policy.lead);
          }
        }
      case _ =>
    }
  }

  // Every well-formed event but a matching delivery keeps rules, key and ids.
  lemma MovedKeeps(s: State, index: Index, e: Event, policy: Policy, k: Key)
    requires Valid(s) && WellFormedEvent(s, e)
    requires !(IsMatchingDelivery(s, e) && e.payload.notification.key == k)
    ensures Keeps(Lookup(s.occurrences, k), MovedOne(s, index, e, policy, k), k)
  {
    var prior := Lookup(s.occurrences, k);
    match e.payload {
      case PollDone(poll) =>
        if poll.error.None? {
          VerdictShape(s, poll, k);
          var v := VerdictOf(s, poll, k);
          if v.current.Some? {
            var i :| 0 <= i < |poll.meetings| && poll.meetings[i] == v.current.value;
          }
          if OutcomeAt(s, poll, e.at, policy.lead, k).Ok? {
            ReconcileKeeps(prior, v, e.at, policy.lead, k);
          }
        }
      case Tick =>
        if prior.Some? {
          PruneKeeps(prior.value, e.at);
        }
      case ActivityDone(_, _, _) =>
        if prior.Some? {
          PromoteKeeps(prior.value, e.at, policy.lead);
        }
      case Notice(n) =>
        if prior.Some? && !AnswersWarning(s, n) && Target(n, index) == Some(k) {
          NoticeKeeps(prior.value, n, e.at, policy);
        }
      case LaunchDone(_, _, revision, failed) =>
        if prior.Some? {
          LaunchKeeps(prior.value, revision, failed, e.at);
        }
      case Malformed =>
    }
  }

  // The one event that brings an id in: a delivery for the current revision.
  ghost predicate IsMatchingDelivery(s: State, e: Event) {
    && e.payload.Notice? && e.payload.notification.Delivered? && e.payload.notification.account == ""
    && e.payload.notification.key in s.occurrences
    && DeliveryMatches(s.occurrences[e.payload.notification.key], e.payload.notification.revision)
  }

  lemma DeliveredOne(o: Occurrence, n: Notification, at: Time, policy: Policy)
    requires ValidOccurrence(o) && n.Delivered? && n.id != 0 && at != 0 && DeliveryMatches(o, n.revision)
    ensures var next := NotificationOne(o, n, at, policy);
            && next.Some? && ValidOccurrence(next.value) && next.value.meeting == o.meeting
            && next.value.phase == Notified && next.value.notificationId == n.id
  {
  }

  // Slots that keep their rules, and at most one fresh id, make a valid map.
  lemma KeepingIsValid(before: map<Key, Occurrence>, after: map<Key, Occurrence>)
    requires ValidOccurrences(before)
    requires forall k :: Keeps(Lookup(before, k), Lookup(after, k), k)
    ensures ValidOccurrences(after)
  {
    forall k | k in after
      ensures after[k].meeting.key == k && ValidOccurrence(after[k])
    {
      assert Keeps(Lookup(before, k), Lookup(after, k), k);
    }
    forall j, k | j in after && k in after && j != k && after[j].notificationId != 0
      ensures after[j].notificationId != after[k].notificationId
    {
      assert Keeps(Lookup(before, j), Lookup(after, j), j);
      assert Keeps(Lookup(before, k), Lookup(after, k), k);
    }
  }

  lemma DeliveryIsValid(s: State, index: Index, e: Event, policy: Policy, after: map<Key, Occurrence>)
    requires Valid(s) && WellFormedEvent(s, e) && IsMatchingDelivery(s, e)
    requires forall k :: Lookup(after, k) == MovedOne(s, index, e, policy, k)
    ensures ValidOccurrences(after)
  {
    var n := e.payload.notification;
    DeliveredOne(s.occurrences[n.key], n, e.at, policy);
    assert Lookup(after, n.key) == MovedOne(s, index, e, policy, n.key);
    forall k | k in after
      ensures after[k].meeting.key == k && ValidOccurrence(after[k])
      ensures k != n.key ==> k in s.occurrences && after[k] == s.occurrences[k]
    {
      assert Lookup(after, k) == MovedOne(s, index, e, policy, k);
    }
  }

  lemma MovedIsValid(s: State, index: Index, e: Event, policy: Policy)
    requires Valid(s) && WellFormedEvent(s, e)
    requires Transition(s, index, e, policy).Ok?
    ensures ValidOccurrences(Transition(s, index, e, policy).value.occurrences)
  {
    var after := Transition(s, index, e, policy).value.occurrences;
    forall k
      ensures Lookup(after, k) == MovedOne(s, index, e, policy, k)
    {
      MovedAt(s, index, e, policy, k);
    }
    if IsMatchingDelivery(s, e) {
      DeliveryIsValid(s, index, e, policy, after);
    } else {
      forall k
        ensures Keeps(Lookup(s.occurrences, k), Lookup(after, k), k)
      {
        MovedKeeps(s, index, e, policy, k);
      }
      KeepingIsValid(s.occurrences, after);
    }
  }

  lemma SettledIsValid(occurrences: map<Key, Occurrence>, at: Time)
    requires ValidOccurrences(occurrences)
    ensures ValidOccurrences(ExpireAll(occurrences, at))
  {
    var after := ExpireAll(occurrences, at);
    forall k
      ensures Keeps(Lookup(occurrences, k), Lookup(after, k), k)
    {
      if k in occurrences {
        ExpireKeeps(occurrences[k], at);
      }
    }
    KeepingIsValid(occurrences, after);
  }

  // Only a poll failure or an answered warning touches the warning maps.
  predicate TouchesWarnings(s: State, e: Event) {
    || (e.payload.PollDone? && e.payload.poll.error.Some?)
    || (e.payload.Notice? && AnswersWarning(s, e.payload.notification))
  }

  lemma WarningsUntouched(s: State, index: Index, e: Event, policy: Policy)
    requires !TouchesWarnings(s, e) && Transition(s, index, e, policy).Ok?
    ensures var moved := Transition(s, index, e, policy).value;
            && moved.version == s.version
            && moved.pendingAuthWarnings == s.pendingAuthWarnings
            && moved.authWarnings == s.authWarnings
            && moved.authWarningRevisions == s.authWarningRevisions
  {
    match e.payload {
      case PollDone(poll) => ReconciledFrame(s, poll, e.at, policy.lead);
      case Notice(n) =>
        assert ApplyNotification(s, index, n, e.at, policy)
            == s.(occurrences := AfterNotification(s.occurrences, index, n, e.at, policy));
      case _ =>
    }
  }

  lemma AnsweredWarningValid(s: State, index: Index, n: Notification, at: Time, policy: Policy)
    requires ValidWarnings(s) && AnswersWarning(s, n) && at != 0
    ensures ValidWarnings(ApplyNotification(s, index, n, at, policy))
  {
    assert ValidWarning(s, n.account);
    BackoffWindow(at, s.pendingAuthWarnings[n.account].attempt + 1, NoJitter);
    var moved := ApplyNotification(s, index, n, at, policy);
    forall account | account in moved.pendingAuthWarnings
      ensures ValidWarning(moved, account)
    {
      assert ValidWarning(s, account);
    }
  }

  lemma FailedPollWarningValid(s: State, poll: PollResult, kind: PollErrorKind, at: Time)
    requires ValidWarnings(s) && poll.account != "" && at != 0 && FailedPoll(s, poll, kind, at).Ok?
    ensures ValidWarnings(FailedPoll(s, poll, kind, at).value)
  {
    var moved := FailedPoll(s, poll, kind, at).value;
    forall account | account in moved.pendingAuthWarnings
      ensures ValidWarning(moved, account)
    {
      assert account in s.pendingAuthWarnings ==> ValidWarning(s, account);
    }
  }

  lemma WarningsStayValid(s: State, index: Index, e: Event, policy: Policy)
    requires Valid(s) && WellFormedEvent(s, e)
    requires Transition(s, index, e, policy).Ok?
    ensures Transition(s, index, e, policy).value.version == s.version
    ensures ValidWarnings(Transition(s, index, e, policy).value)
  {
    var moved := Transition(s, index, e, policy).value;
    if !TouchesWarnings(s, e) {
      WarningsUntouched(s, index, e, policy);
      assert forall a | a in s.pendingAuthWarnings :: ValidWarning(s, a) && ValidWarning(moved, a);
    } else if e.payload.Notice? {
      AnsweredWarningValid(s, index, e.payload.notification, e.at, policy);
    } else {
      FailedPollWarningValid(s, e.payload.poll, e.payload.poll.error.value, e.at);
    }
  }

  // Reducer closure: a well-formed event never fails on a state that validates
  // after normalization, and the state it leaves validates again.
  lemma ReducerClosure(s: State, index: Index, e: Event, policy: Policy)
    requires Valid(Normalized(s)) && WellFormedEvent(Normalized(s), e)
    ensures Reduce(s, index, e, policy).Ok?
    ensures Valid(Reduce(s, index, e, policy).value.state)
  {
    var n := Normalized(s);
    TransitionSucceeds(n, index, e, policy);
    MovedIsValid(n, index, e, policy);
    WarningsStayValid(n, index, e, policy);
    var moved := Transition(n, index, e, policy).value;
    SettledIsValid(moved.occurrences, e.at);
    assert forall a | a in moved.pendingAuthWarnings :: ValidWarning(moved, a) && ValidWarning(Settled(moved, e.at), a);
  }
}

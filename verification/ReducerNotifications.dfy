// What the notification transport reports (daemon/reducer_notifications.go).
module ReducerNotifications {
  import opened Wrappers
  import opened Meetings
  import opened Storage
  import opened Drafts
  import opened Events
  import opened Retry

  const ACTION_LIFETIME: nat := 24 * HOUR

  // ---- pointwise specification ------------------------------------------

  // The one occurrence a notification event may change. Signals carry only an
  // id and find their occurrence through the index.
  function Target(n: Notification, index: Index): Option<Key> {
    match n
    case Delivered(k, account, _, _) => if account != "" then None else Some(k)
    case Failed(k, account, _, _) => if account != "" then None else Some(k)
    case CommandCompleted(k, _) => Some(k)
    case SignalReceived(signal) => Lookup(index, signal.id)
  }

  // The delivery names this occurrence and its current revision.
  predicate DeliveryMatches(o: Occurrence, revision: Revision) {
    o.phase == NotifyPending && o.notifyRevision == revision
  }

  function Resumed(o: Occurrence): Occurrence {
    o.(phase := o.resumePhase, notificationId := 0, notifiedAt := 0, actionExpiresAt := 0,
       closeReason := NoReason, resumePhase := NoPhase, notBefore := 0, attempt := 0)
  }

  predicate MayJoin(o: Occurrence, signal: Signal, at: Time, policy: Policy) {
    && signal.ActionInvoked? && signal.actionKey == "join"
    && (o.phase == Notified || o.phase == ActionableHistory)
    && at < o.actionExpiresAt
    && policy.validActionURL(o.meeting.url)
  }

  function SignalOne(o: Occurrence, signal: Signal, at: Time, policy: Policy): Option<Occurrence> {
    if o.notificationId != signal.id then Some(o)
    else if MayJoin(o, signal, at, policy) then
      (match NextRevision(o.joinRevision)
       case None => Some(o)
       case Some(revision) =>
         Some(o.(joinRevision := revision, phase := JoinPending, joinRequestedAt := at, resumePhase := o.phase)))
    else if !signal.NotificationClosed? then Some(o)
    else match o.phase
         case Notified => Some(o.(phase := ActionableHistory, closeReason := NoReason, resumePhase := NoPhase))
         case ClosePending => if o.resumePhase != NoPhase then Some(Resumed(o)) else None
         case _ => Some(o)
  }

  function NotificationOne(o: Occurrence, n: Notification, at: Time, policy: Policy): Option<Occurrence> {
    match n
    case CommandCompleted(_, id) =>
      if o.phase != ClosePending || (id != 0 && o.notificationId != id) then Some(o)
      else if o.resumePhase == Scheduled || o.resumePhase == NotifyPending then
        Some(o.(phase := o.resumePhase, notificationId := 0, closeReason := NoReason, resumePhase := NoPhase,
                notBefore := 0, attempt := 0))
      else None
    case Delivered(_, _, revision, id) =>
      if !DeliveryMatches(o, revision) then Some(o)
      else Some(o.(phase := Notified, notificationId := id, notifiedAt := at,
                   actionExpiresAt := at + ACTION_LIFETIME, notBefore := 0, attempt := 0))
    case Failed(k, _, revision, id) =>
      if o.phase == ClosePending then
        if id == 0 || id != o.notificationId then Some(o)
        else
          var retry := CloseRetry(at, o.attempt + 1, k, policy.keyHash);
          Some(o.(attempt := retry.attempt, notBefore := retry.nextAttempt))
      else if !DeliveryMatches(o, revision) then Some(o)
      else
        var retry := NextRetry(at, o.attempt + 1, NoJitter);
        Some(o.(attempt := retry.attempt, notBefore := retry.nextAttempt))
    case SignalReceived(signal) => SignalOne(o, signal, at, policy)
  }

  function AfterNotification(occurrences: map<Key, Occurrence>, index: Index, n: Notification, at: Time, policy: Policy)
    : map<Key, Occurrence>
  {
    match Target(n, index)
    case None => occurrences
    case Some(k) =>
      if k in occurrences then Assign(occurrences, k, NotificationOne(occurrences[k], n, at, policy)) else occurrences
  }

  // The pending authorization warning a delivery or failure answers.
  predicate AnswersWarning(s: State, n: Notification) {
    && (n.Delivered? || n.Failed?) && n.account != ""
    && n.account in s.pendingAuthWarnings && s.pendingAuthWarnings[n.account].revision == n.revision
  }

  function ApplyNotification(s: State, index: Index, n: Notification, at: Time, policy: Policy): State {
    if AnswersWarning(s, n) then
      if n.Delivered? then
        s.(pendingAuthWarnings := s.pendingAuthWarnings - {n.account}, authWarnings := s.authWarnings[n.account := at])
      else
        var w := s.pendingAuthWarnings[n.account];
        var retry := NextRetry(at, w.attempt + 1, NoJitter);
        s.(pendingAuthWarnings := s.pendingAuthWarnings[
             n.account := w.(attempt := retry.attempt, notBefore := retry.nextAttempt)])
    else
      s.(occurrences := AfterNotification(s.occurrences, index, n, at, policy))
  }

  // ---- the handlers ------------------------------------------------------

  method CompleteClose(draft: Draft, key: Key, id: NotificationId)
    modifies draft`occurrences
    ensures forall index, at, policy ::
              draft.occurrences == AfterNotification(old(draft.occurrences), index, CommandCompleted(key, id), at,
                                                     policy)
  {
    if key !in draft.occurrences {
      return;
    }
    var o := draft.occurrences[key];
    if o.phase != ClosePending || (id != 0 && o.notificationId != id) {
      assert draft.occurrences == draft.occurrences[key := o];
      return;
    }
    if o.resumePhase == Scheduled || o.resumePhase == NotifyPending {
      o := o.(phase := o.resumePhase, notificationId := 0, closeReason := NoReason, resumePhase := NoPhase);
      o := o.(notBefore := 0, attempt := 0);
      draft.occurrences := draft.occurrences[key := o];
    } else {
      draft.occurrences := draft.occurrences - {key};
    }
  }

  method ApplyDelivery(draft: Draft, n: Notification, at: Time, ghost index: Index, ghost policy: Policy)
    requires n.Delivered?
    requires forall k | k in draft.occurrences :: draft.occurrences[k].meeting.key == k
    modifies draft
    ensures draft.View() == ApplyNotification(old(draft.View()), index, n, at, policy)
  {
    if n.account != "" {
      if n.account !in draft.pendingAuthWarnings || draft.pendingAuthWarnings[n.account].revision != n.revision {
        return;
      }
      draft.pendingAuthWarnings := draft.pendingAuthWarnings - {n.account};
      draft.authWarnings := draft.authWarnings[n.account := at];
      return;
    }
    if n.key !in draft.occurrences {
      return;
    }
    var o := draft.occurrences[n.key];
    if o.phase != NotifyPending || o.notifyRevision != n.revision {
      assert draft.occurrences == draft.occurrences[n.key := o];
      return;
    }
    o := o.(phase := Notified, notificationId := n.id, notifiedAt := at,
            actionExpiresAt := at + ACTION_LIFETIME, notBefore := 0, attempt := 0);
    draft.occurrences := draft.occurrences[o.meeting.key := o];
  }

  method ApplyNotificationFailure(draft: Draft, n: Notification, at: Time, ghost index: Index, policy: Policy)
    requires n.Failed?
    requires forall k | k in draft.occurrences :: draft.occurrences[k].meeting.key == k
    modifies draft
    ensures draft.View() == ApplyNotification(old(draft.View()), index, n, at, policy)
  {
    if n.account != "" {
      if n.account !in draft.pendingAuthWarnings || draft.pendingAuthWarnings[n.account].revision != n.revision {
        return;
      }
      var warning := draft.pendingAuthWarnings[n.account];
      var retry := NextRetry(at, warning.attempt + 1, NoJitter);
      warning := warning.(attempt := retry.attempt, notBefore := retry.nextAttempt);
      draft.pendingAuthWarnings := draft.pendingAuthWarnings[n.account := warning];
      return;
    }
    if n.key !in draft.occurrences {
      return;
    }
    var o := draft.occurrences[n.key];
    if o.phase == ClosePending {
      if n.id == 0 || n.id != o.notificationId {
        assert draft.occurrences == draft.occurrences[n.key := o];
        return;
      }
      var retry := CloseRetry(at, o.attempt + 1, n.key, policy.keyHash);
      o := o.(attempt := retry.attempt, notBefore := retry.nextAttempt);
      draft.occurrences := draft.occurrences[o.meeting.key := o];
      return;
    }
    if o.phase != NotifyPending || o.notifyRevision != n.revision {
      assert draft.occurrences == draft.occurrences[n.key := o];
      return;
    }
    var retry := NextRetry(at, o.attempt + 1, NoJitter);
    o := o.(attempt := retry.attempt, notBefore := retry.nextAttempt);
    draft.occurrences := draft.occurrences[o.meeting.key := o];
  }

  method ApplySignal(draft: Draft, index: Index, signal: Signal, at: Time, policy: Policy)
    modifies draft`occurrences
    ensures draft.occurrences == AfterNotification(old(draft.occurrences), index, SignalReceived(signal), at, policy)
  {
    if signal.id !in index {
      return;
    }
    var key := index[signal.id];
    if key !in draft.occurrences {
      return;
    }
    var o := draft.occurrences[key];
    assert draft.occurrences == draft.occurrences[key := o];
    if o.notificationId != signal.id {
      return;
    }
    if signal.ActionInvoked? && signal.actionKey == "join" && (o.phase == Notified || o.phase == ActionableHistory)
       && at < o.actionExpiresAt && policy.validActionURL(o.meeting.url) {
      var revision := NextRevision(o.joinRevision);
      if revision == None {
        return;
      }
      o := o.(joinRevision := revision.value);
      o := o.(phase := JoinPending, joinRequestedAt := at, resumePhase := o.phase);
      draft.occurrences := draft.occurrences[key := o];
      return;
    }
    if !signal.NotificationClosed? || (o.phase != Notified && o.phase != ClosePending) {
      return;
    }
    if o.phase == ClosePending {
      if o.resumePhase != NoPhase {
        o := o.(phase := o.resumePhase, notificationId := 0, notifiedAt := 0, actionExpiresAt := 0,
                closeReason := NoReason, resumePhase := NoPhase);
        o := o.(notBefore := 0, attempt := 0);
        draft.occurrences := draft.occurrences[key := o];
      } else {
        draft.occurrences := draft.occurrences - {key};
      }
      return;
    }
    o := o.(phase := ActionableHistory, closeReason := NoReason, resumePhase := NoPhase);
    draft.occurrences := draft.occurrences[key := o];
  }

  method ReduceNotification(draft: Draft, index: Index, n: Notification, at: Time, policy: Policy)
    requires forall k | k in draft.occurrences :: draft.occurrences[k].meeting.key == k
    modifies draft
    ensures draft.View() == ApplyNotification(old(draft.View()), index, n, at, policy)
  {
    match n {
      case CommandCompleted(key, id) => CompleteClose(draft, key, id);
      case Delivered(_, _, _, _) => ApplyDelivery(draft, n, at, index, policy);
      case Failed(_, _, _, _) => ApplyNotificationFailure(draft, n, at, index, policy);
      case SignalReceived(signal) => ApplySignal(draft, index, signal, at, policy);
    }
  }
}

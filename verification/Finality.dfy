// What settles an occurrence: joining, removal by a poll, and backoff.
module Finality {
  import opened Wrappers
  import opened Order
  import opened Meetings
  import opened Storage
  import opened Events
  import opened Retry
  import opened Expiry
  import opened Reconcile
  import opened ReducerNotifications
  import opened PollHealth
  import opened Scheduler
  import opened Reducer
  import opened Pointwise
  import opened Closure
  import opened Lifetimes
  import opened Runs

  // ---- which effects name which occurrence --------------------------------

  function EffectKey(e: Effect): Option<Key> {
    match e
    case NotifyEffect(k, _) => Some(k)
    case CloseEffect(k, _) => Some(k)
    case LaunchEffect(k, _, _, _) => Some(k)
    case ActivityEffect => None
    case AuthWarningEffect(_, _) => None
  }

  // An effect that names an occurrence names ready work of the state it came from.
  lemma EffectsNameReadyWork(occurrences: map<Key, Occurrence>, at: Time, lead: nat, effect: Effect)
    requires effect in PendingEffects(occurrences, at, lead)
    ensures EffectKey(effect).Some? && EffectKey(effect).value in occurrences
    ensures var k := EffectKey(effect).value;
            var o := occurrences[k];
            || (NotificationReady(o, at, lead) && effect == NotificationEffectOf(k, o))
            || (o.phase == JoinPending && effect == LaunchEffectOf(k, o))
  {
    var notification := OldestNotification(occurrences, at, lead);
    var launch := OldestLaunch(occurrences);
    if notification == Some(effect) {
      var k := Least(ReadyNotifications(occurrences, at, lead)).name;
      assert k in occurrences && NotificationReady(occurrences[k], at, lead);
    } else {
      assert launch == Some(effect);
      var k := Least(ReadyLaunches(occurrences)).name;
      assert k in occurrences && occurrences[k].phase == JoinPending;
    }
  }

  // ---- joining ---------------------------------------------------------------

  // A joined occurrence leaves only when a tick finds its meeting over; until
  // then no event changes its phase, join time or join revision, and no event
  // asks for work on it.
  lemma JoinedIsFinal(s: State, index: Index, e: Event, policy: Policy, k: Key)
    requires Valid(s) && IsNormal(s) && Reduce(s, index, e, policy).Ok?
    requires k in s.occurrences && s.occurrences[k].phase == Joined
    ensures var next := Reduce(s, index, e, policy).value.state.occurrences;
            && (k !in next <==> e.payload.Tick? && MeetingExpired(s.occurrences[k], e.at))
            && (k in next ==> next[k].phase == Joined
                              && next[k].joinedAt == s.occurrences[k].joinedAt
                              && next[k].joinRevision == s.occurrences[k].joinRevision)
    ensures forall effect | effect in Reduce(s, index, e, policy).value.effects :: EffectKey(effect) != Some(k)
  {
    NormalNextAt(s, index, e, policy, k);
    JoinedMoves(s, index, e, policy, k);
    forall effect | effect in Reduce(s, index, e, policy).value.effects
      ensures EffectKey(effect) != Some(k)
    {
      EffectsNameWork(s, index, e, policy, effect);
    }
  }

  // Every effect of an accepted event that names an occurrence names ready work
  // of the state the event leaves.
  lemma EffectsNameWork(s: State, index: Index, e: Event, policy: Policy, effect: Effect)
    requires Reduce(s, index, e, policy).Ok? && effect in Reduce(s, index, e, policy).value.effects
    ensures var next := Reduce(s, index, e, policy).value.state.occurrences;
            EffectKey(effect).Some? ==>
              && EffectKey(effect).value in next
              && (var o := next[EffectKey(effect).value];
                  || (NotificationReady(o, e.at, policy.lead)
                      && effect == NotificationEffectOf(EffectKey(effect).value, o))
                  || (o.phase == JoinPending && effect == LaunchEffectOf(EffectKey(effect).value, o)))
  {
    var outcome := Reduce(s, index, e, policy).value;
    var moved := Transition(Normalized(s), index, e, policy).value;
    var own := OwnEffects(Normalized(s), moved, e, policy);
    assert outcome.effects == own + PendingEffects(outcome.state.occurrences, e.at, policy.lead);
    if effect in PendingEffects(outcome.state.occurrences, e.at, policy.lead) {
      EffectsNameReadyWork(outcome.state.occurrences, e.at, policy.lead, effect);
    } else {
      assert effect in own;
      assert EffectKey(effect) == None;
    }
  }

  lemma JoinedMoves(s: State, index: Index, e: Event, policy: Policy, k: Key)
    requires Valid(s) && Transition(s, index, e, policy).Ok?
    requires k in s.occurrences && s.occurrences[k].phase == Joined
    ensures var o := s.occurrences[k];
            var moved := MovedOne(s, index, e, policy, k);
            && (moved.None? <==> e.payload.Tick? && MeetingExpired(o, e.at))
            && (moved.Some? ==> moved.value == o.(meeting := moved.value.meeting))
  {
    var o := s.occurrences[k];
    match e.payload {
      case PollDone(poll) =>
        if poll.error.None? {
          VerdictShape(s, poll, k);
          JoinedReconciles(o, VerdictOf(s, poll, k), e.at, policy.lead);
        }
      case Notice(n) => JoinedNotice(o, n, e.at, policy);
      case _ =>
    }
  }

  lemma JoinedReconciles(o: Occurrence, v: Verdict, at: Time, lead: nat)
    requires o.phase == Joined
    ensures var out := ReconcileOne(Some(o), v, at, lead);
            out.Ok? ==> out.value.Some? && out.value.value == o.(meeting := out.value.value.meeting)
  {
  }

  lemma JoinedNotice(o: Occurrence, n: Notification, at: Time, policy: Policy)
    requires o.phase == Joined
    ensures NotificationOne(o, n, at, policy) == Some(o)
  {
  }

  predicate SameJoin(o: Occurrence, next: Occurrence) {
    o.phase == Joined && next.phase == Joined && next.joinedAt == o.joinedAt && next.joinRevision == o.joinRevision
  }

  // A tick that finds the meeting of a key over.
  predicate EndsMeeting(s: State, input: Input, k: Key) {
    && input.Handled? && input.event.payload.Tick?
    && k in s.occurrences && MeetingExpired(s.occurrences[k], input.event.at)
  }

  lemma JoinedInput(s: State, t: Time, input: Input, policy: Policy, next: State, k: Key)
    requires Sound(s, t, policy.lead) && t <= TimeOf(input) && Accepts(s, input, policy, next)
    requires k in s.occurrences && s.occurrences[k].phase == Joined && !EndsMeeting(s, input, k)
    ensures k in next.occurrences && SameJoin(s.occurrences[k], next.occurrences[k])
  {
    SoundIsNormal(s, t, policy.lead);
    match input {
      case Handled(e) => JoinedIsFinal(s, IndexOf(s.occurrences), e, policy, k);
      case Restarted(now) =>
    }
  }

  lemma JoinedStep(states: seq<State>, inputs: seq<Input>, policy: Policy, k: Key, j: nat)
    requires IsRun(states, inputs, policy) && j < |inputs|
    requires k in states[j].occurrences && states[j].occurrences[k].phase == Joined
    requires !EndsMeeting(states[j], inputs[j], k)
    ensures k in states[j + 1].occurrences && SameJoin(states[j].occurrences[k], states[j + 1].occurrences[k])
  {
    RunStep(states, inputs, policy, j);
    JoinedInput(states[j], ClockAt(inputs, j), inputs[j], policy, states[j + 1], k);
  }

  // Over a run: joined stays joined until a tick at or after the end of its
  // current meeting (or two hours after its start when it has no end).
  lemma {:induction false} JoinedUntilOver(states: seq<State>, inputs: seq<Input>, policy: Policy, k: Key, i: nat,
                                           j: nat)
    requires IsRun(states, inputs, policy) && i <= j <= |inputs|
    requires k in states[i].occurrences && states[i].occurrences[k].phase == Joined
    requires forall m | i <= m < j :: !EndsMeeting(states[m], inputs[m], k)
    ensures k in states[j].occurrences && SameJoin(states[i].occurrences[k], states[j].occurrences[k])
    decreases j
  {
    if i < j {
      JoinedUntilOver(states, inputs, policy, k, i, j - 1);
      JoinedStep(states, inputs, policy, k, j - 1);
    }
  }

  // A launch result changes an occurrence exactly when it answers the join it
  // is waiting for; every other occurrence only ages.
  lemma LaunchAnswersItsJoin(s: State, index: Index, e: Event, policy: Policy, k: Key)
    requires Valid(s) && IsNormal(s) && e.payload.LaunchDone? && Reduce(s, index, e, policy).Ok?
    requires k in s.occurrences
    ensures var o := s.occurrences[k];
            var next := Lookup(Reduce(s, index, e, policy).value.state.occurrences, k);
            if k == e.payload.key && o.phase == JoinPending && o.joinRevision == e.payload.joinRevision then
              && next.Some?
              && (e.payload.failed ==>
                    next.value.phase == o.resumePhase && next.value.notificationId == o.notificationId)
              && (!e.payload.failed ==>
                    next.value.phase == Joined && next.value.joinedAt == e.at && next.value.notificationId == 0)
              && next.value.joinRevision == o.joinRevision && next.value.meeting == o.meeting
            else next == ExpireOne(o, e.at)
  {
    NormalNextAt(s, index, e, policy, k);
    LaunchNext(s, index, e, policy, k);
  }

  lemma LaunchNext(s: State, index: Index, e: Event, policy: Policy, k: Key)
    requires Valid(s) && e.payload.LaunchDone? && k in s.occurrences
    ensures var o := s.occurrences[k];
            var next := NextOne(s, index, e, policy, k);
            if k == e.payload.key && o.phase == JoinPending && o.joinRevision == e.payload.joinRevision then
              && next.Some?
              && (e.payload.failed ==>
                    next.value.phase == o.resumePhase && next.value.notificationId == o.notificationId)
              && (!e.payload.failed ==>
                    next.value.phase == Joined && next.value.joinedAt == e.at && next.value.notificationId == 0)
              && next.value.joinRevision == o.joinRevision && next.value.meeting == o.meeting
            else next == ExpireOne(o, e.at)
  {
  }

  // ---- removal ------------------------------------------------------------------

  // After an accepted poll, a key that vanished or was removed is absent, joined
  // or being closed; a key the poll and the snapshot do not mention is only aged.
  lemma RemovedKeysSettle(s: State, index: Index, e: Event, policy: Policy, k: Key)
    requires Valid(s) && IsNormal(s) && e.payload.PollDone? && e.payload.poll.error.None?
    requires Reduce(s, index, e, policy).Ok?
    ensures var v := VerdictOf(s, e.payload.poll, k);
            var next := Lookup(Reduce(s, index, e, policy).value.state.occurrences, k);
            && (v.vanished || v.removal.Some? ==>
                  next.None? || next.value.phase == Joined || next.value.phase == ClosePending)
            && (!v.vanished && v.removal.None? && v.current.None? ==>
                  next == SettledOne(Lookup(s.occurrences, k), e.at))
  {
    NormalNextAt(s, index, e, policy, k);
    RemovedNext(s, index, e, policy, k);
  }

  lemma RemovedNext(s: State, index: Index, e: Event, policy: Policy, k: Key)
    requires Valid(s) && e.payload.PollDone? && e.payload.poll.error.None?
    requires Reconciled(s, e.payload.poll, e.at, policy.lead).Ok?
    ensures var v := VerdictOf(s, e.payload.poll, k);
            var next := NextOne(s, index, e, policy, k);
            && (v.vanished || v.removal.Some? ==>
                  next.None? || next.value.phase == Joined || next.value.phase == ClosePending)
            && (!v.vanished && v.removal.None? && v.current.None? ==>
                  next == SettledOne(Lookup(s.occurrences, k), e.at))
  {
    var v := VerdictOf(s, e.payload.poll, k);
    MovedPollAt(s, e.payload.poll, e.at, policy.lead, k);
    VerdictShape(s, e.payload.poll, k);
    PolledNext(s, index, e, policy, k);
    if v.vanished || v.removal.Some? {
      SettlesWhenRemoved(Lookup(s.occurrences, k), v, e.at, policy.lead);
      SettlingKeepsRemoved(ReconcileOne(Lookup(s.occurrences, k), v, e.at, policy.lead).value, e.at);
    } else if v.current.None? {
      UnmentionedOne(Lookup(s.occurrences, k), e.at, policy.lead);
      assert v == Verdict(false, None, None);
    }
  }

  lemma PolledNext(s: State, index: Index, e: Event, policy: Policy, k: Key)
    requires e.payload.PollDone? && e.payload.poll.error.None?
    requires OutcomeAt(s, e.payload.poll, e.at, policy.lead, k).Ok?
    ensures NextOne(s, index, e, policy, k)
         == SettledOne(ReconcileOne(Lookup(s.occurrences, k), VerdictOf(s, e.payload.poll, k), e.at, policy.lead).value,
                       e.at)
  {
  }

  lemma UnmentionedOne(prior: Slot, at: Time, lead: nat)
    ensures ReconcileOne(prior, Verdict(false, None, None), at, lead) == Ok(prior)
  {
  }

  lemma SettlingKeepsRemoved(slot: Slot, at: Time)
    requires slot.None? || slot.value.phase == Joined || slot.value.phase == ClosePending
    ensures SettledOne(slot, at) == slot
  {
  }

  lemma SettlesWhenRemoved(prior: Slot, v: Verdict, at: Time, lead: nat)
    requires prior.Some? ==> ValidOccurrence(prior.value)
    requires v.vanished ==> v.current.None? && v.removal.None?
    requires v.vanished || v.removal.Some?
    requires ReconcileOne(prior, v, at, lead).Ok?
    ensures var next := ReconcileOne(prior, v, at, lead).value;
            next.None? || next.value.phase == Joined || next.value.phase == ClosePending
  {
  }

  // It does not follow that a removed meeting is gone once its close completes. It
  // comes back exactly when the poll leaves a close that resumes: one was pending
  // before, or the same poll lists the key with other content, out of the window,
  // and so begins one before the removal is looked at.
  predicate ClosesToResume(prior: Slot, v: Verdict, at: Time, lead: nat) {
    prior.Some? &&
      var o := prior.value;
      || (o.phase == ClosePending && o.resumePhase != NoPhase)
      || (v.current.Some?
          && ContentOf(o.meeting) != ContentOf(v.current.value) && !Due(v.current.value, at, lead)
          && (o.phase == Notified || o.phase == ActionableHistory || o.phase == JoinPending
              || (o.phase == NotifyPending && o.notificationId != 0)))
  }

  predicate ResumesLater(slot: Slot) {
    slot.Some? && slot.value.phase == ClosePending && slot.value.resumePhase != NoPhase
  }

  lemma RemovalLeavesResume(prior: Slot, v: Verdict, at: Time, policy: Policy)
    requires prior.Some? ==> ValidOccurrence(prior.value)
    requires (v.vanished || v.removal.Some?) && (v.vanished ==> v.removal.None? && v.current.None?)
    requires ReconcileOne(prior, v, at, policy.lead).Ok?
    ensures ResumesLater(ReconcileOne(prior, v, at, policy.lead).value) <==> ClosesToResume(prior, v, at, policy.lead)
  {
  }

  // The poll as an accepted event.
  lemma PollLeavesResume(s: State, t: Time, e: Event, policy: Policy, k: Key)
    requires Sound(s, t, policy.lead) && t <= e.at && e.payload.PollDone? && e.payload.poll.error.None?
    requires Reduce(s, IndexOf(s.occurrences), e, policy).Ok?
    requires var v := VerdictOf(s, e.payload.poll, k); v.vanished || v.removal.Some?
    ensures var next := Reduce(s, IndexOf(s.occurrences), e, policy).value.state;
            && Sound(next, e.at, policy.lead)
            && (ResumesLater(Lookup(next.occurrences, k))
                <==> ClosesToResume(Lookup(s.occurrences, k), VerdictOf(s, e.payload.poll, k), e.at, policy.lead))
  {
    SoundIsNormal(s, t, policy.lead);
    SoundStep(s, t, IndexOf(s.occurrences), e, policy);
    NormalNextAt(s, IndexOf(s.occurrences), e, policy, k);
    MovedPollAt(s, e.payload.poll, e.at, policy.lead, k);
    VerdictShape(s, e.payload.poll, k);
    var v := VerdictOf(s, e.payload.poll, k);
    RemovalLeavesResume(Lookup(s.occurrences, k), v, e.at, policy);
    ExpiryKeepsResume(ReconcileOne(Lookup(s.occurrences, k), v, e.at, policy.lead).value, e.at);
  }

  lemma ExpiryKeepsResume(slot: Slot, at: Time)
    ensures ResumesLater(SettledOne(slot, at)) <==> ResumesLater(slot)
  {
  }

  lemma CloseNext(s: State, index: Index, e: Event, policy: Policy, k: Key)
    requires k in s.occurrences && s.occurrences[k].phase == ClosePending && SoundOne(s.occurrences[k], 0, policy.lead)
    requires e.payload == Notice(CommandCompleted(k, s.occurrences[k].notificationId))
    ensures var next := NextOne(s, index, e, policy, k);
            if ResumesLater(Some(s.occurrences[k]))
            then next.Some? && next.value.phase == Scheduled && next.value.meeting == s.occurrences[k].meeting
            else next.None?
  {
  }

  // A completed close, as an accepted event, brings back exactly what resumes.
  lemma CloseCompletes(s: State, t: Time, e: Event, policy: Policy, k: Key)
    requires Sound(s, t, policy.lead) && t <= e.at && k in s.occurrences && s.occurrences[k].phase == ClosePending
    requires e.payload == Notice(CommandCompleted(k, s.occurrences[k].notificationId))
    requires Reduce(s, IndexOf(s.occurrences), e, policy).Ok?
    ensures var next := Lookup(Reduce(s, IndexOf(s.occurrences), e, policy).value.state.occurrences, k);
            if ResumesLater(Some(s.occurrences[k]))
            then next.Some? && next.value.phase == Scheduled && next.value.meeting == s.occurrences[k].meeting
            else next.None?
  {
    SoundIsNormal(s, t, policy.lead);
    assert SoundOne(s.occurrences[k], t, policy.lead);
    CloseNext(s, IndexOf(s.occurrences), e, policy, k);
    NormalNextAt(s, IndexOf(s.occurrences), e, policy, k);
  }

  // A meeting that an accepted poll removes, whether or not the poll also lists it,
  // is being closed and is scheduled again by the completed close, if and only if
  // the poll left a close that resumes.
  lemma RemovedMeetingReturns(s: State, t: Time, e: Event, done: Event, policy: Policy, k: Key)
    requires Sound(s, t, policy.lead) && t <= e.at <= done.at && e.payload.PollDone? && e.payload.poll.error.None?
    requires Reduce(s, IndexOf(s.occurrences), e, policy).Ok?
    requires var v := VerdictOf(s, e.payload.poll, k); v.vanished || v.removal.Some?
    requires var removed := Reduce(s, IndexOf(s.occurrences), e, policy).value.state;
             && Reduce(removed, IndexOf(removed.occurrences), done, policy).Ok?
             && (k in removed.occurrences ==>
                   done.payload == Notice(CommandCompleted(k, removed.occurrences[k].notificationId)))
    ensures var removed := Reduce(s, IndexOf(s.occurrences), e, policy).value.state;
            var final := Lookup(Reduce(removed, IndexOf(removed.occurrences), done, policy).value.state.occurrences, k);
            && (k in removed.occurrences && removed.occurrences[k].phase == ClosePending && final.Some?
                <==> ClosesToResume(Lookup(s.occurrences, k), VerdictOf(s, e.payload.poll, k), e.at, policy.lead))
            && (k in removed.occurrences && removed.occurrences[k].phase == ClosePending && final.Some? ==>
                  final.value.phase == Scheduled)
  {
    PollLeavesResume(s, t, e, policy, k);
    var removed := Reduce(s, IndexOf(s.occurrences), e, policy).value.state;
    if k in removed.occurrences && removed.occurrences[k].phase == ClosePending {
      CloseCompletes(removed, e.at, done, policy, k);
    }
  }

  // ---- backoff --------------------------------------------------------------------

  // The failure report counts: it names current work.
  predicate FailureMatches(o: Occurrence, n: Notification) {
    && n.Failed?
    && (o.phase == ClosePending ==> n.id != 0 && n.id == o.notificationId)
    && (o.phase != ClosePending ==> DeliveryMatches(o, n.revision))
  }

  // A matching failure at time t pushes the next attempt into [t + 1 min,
  // t + 18 min 45 s], and no selection before it offers the item.
  lemma FailureBacksOff(s: State, index: Index, e: Event, policy: Policy, t: Time)
    requires Valid(s) && IsNormal(s) && e.payload.Notice? && Reduce(s, index, e, policy).Ok?
    requires e.payload.notification.Failed? && e.payload.notification.account == ""
    requires e.payload.notification.key in s.occurrences
    requires FailureMatches(s.occurrences[e.payload.notification.key], e.payload.notification)
    requires s.occurrences[e.payload.notification.key].phase == NotifyPending ==>
               e.at < s.occurrences[e.payload.notification.key].meeting.start
    ensures var k := e.payload.notification.key;
            var next := Reduce(s, index, e, policy).value.state.occurrences;
            && k in next
            && next[k].phase == s.occurrences[k].phase
            && next[k].attempt == s.occurrences[k].attempt + 1
            && e.at + MINUTE <= next[k].notBefore <= e.at + 18 * MINUTE + 45 * SECOND
            && (t < next[k].notBefore ==>
                  forall effect | effect in PendingEffects(next, t, policy.lead) :: EffectKey(effect) != Some(k))
  {
    var n := e.payload.notification;
    NormalNextAt(s, index, e, policy, n.key);
    var o := s.occurrences[n.key];
    FailureMoves(o, n, e.at, policy);
    FailureNext(s, index, e, policy);
    BackedOffIsSilent(Reduce(s, index, e, policy).value.state.occurrences, n.key, t, policy.lead);
  }

  lemma FailureNext(s: State, index: Index, e: Event, policy: Policy)
    requires e.payload.Notice? && e.payload.notification.Failed? && e.payload.notification.account == ""
    requires e.payload.notification.key in s.occurrences
    requires var o := s.occurrences[e.payload.notification.key];
             var moved := NotificationOne(o, e.payload.notification, e.at, policy);
             && (o.phase == NotifyPending || o.phase == ClosePending)
             && (o.phase == NotifyPending ==> e.at < o.meeting.start)
             && moved.Some? && moved.value.phase == o.phase && moved.value.meeting == o.meeting
    ensures var n := e.payload.notification;
            NextOne(s, index, e, policy, n.key) == NotificationOne(s.occurrences[n.key], n, e.at, policy)
  {
  }

  // Work that waits for its next attempt is not offered.
  lemma BackedOffIsSilent(occurrences: map<Key, Occurrence>, k: Key, t: Time, lead: nat)
    requires k in occurrences ==>
               (occurrences[k].phase == NotifyPending || occurrences[k].phase == ClosePending)
    ensures k in occurrences && t < occurrences[k].notBefore ==>
              forall effect | effect in PendingEffects(occurrences, t, lead) :: EffectKey(effect) != Some(k)
  {
    forall effect | effect in PendingEffects(occurrences, t, lead)
      ensures k in occurrences && t < occurrences[k].notBefore ==> EffectKey(effect) != Some(k)
    {
      EffectsNameReadyWork(occurrences, t, lead, effect);
    }
  }

  lemma FailureMoves(o: Occurrence, n: Notification, at: Time, policy: Policy)
    requires ValidOccurrence(o) && FailureMatches(o, n)
    ensures var next := NotificationOne(o, n, at, policy);
            && next.Some? && next.value == o.(attempt := o.attempt + 1, notBefore := next.value.notBefore)
            && at + MINUTE <= next.value.notBefore <= at + 18 * MINUTE + 45 * SECOND
  {
    BackoffWindow(at, o.attempt + 1, NoJitter);
    BackoffWindow(at, o.attempt + 1, (limit: nat) => policy.keyHash(n.key) % (limit + 1));
  }
}

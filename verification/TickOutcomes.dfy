// What is left of an occurrence when time passes, when meetings come due and when a
// launch reports, told field by field.
module TickOutcomes {
  import opened Wrappers
  import opened Meetings
  import opened Storage
  import opened Events
  import opened Expiry
  import opened Reconcile
  import opened ReducerNotifications
  import opened PollHealth
  import opened Scheduler
  import opened Reducer
  import opened Pointwise
  import opened Closure

  // The close of an occurrence: it keeps its meeting, its id and its revisions, and
  // nothing of the phase it leaves.
  function ClosedAs(o: Occurrence, reason: CloseReason, resume: Phase): Occurrence {
    Occurrence(o.meeting, ClosePending, o.notificationId, 0, 0, 0, 0, 0, 0, reason, resume,
               o.notifyRevision, o.joinRevision)
  }

  // Only time has passed: a pending notification whose meeting has started goes, or
  // is closed when it was to replace one that is shown.
  predicate AgesTo(prior: Slot, at: Time, next: Slot) {
    if prior.Some? && prior.value.phase == NotifyPending && prior.value.meeting.start <= at then
      if prior.value.notificationId == 0 then next == None
      else next == Some(ClosedAs(prior.value, CloseExpired, NoPhase))
    else next == prior
  }

  lemma SettlingAges(slot: Slot, at: Time)
    ensures AgesTo(slot, at, SettledOne(slot, at))
  {
  }

  // ---- ticks -----------------------------------------------------------------------

  // A meeting is over at its end, or two hours after its start when it has none.
  predicate Over(m: Meeting, at: Time) {
    if m.end != 0 then m.end <= at else m.start + 7200 * 1_000_000_000 <= at
  }

  predicate TickedTo(o: Occurrence, at: Time, next: Slot) {
    if (o.phase == Scheduled || o.phase == NotifyPending || o.phase == Joined) && Over(o.meeting, at) then next == None
    else if o.phase == ActionableHistory && o.actionExpiresAt <= at then next == None
    else if (o.phase == Notified || o.phase == JoinPending) && (Over(o.meeting, at) || o.actionExpiresAt <= at) then
      next == Some(ClosedAs(o, CloseExpired, NoPhase))
    else AgesTo(Some(o), at, next)
  }

  lemma PrunedTo(o: Occurrence, at: Time)
    ensures TickedTo(o, at, SettledOne(PruneOne(o, at), at))
  {
  }

  // After an accepted tick what is over is gone or being closed, actions that have
  // expired are withdrawn, and everything else is as it was.
  lemma TickLeaves(s: State, index: Index, e: Event, policy: Policy, k: Key)
    requires IsNormal(s) && e.payload.Tick? && Reduce(s, index, e, policy).Ok? && k in s.occurrences
    ensures TickedTo(s.occurrences[k], e.at, Lookup(Reduce(s, index, e, policy).value.state.occurrences, k))
  {
    NormalNextAt(s, index, e, policy, k);
    PrunedTo(s.occurrences[k], e.at);
  }

  // ---- meetings come due ---------------------------------------------------------------

  predicate DueSoon(m: Meeting, at: Time, lead: nat) {
    at < m.start <= at + lead
  }

  predicate PromotedTo(o: Occurrence, at: Time, lead: nat, next: Slot) {
    if o.phase == Scheduled && DueSoon(o.meeting, at, lead) then
      && o.notifyRevision < MAX_REVISION
      && next == Some(o.(phase := NotifyPending, notifyRevision := o.notifyRevision + 1, notBefore := at))
    else AgesTo(Some(o), at, next)
  }

  // An accepted activity result that found the user present, or could not tell,
  // makes exactly the scheduled meetings that are due pending, each under its next
  // revision and ready at once; one that found the user away changes nothing.
  lemma ActivityLeaves(s: State, index: Index, e: Event, policy: Policy, k: Key)
    requires IsNormal(s) && e.payload.ActivityDone? && Reduce(s, index, e, policy).Ok? && k in s.occurrences
    ensures var next := Lookup(Reduce(s, index, e, policy).value.state.occurrences, k);
            if e.payload.eligible || e.payload.degraded || e.payload.failed
            then PromotedTo(s.occurrences[k], e.at, policy.lead, next)
            else AgesTo(Some(s.occurrences[k]), e.at, next)
  {
    NormalNextAt(s, index, e, policy, k);
    NormalTransition(s, index, e, policy);
    if e.payload.eligible || e.payload.degraded || e.payload.failed {
      RevisionIsLeft(s, index, e, policy, k);
    }
    PromotedNext(s, index, e, policy, k);
  }

  // An accepted activity result never finds a due meeting without a revision left.
  lemma RevisionIsLeft(s: State, index: Index, e: Event, policy: Policy, k: Key)
    requires e.payload.ActivityDone? && Transition(s, index, e, policy).Ok? && k in s.occurrences
    requires e.payload.eligible || e.payload.degraded || e.payload.failed
    ensures s.occurrences[k].phase == Scheduled && DueSoon(s.occurrences[k].meeting, e.at, policy.lead) ==>
              s.occurrences[k].notifyRevision < MAX_REVISION
  {
    assert s.occurrences[k].notifyRevision == MAX_REVISION && Promotes(s.occurrences[k], e.at, policy.lead) ==>
        PromotionExhausted(s.occurrences, e.at, policy.lead);
  }

  lemma PromotedNext(s: State, index: Index, e: Event, policy: Policy, k: Key)
    requires e.payload.ActivityDone? && k in s.occurrences
    requires s.occurrences[k].phase == Scheduled && DueSoon(s.occurrences[k].meeting, e.at, policy.lead) ==>
               s.occurrences[k].notifyRevision < MAX_REVISION
                 || !(e.payload.eligible || e.payload.degraded || e.payload.failed)
    ensures if e.payload.eligible || e.payload.degraded || e.payload.failed
            then PromotedTo(s.occurrences[k], e.at, policy.lead, NextOne(s, index, e, policy, k))
            else AgesTo(Some(s.occurrences[k]), e.at, NextOne(s, index, e, policy, k))
  {
  }

  lemma NormalTransition(s: State, index: Index, e: Event, policy: Policy)
    requires IsNormal(s) && Reduce(s, index, e, policy).Ok?
    ensures Transition(s, index, e, policy).Ok?
    ensures Reduce(s, index, e, policy).value.state == Settled(Transition(s, index, e, policy).value, e.at)
  {
    NormalizedIdempotent(s);
  }

  // ---- a launch reports -------------------------------------------------------------------

  predicate LaunchedTo(o: Occurrence, revision: Revision, failed: bool, at: Time, next: Slot) {
    if o.phase != JoinPending || o.joinRevision != revision then AgesTo(Some(o), at, next)
    else if failed then next == Some(o.(phase := o.resumePhase, joinRequestedAt := 0, resumePhase := NoPhase))
    else next == Some(Occurrence(o.meeting, Joined, 0, 0, 0, o.notBefore, o.attempt, 0, at, o.closeReason, NoPhase,
                                 o.notifyRevision, o.joinRevision))
  }

  // A failed launch puts back what was shown; a successful one joins for good.
  lemma LaunchLeaves(s: State, index: Index, e: Event, policy: Policy, k: Key)
    requires Valid(s) && IsNormal(s) && e.payload.LaunchDone? && Reduce(s, index, e, policy).Ok? && k in s.occurrences
    ensures var next := Lookup(Reduce(s, index, e, policy).value.state.occurrences, k);
            if k == e.payload.key then
              LaunchedTo(s.occurrences[k], e.payload.joinRevision, e.payload.failed, e.at, next)
            else AgesTo(Some(s.occurrences[k]), e.at, next)
  {
    NormalNextAt(s, index, e, policy, k);
    LaunchedNext(s, index, e, policy, k);
  }

  lemma LaunchedNext(s: State, index: Index, e: Event, policy: Policy, k: Key)
    requires Valid(s) && e.payload.LaunchDone? && k in s.occurrences
    ensures if k == e.payload.key then
              LaunchedTo(s.occurrences[k], e.payload.joinRevision, e.payload.failed, e.at,
                         NextOne(s, index, e, policy, k))
            else AgesTo(Some(s.occurrences[k]), e.at, NextOne(s, index, e, policy, k))
  {
    assert ValidOccurrence(s.occurrences[k]);
  }

  // No tick, activity or launch result makes an occurrence.
  lemma NothingNew(s: State, index: Index, e: Event, policy: Policy, k: Key)
    requires IsNormal(s) && Reduce(s, index, e, policy).Ok? && k !in s.occurrences
    requires !(e.payload.PollDone? && e.payload.poll.error.None?)
    ensures k !in Reduce(s, index, e, policy).value.state.occurrences
  {
    NormalNextAt(s, index, e, policy, k);
  }

  // Only polls change what is known of accounts.
  lemma OnlyPollsTouch(s: State, index: Index, e: Event, policy: Policy)
    requires IsNormal(s) && Reduce(s, index, e, policy).Ok? && !e.payload.PollDone?
    ensures var next := Reduce(s, index, e, policy).value.state;
            next.snapshots == s.snapshots && next.health == s.health
  {
    NormalTransition(s, index, e, policy);
    TransitionTouches(s, index, e, policy);
  }

  lemma TransitionTouches(s: State, index: Index, e: Event, policy: Policy)
    requires Transition(s, index, e, policy).Ok? && !e.payload.PollDone?
    ensures var next := Transition(s, index, e, policy).value; next.snapshots == s.snapshots && next.health == s.health
  {
    match e.payload {
      case Tick =>
      case ActivityDone(_, _, _) =>
      case LaunchDone(_, _, _, _) =>
      case Notice(n) => NoticeTouches(s, index, n, e.at, policy);
    }
  }

  lemma NoticeTouches(s: State, index: Index, n: Notification, at: Time, policy: Policy)
    ensures var next := ApplyNotification(s, index, n, at, policy);
            next.snapshots == s.snapshots && next.health == s.health
  {
  }

  // ---- starting over --------------------------------------------------------------------

  // A stored occurrence of an older program: revisions it lacks are one, and nothing
  // else is touched.
  predicate UpgradedTo(o: Occurrence, next: Occurrence) {
    && next == o.(notifyRevision := next.notifyRevision, joinRevision := next.joinRevision)
    && next.notifyRevision
       == (if o.notifyRevision == 0 && !(o.phase == Scheduled || o.phase == Joined) then 1 else o.notifyRevision)
    && next.joinRevision
       == (if o.joinRevision == 0 && (o.phase == JoinPending || o.phase == Joined) then 1 else o.joinRevision)
  }

  // A start takes over what is stored: every occurrence, upgraded and aged to the time
  // of the start, and everything else as it is.
  lemma StartLeaves(stored: State, now: Time, k: Key)
    requires Startup(stored, now).Ok?
    ensures var next := Startup(stored, now).value;
            && next == stored.(occurrences := next.occurrences)
            && (if k in stored.occurrences then
                  exists upgraded :: UpgradedTo(stored.occurrences[k], upgraded)
                                     && AgesTo(Some(upgraded), now, Lookup(next.occurrences, k))
                else k !in next.occurrences)
  {
    if k in stored.occurrences {
      var upgraded := NormalizeOne(stored.occurrences[k]);
      assert UpgradedTo(stored.occurrences[k], upgraded);
      SettlingAges(Some(upgraded), now);
      assert Lookup(Startup(stored, now).value.occurrences, k) == SettledOne(Some(upgraded), now);
    }
  }
}

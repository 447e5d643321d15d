// What an accepted event asks the workers to do, told field by field.
module EffectOutcomes {
  import opened Wrappers
  import opened Order
  import opened Meetings
  import opened Storage
  import opened Events
  import opened PollHealth
  import opened Scheduler
  import opened Reducer
  import opened Pointwise
  import opened Finality
  import opened TickOutcomes

  // What an effect says, and of which work.
  ghost predicate Meant(s: State, e: Event, lead: nat, effect: Effect) {
    match effect
    case ActivityEffect =>
      e.payload.Tick? && exists k | k in s.occurrences ::
        s.occurrences[k].phase == Scheduled && DueSoon(s.occurrences[k].meeting, e.at, lead)
    case NotifyEffect(k, command) =>
      k in s.occurrences &&
        var o := s.occurrences[k];
        && o.phase == NotifyPending && DueSoon(o.meeting, e.at, lead) && o.notBefore <= e.at
        && command == NotifyCommand(k, "", o.notifyRevision,
             Request(o.notificationId, o.meeting.summary, MeetingBody(o.meeting.accountLabel, o.meeting.start),
                     ["join", "Join"]))
    case CloseEffect(k, command) =>
      && k in s.occurrences && s.occurrences[k].phase == ClosePending && s.occurrences[k].notBefore <= e.at
      && command == CloseCommand(k, s.occurrences[k].notificationId)
    case LaunchEffect(k, url, account, revision) =>
      && k in s.occurrences && s.occurrences[k].phase == JoinPending
      && url == s.occurrences[k].meeting.url && account == s.occurrences[k].meeting.accountLabel
      && revision == s.occurrences[k].joinRevision
    case AuthWarningEffect(account, command) =>
      && e.payload.PollDone? && e.payload.poll.account == account && e.payload.poll.error == Some(Authentication)
      && account in s.pendingAuthWarnings
      && s.pendingAuthWarnings[account] == AuthWarning(s.pendingAuthWarnings[account].revision, e.at, e.at, 0)
      && command == NotifyCommand("", account, s.pendingAuthWarnings[account].revision,
           Request(0, "Meeting notifier authorization required", WarningBody(account), []))
  }

  lemma PendingMeant(s: State, e: Event, lead: nat, effect: Effect)
    requires effect in PendingEffects(s.occurrences, e.at, lead)
    ensures Meant(s, e, lead, effect)
  {
    EffectsNameReadyWork(s.occurrences, e.at, lead, effect);
  }

  lemma OwnMeant(s: State, moved: State, e: Event, policy: Policy, effect: Effect)
    requires e.payload.Tick? || e.payload.PollDone?
    requires e.payload.PollDone? && e.payload.poll.error.Some? ==>
               FailedPoll(s, e.payload.poll, e.payload.poll.error.value, e.at) == Ok(moved)
    requires effect in OwnEffects(s, moved, e, policy)
    ensures Meant(Settled(moved, e.at), e, policy.lead, effect)
  {
    if e.payload.Tick? {
      var k :| k in moved.occurrences && moved.occurrences[k].phase == Scheduled
               && Due(moved.occurrences[k].meeting, e.at, policy.lead);
      var next := Settled(moved, e.at).occurrences;
      assert k in next && next[k] == moved.occurrences[k];
    }
  }

  // Every effect of an accepted event says exactly what the state it leaves asks for.
  lemma EffectsMean(s: State, index: Index, e: Event, policy: Policy, effect: Effect)
    requires IsNormal(s) && Reduce(s, index, e, policy).Ok? && effect in Reduce(s, index, e, policy).value.effects
    ensures Meant(Reduce(s, index, e, policy).value.state, e, policy.lead, effect)
  {
    NormalTransition(s, index, e, policy);
    NormalizedIdempotent(s);
    var moved := Transition(s, index, e, policy).value;
    var next := Settled(moved, e.at);
    assert Reduce(s, index, e, policy).value
        == Outcome(next, OwnEffects(s, moved, e, policy) + PendingEffects(next.occurrences, e.at, policy.lead));
    if effect in PendingEffects(next.occurrences, e.at, policy.lead) {
      PendingMeant(next, e, policy.lead, effect);
    } else {
      OwnMeant(s, moved, e, policy, effect);
    }
  }

  // And nothing that is ready goes unasked: a notification or close when one is
  // ready, a launch when a join is pending, a check when a tick finds a meeting due.
  ghost predicate AsksForAll(s: State, e: Event, lead: nat, effects: seq<Effect>) {
    && ((exists k | k in s.occurrences ::
           || (s.occurrences[k].phase == NotifyPending && DueSoon(s.occurrences[k].meeting, e.at, lead)
               && s.occurrences[k].notBefore <= e.at)
           || (s.occurrences[k].phase == ClosePending && s.occurrences[k].notBefore <= e.at))
        ==> exists effect :: effect in effects && (effect.NotifyEffect? || effect.CloseEffect?))
    && ((exists k | k in s.occurrences :: s.occurrences[k].phase == JoinPending)
        ==> exists effect :: effect in effects && effect.LaunchEffect?)
    && (e.payload.Tick? && (exists k | k in s.occurrences ::
          s.occurrences[k].phase == Scheduled && DueSoon(s.occurrences[k].meeting, e.at, lead))
        ==> ActivityEffect in effects)
  }

  lemma PendingAsks(s: State, e: Event, lead: nat, own: seq<Effect>)
    requires e.payload.Tick? && AnyDue(s.occurrences, e.at, lead) ==> ActivityEffect in own
    ensures AsksForAll(s, e, lead, own + PendingEffects(s.occurrences, e.at, lead))
  {
    var effects := own + PendingEffects(s.occurrences, e.at, lead);
    if k :| k in s.occurrences && NotificationReady(s.occurrences[k], e.at, lead) {
      assert RankOf(s.occurrences, k) in ReadyNotifications(s.occurrences, e.at, lead);
      var effect := OldestNotification(s.occurrences, e.at, lead).value;
      assert effect in OptionSeq(Some(effect)) && effect in effects;
    }
    if k :| k in s.occurrences && s.occurrences[k].phase == JoinPending {
      assert RankOf(s.occurrences, k) in ReadyLaunches(s.occurrences);
      var effect := OldestLaunch(s.occurrences).value;
      assert effect in OptionSeq(Some(effect)) && effect in effects;
    }
  }

  lemma EffectsAskForAll(s: State, index: Index, e: Event, policy: Policy)
    requires IsNormal(s) && Reduce(s, index, e, policy).Ok?
    ensures AsksForAll(Reduce(s, index, e, policy).value.state, e, policy.lead,
                       Reduce(s, index, e, policy).value.effects)
  {
    NormalTransition(s, index, e, policy);
    NormalizedIdempotent(s);
    var moved := Transition(s, index, e, policy).value;
    var next := Settled(moved, e.at);
    if e.payload.Tick? && AnyDue(next.occurrences, e.at, policy.lead) {
      SettlingKeepsDue(moved, e.at, policy.lead);
    }
    PendingAsks(next, e, policy.lead, OwnEffects(s, moved, e, policy));
  }

  lemma SettlingKeepsDue(moved: State, at: Time, lead: nat)
    requires AnyDue(Settled(moved, at).occurrences, at, lead)
    ensures AnyDue(moved.occurrences, at, lead)
  {
    var next := Settled(moved, at).occurrences;
    var k :| k in next && next[k].phase == Scheduled && Due(next[k].meeting, at, lead);
    assert moved.occurrences[k] == next[k];
  }

  // ---- which goes first ------------------------------------------------------------------

  // The earlier meeting, and of two that start together the one with the lesser key.
  predicate GoesBefore(occurrences: map<Key, Occurrence>, k: Key, j: Key)
    requires k in occurrences && j in occurrences
  {
    || occurrences[k].meeting.start < occurrences[j].meeting.start
    || (occurrences[k].meeting.start == occurrences[j].meeting.start && Less(k, j))
  }

  predicate IsReady(o: Occurrence, at: Time, lead: nat) {
    || (o.phase == NotifyPending && DueSoon(o.meeting, at, lead) && o.notBefore <= at)
    || (o.phase == ClosePending && o.notBefore <= at)
  }

  // The notification or close that is asked for goes before every other that is ready,
  // and the launch before every other join that is pending.
  lemma ChosenGoesFirst(occurrences: map<Key, Occurrence>, at: Time, lead: nat, effect: Effect, j: Key)
    requires effect in PendingEffects(occurrences, at, lead) && j in occurrences
    ensures EffectKey(effect).Some? && EffectKey(effect).value in occurrences
    ensures var k := EffectKey(effect).value;
            if effect.LaunchEffect? then
              j == k || occurrences[j].phase != JoinPending || GoesBefore(occurrences, k, j)
            else j == k || !IsReady(occurrences[j], at, lead) || GoesBefore(occurrences, k, j)
  {
    EffectsNameReadyWork(occurrences, at, lead, effect);
    if IsReady(occurrences[j], at, lead) {
      assert RankOf(occurrences, j) in ReadyNotifications(occurrences, at, lead);
    }
    if occurrences[j].phase == JoinPending {
      assert RankOf(occurrences, j) in ReadyLaunches(occurrences);
    }
  }

  // Of the warnings that are ready the oldest is asked for, and of two raised together
  // the one whose account is the lesser.
  lemma OldestWarningGoesFirst(pending: map<Label, AuthWarning>, at: Time, j: Label)
    requires j in pending && pending[j].notBefore <= at
    ensures exists a | a in pending ::
              && OldestWarning(pending, at) == Some(WarningEffectOf(a, pending[a].revision))
              && pending[a].notBefore <= at
              && (a == j || pending[a].createdAt < pending[j].createdAt
                  || (pending[a].createdAt == pending[j].createdAt && Less(a, j)))
  {
    var ready := ReadyWarnings(pending, at);
    assert Rank(pending[j].createdAt, j) in ready;
    assert Least(ready) in ready;
    assert Least(ready).name in pending;
  }
}

// One event against the durable state (daemon/reducer.go).
module Reducer {
  import opened Wrappers
  import opened Meetings
  import opened Storage
  import opened Drafts
  import opened Events
  import opened Expiry
  import opened Reconcile
  import opened ReducerNotifications
  import opened PollHealth
  import opened Scheduler

  datatype Outcome = Outcome(state: State, effects: seq<Effect>)

  // ---- specification ------------------------------------------------------

  predicate Promotes(o: Occurrence, at: Time, lead: nat) {
    o.phase == Scheduled && Due(o.meeting, at, lead)
  }

  function PromoteOne(o: Occurrence, at: Time, lead: nat): Occurrence {
    if Promotes(o, at, lead) && o.notifyRevision < MAX_REVISION then
      o.(notifyRevision := o.notifyRevision + 1, phase := NotifyPending, notBefore := at)
    else o
  }

  function PromoteAll(occurrences: map<Key, Occurrence>, at: Time, lead: nat): map<Key, Occurrence> {
    map k | k in occurrences :: PromoteOne(occurrences[k], at, lead)
  }

  ghost predicate PromotionExhausted(occurrences: map<Key, Occurrence>, at: Time, lead: nat) {
    exists k | k in occurrences :: Promotes(occurrences[k], at, lead) && occurrences[k].notifyRevision == MAX_REVISION
  }

  function LaunchedOne(o: Occurrence, joinRevision: Revision, failed: bool, at: Time): Occurrence {
    if o.phase != JoinPending || o.joinRevision != joinRevision then o
    else if failed then o.(phase := o.resumePhase, joinRequestedAt := 0, resumePhase := NoPhase)
    else o.(phase := Joined, joinedAt := at, notificationId := 0, notifiedAt := 0, actionExpiresAt := 0,
            joinRequestedAt := 0, resumePhase := NoPhase)
  }

  // What the event itself does, before pending notifications are expired.
  ghost function Transition(s: State, index: Index, e: Event, policy: Policy): Result<State, Error> {
    match e.payload
    case Tick => Ok(s.(occurrences := PruneAll(s.occurrences, e.at)))
    case ActivityDone(eligible, degraded, failed) =>
      if !(eligible || degraded || failed) then Ok(s)
      else if PromotionExhausted(s.occurrences, e.at, policy.lead) then Err(RevisionExhausted)
      else Ok(s.(occurrences := PromoteAll(s.occurrences, e.at, policy.lead)))
    case Notice(n) => Ok(ApplyNotification(s, index, n, e.at, policy))
    case LaunchDone(k, _, revision, failed) =>
      if k !in s.occurrences then Ok(s)
      else Ok(s.(occurrences := s.occurrences[k := LaunchedOne(s.occurrences[k], revision, failed, e.at)]))
    case PollDone(poll) =>
      (match poll.error
       case None => Reconciled(s, poll, e.at, policy.lead)
       case Some(kind) => FailedPoll(s, poll, kind, e.at))
    case Malformed => Err(MalformedEvent)
  }

  // Effects the event asks for besides the pending work of the new state.
  ghost function OwnEffects(s: State, moved: State, e: Event, policy: Policy): seq<Effect> {
    match e.payload
    case Tick => if AnyDue(moved.occurrences, e.at, policy.lead) then [ActivityEffect] else []
    case PollDone(poll) =>
      if poll.error.Some? && RaisesWarning(s, poll.account, poll.error.value, e.at)
         && poll.account in moved.pendingAuthWarnings
      then [WarningEffectOf(poll.account, moved.pendingAuthWarnings[poll.account].revision)]
      else []
    case _ => []
  }

  ghost function Settled(moved: State, at: Time): State {
    moved.(occurrences := ExpireAll(moved.occurrences, at))
  }

  ghost function Reduce(s: State, index: Index, e: Event, policy: Policy): Result<Outcome, Error> {
    var n := Normalized(s);
    if !Valid(n) then Err(InvalidState)
    else if e.at == 0 then Err(InvalidEvent)
    else
      match Transition(n, index, e, policy)
      case Err(error) => Err(error)
      case Ok(moved) =>
        var next := Settled(moved, e.at);
        if !Valid(next) then Err(InvalidState)
        else Ok(Outcome(next, OwnEffects(n, moved, e, policy) + PendingEffects(next.occurrences, e.at, policy.lead)))
  }

  // What starting over from a stored state does before the first event
  // (daemon.go, Loop.Run): refuse a file of another version, normalize, check, and
  // expire what has started.
  ghost function Startup(stored: State, now: Time): Result<State, Error> {
    var n := Normalized(stored);
    if stored.version != STATE_VERSION || !Valid(n) then Err(InvalidState) else Ok(Settled(n, now))
  }

  // ---- the reducer --------------------------------------------------------

  method Promote(draft: Draft, at: Time, policy: Policy) returns (err: Option<Error>)
    modifies draft`occurrences
    ensures err == (if PromotionExhausted(old(draft.occurrences), at, policy.lead)
                    then Some(RevisionExhausted) else None)
    ensures err == None ==> draft.occurrences == PromoteAll(old(draft.occurrences), at, policy.lead)
  {
    ghost var before := draft.occurrences;
    var keys := draft.occurrences.Keys;
    while keys != {}
      invariant keys <= before.Keys == draft.occurrences.Keys
      invariant forall k | k in before ::
                  draft.occurrences[k] == if k in keys then before[k] else PromoteOne(before[k], at, policy.lead)
      invariant forall k | k in before && k !in keys ::
                  !(Promotes(before[k], at, policy.lead) && before[k].notifyRevision == MAX_REVISION)
    {
      var k :| k in keys;
      var o := draft.occurrences[k];
      if o.phase == Scheduled && Due(o.meeting, at, policy.lead) {
        var revision := NextRevision(o.notifyRevision);
        if revision == None {
          return Some(RevisionExhausted);
        }
        o := o.(notifyRevision := revision.value);
        o := o.(phase := NotifyPending, notBefore := at);
        draft.occurrences := draft.occurrences[k := o];
      }
      keys := keys - {k};
    }
    return None;
  }

  method ApplyLaunch(draft: Draft, key: Key, joinRevision: Revision, failed: bool, at: Time)
    requires forall k | k in draft.occurrences :: draft.occurrences[k].meeting.key == k
    modifies draft`occurrences
    ensures draft.occurrences ==
            if key !in old(draft.occurrences) then old(draft.occurrences)
            else old(draft.occurrences)[key := LaunchedOne(old(draft.occurrences)[key], joinRevision, failed, at)]
  {
    if key !in draft.occurrences {
      return;
    }
    var o := draft.occurrences[key];
    if o.phase != JoinPending || o.joinRevision != joinRevision {
      assert draft.occurrences == draft.occurrences[key := o];
      return;
    }
    if failed {
      o := o.(phase := o.resumePhase, joinRequestedAt := 0, resumePhase := NoPhase);
    } else {
      o := o.(phase := Joined, joinedAt := at);
      o := o.(notificationId := 0, notifiedAt := 0, actionExpiresAt := 0);
      o := o.(joinRequestedAt := 0, resumePhase := NoPhase);
    }
    draft.occurrences := draft.occurrences[o.meeting.key := o];
  }

  // The draft's whole transition, with the effects the event asks for itself.
  method Step(draft: Draft, index: Index, e: Event, policy: Policy) returns (effects: seq<Effect>, err: Option<Error>)
    requires Valid(draft.View())
    modifies draft
    ensures match Transition(old(draft.View()), index, e, policy)
            case Err(error) => err == Some(error)
            case Ok(moved) => err == None && draft.View() == moved
                              && effects == OwnEffects(old(draft.View()), moved, e, policy)
  {
    effects := [];
    match e.payload {
      case Tick =>
        Prune(draft, e.at);
        var due := HasDue(draft.occurrences, e.at, policy);
        if due {
          effects := effects + [ActivityEffect];
        }
      case ActivityDone(eligible, degraded, failed) =>
        if eligible || degraded || failed {
          err := Promote(draft, e.at, policy);
          return effects, err;
        }
      case Notice(n) =>
        ReduceNotification(draft, index, n, e.at, policy);
      case LaunchDone(key, _, revision, failed) =>
        ApplyLaunch(draft, key, revision, failed, e.at);
      case PollDone(poll) =>
        if poll.error == None {
          err := Reconcile.Reconcile(draft, poll, e.at, policy);
          return effects, err;
        }
        var warned;
        warned, err := ApplyPollFailure(draft, poll, poll.error.value, e.at);
        if err != None {
          return effects, err;
        }
        if warned {
          effects := effects + [WarningEffectOf(poll.account, draft.pendingAuthWarnings[poll.account].revision)];
        }
      case Malformed =>
        return effects, Some(MalformedEvent);
    }
    return effects, None;
  }

  // reduceWithIndex. On any error the caller's state comes back and no effect leaves.
  method ReduceWithIndex(s: State, index: Index, e: Event, policy: Policy)
    returns (next: State, effects: seq<Effect>, err: Option<Error>)
    ensures match Reduce(s, index, e, policy)
            case Err(error) => err == Some(error) && next == s && effects == []
            case Ok(outcome) => err == None && next == outcome.state && effects == outcome.effects
  {
    var draft := new Draft(s);
    var _ := draft.NormalizeLegacy();
    var ok := Validate(draft.View());
    if !ok {
      return s, [], Some(InvalidState);
    }
    if e.at == 0 {
      return s, [], Some(InvalidEvent);
    }
    effects, err := Step(draft, index, e, policy);
    if err != None {
      return s, [], err;
    }
    ExpireNotifyPending(draft, e.at);
    ok := Validate(draft.View());
    if !ok {
      return s, [], Some(InvalidState);
    }
    var pending := PendingEffectsOf(draft.occurrences, e.at, policy);
    return draft.View(), effects + pending, None;
  }
}

// Nothing leaves the owner before what it stands for is on disk.
module WriteAhead {
  import opened Wrappers
  import opened Meetings
  import opened Storage
  import opened Events
  import opened Expiry
  import opened Reconcile
  import opened ReducerNotifications
  import opened PollHealth
  import opened Scheduler
  import opened Reducer
  import opened Pointwise
  import opened Closure
  import opened Finality
  import opened Control
  import opened Owner
  import opened System

  // ---- accepted states need no normalization --------------------------------

  predicate NormalOne(o: Occurrence) {
    NormalizeOne(o) == o
  }

  predicate NormalSlot(slot: Slot) {
    slot.Some? ==> NormalOne(slot.value)
  }

  lemma RemoveNormal(prior: Slot, reason: CloseReason)
    requires NormalSlot(prior) && RemoveOne(prior, reason).Ok?
    ensures NormalSlot(RemoveOne(prior, reason).value)
  {
  }

  lemma CurrentNormal(prior: Slot, m: Meeting, at: Time, lead: nat)
    requires NormalSlot(prior) && CurrentOne(prior, m, at, lead).Ok?
    ensures NormalOne(CurrentOne(prior, m, at, lead).value)
  {
  }

  lemma ReconcileNormal(prior: Slot, v: Verdict, at: Time, lead: nat)
    requires NormalSlot(prior) && ReconcileOne(prior, v, at, lead).Ok?
    ensures NormalSlot(ReconcileOne(prior, v, at, lead).value)
  {
    if v.vanished {
      RemoveNormal(prior, CloseDeleted);
    }
    var first := AfterVanish(prior, v).value;
    if v.current.Some? {
      CurrentNormal(first, v.current.value, at, lead);
    }
    var second := AfterCurrent(first, v, at, lead).value;
    if v.removal.Some? {
      RemoveNormal(second, CloseReasonOf(v.removal.value).value);
    }
  }

  lemma NoticeNormal(o: Occurrence, n: Notification, at: Time, policy: Policy)
    requires ValidOccurrence(o) && NormalOne(o)
    ensures NormalSlot(NotificationOne(o, n, at, policy))
  {
  }

  lemma MovedNormal(s: State, index: Index, e: Event, policy: Policy, k: Key)
    requires Valid(s) && IsNormal(s)
    ensures NormalSlot(MovedOne(s, index, e, policy, k))
  {
    var prior := Lookup(s.occurrences, k);
    match e.payload {
      case PollDone(poll) =>
        if poll.error.None? && OutcomeAt(s, poll, e.at, policy.lead, k).Ok? {
          ReconcileNormal(prior, VerdictOf(s, poll, k), e.at, policy.lead);
        }
      case Notice(n) =>
        if prior.Some? {
          NoticeNormal(prior.value, n, e.at, policy);
        }
      case _ =>
    }
  }

  lemma AcceptedIsNormal(s: State, index: Index, e: Event, policy: Policy)
    requires Valid(s) && IsNormal(s) && Reduce(s, index, e, policy).Ok?
    ensures IsNormal(Reduce(s, index, e, policy).value.state)
  {
    var next := Reduce(s, index, e, policy).value.state;
    forall k | k in next.occurrences
      ensures NormalizeOne(next.occurrences[k]) == next.occurrences[k]
    {
      NormalNextAt(s, index, e, policy, k);
      MovedNormal(s, index, e, policy, k);
    }
  }

  lemma SettledStaysValid(n: State, now: Time)
    requires Valid(n)
    ensures Valid(Settled(n, now))
  {
    SettledIsValid(n.occurrences, now);
    assert forall a | a in n.pendingAuthWarnings :: ValidWarning(n, a) && ValidWarning(Settled(n, now), a);
  }

  lemma SettledStaysNormal(n: State, now: Time)
    requires IsNormal(n) && Valid(n)
    ensures IsNormal(Settled(n, now))
  {
  }

  lemma StartupIsSettled(stored: State, now: Time)
    requires Startup(stored, now).Ok?
    ensures IsNormal(Startup(stored, now).value)
    ensures Valid(Startup(stored, now).value)
  {
    NormalizedIdempotent(stored);
    SettledStaysValid(Normalized(stored), now);
    SettledStaysNormal(Normalized(stored), now);
  }

  // Whatever a failed startup save leaves on disk can be started from, later, if
  // the stored state could.
  lemma FailedStartCanBeRetried(stored: State, now: Time, save: SaveResult, later: Time, config: Config)
    requires Started(stored, now, config).Ok?
    ensures Started(FailedDisk(stored, Started(stored, now, config).value.disk, save), later, config).Ok?
  {
    StartupIsSettled(stored, now);
    NormalizedIdempotent(Startup(stored, now).value);
    StartupIsSettled(stored, later);
    if save == FailedAfter {
      StartupIsSettled(Startup(stored, now).value, later);
    }
  }

  // ---- what an effect stands for ---------------------------------------------

  // The state holds exactly the work the effect asks for: same item, same
  // phase, same id, same revision.
  predicate DurableWork(s: State, e: Effect) {
    match e
    case ActivityEffect => true
    case NotifyEffect(k, _) =>
      k in s.occurrences && s.occurrences[k].phase == NotifyPending && e == NotificationEffectOf(k, s.occurrences[k])
    case CloseEffect(k, _) =>
      k in s.occurrences && s.occurrences[k].phase == ClosePending && e == NotificationEffectOf(k, s.occurrences[k])
    case LaunchEffect(k, _, _, _) =>
      k in s.occurrences && s.occurrences[k].phase == JoinPending && e == LaunchEffectOf(k, s.occurrences[k])
    case AuthWarningEffect(a, _) =>
      a in s.pendingAuthWarnings && e == WarningEffectOf(a, s.pendingAuthWarnings[a].revision)
  }

  lemma OldestNotificationDurable(s: State, now: Time, lead: nat)
    ensures var e := OldestNotification(s.occurrences, now, lead); e.Some? ==> DurableWork(s, e.value)
  {
    var ready := ReadyNotifications(s.occurrences, now, lead);
    if ready != {} {
      assert Least(ready) in ready;
    }
  }

  lemma OldestLaunchDurable(s: State)
    ensures var e := OldestLaunch(s.occurrences); e.Some? ==> e.value.LaunchEffect? && DurableWork(s, e.value)
  {
    var ready := ReadyLaunches(s.occurrences);
    if ready != {} {
      assert Least(ready) in ready;
    }
  }

  lemma OldestWarningDurable(s: State, now: Time)
    ensures var e := OldestWarning(s.pendingAuthWarnings, now); e.Some? ==> DurableWork(s, e.value)
  {
    var ready := ReadyWarnings(s.pendingAuthWarnings, now);
    if ready != {} {
      assert Least(ready) in ready;
    }
  }

  lemma AcceptedEffectsDurable(s: State, index: Index, e: Event, policy: Policy, effect: Effect)
    requires Reduce(s, index, e, policy).Ok? && effect in Reduce(s, index, e, policy).value.effects
    ensures DurableWork(Reduce(s, index, e, policy).value.state, effect)
  {
    var outcome := Reduce(s, index, e, policy).value;
    var moved := Transition(Normalized(s), index, e, policy).value;
    SplitEffectsDurable(Normalized(s), moved, outcome.state, e, policy, effect);
  }

  lemma SplitEffectsDurable(s: State, moved: State, next: State, e: Event, policy: Policy, effect: Effect)
    requires next == Settled(moved, e.at)
    requires effect in OwnEffects(s, moved, e, policy) + PendingEffects(next.occurrences, e.at, policy.lead)
    ensures DurableWork(next, effect)
  {
    if effect in PendingEffects(next.occurrences, e.at, policy.lead) {
      OldestNotificationDurable(next, e.at, policy.lead);
      OldestLaunchDurable(next);
    }
  }

  // ---- the loop invariant ------------------------------------------------------

  ghost predicate TodoDurable(o: Owner) {
    forall i | 0 <= i < |o.todo| && o.todo[i].DispatchStage? :: DurableWork(o.state, o.todo[i].effect)
  }

  // While the loop runs, memory, disk and the published index agree and every
  // effect still to be dispatched is durable. Stopped or not, the stored state
  // is one a restart accepts.
  ghost predicate LoopInv(o: Owner) {
    && Valid(o.disk) && IsNormal(o.disk)
    && (o.running ==>
          && o.state == o.disk
          && o.published == o.index && IsIndexOf(o.index, o.state.occurrences)
          && TodoDurable(o))
  }

  lemma StartedLoopInv(stored: State, now: Time, config: Config)
    requires Started(stored, now, config).Ok?
    ensures LoopInv(Started(stored, now, config).value)
  {
    StartupIsSettled(stored, now);
  }

  lemma ReceivedLoopInv(o: Owner, e: Event, save: SaveResult, config: Config)
    requires LoopInv(o) && o.running && o.todo == []
    ensures LoopInv(Received(o, e, save, config))
  {
    if Reduce(o.state, o.index, e, config.policy).Ok? {
      var out := Reduce(o.state, o.index, e, config.policy).value;
      AcceptedIsNormal(o.state, o.index, e, config.policy);
      AcceptedValid(o.state, o.index, e, config.policy);
      forall effect | effect in out.effects
        ensures DurableWork(out.state, effect)
      {
        AcceptedEffectsDurable(o.state, o.index, e, config.policy, effect);
      }
      var next := Received(o, e, save, config);
      if next.running {
        StagesDurable(out.state, out.effects, e, out.state != o.state, config);
      }
    }
  }

  lemma AcceptedValid(s: State, index: Index, e: Event, policy: Policy)
    requires Reduce(s, index, e, policy).Ok?
    ensures Valid(Reduce(s, index, e, policy).value.state)
  {
  }

  lemma StagesDurable(s: State, effects: seq<Effect>, e: Event, changed: bool, config: Config)
    requires forall effect | effect in effects :: DurableWork(s, effect)
    ensures var todo := DispatchStages(effects) + CommitStages(e, changed, config);
            forall i | 0 <= i < |todo| && todo[i].DispatchStage? :: DurableWork(s, todo[i].effect)
  {
    var todo := DispatchStages(effects) + CommitStages(e, changed, config);
    forall i | 0 <= i < |todo| && todo[i].DispatchStage?
      ensures DurableWork(s, todo[i].effect)
    {
      if i < |effects| {
        assert todo[i] == DispatchStage(effects[i]);
        assert effects[i] in effects;
      }
    }
  }

  lemma AdvancedLoopInv(o: Owner, config: Config)
    requires LoopInv(o) && o.running && o.todo != []
    ensures LoopInv(Advanced(o, config))
  {
    var next := Advanced(o, config);
    assert next.running ==> forall i | 0 <= i < |next.todo| :: next.todo[i] == o.todo[i + 1];
  }

  lemma LoopStep(s: System, a: Action, config: Config)
    requires LoopInv(s.owner) && Enabled(s, a, config)
    ensures LoopInv(After(s, a, config).owner)
  {
    if HandsOver(a) {
      ReceivedLoopInv(s.owner, HandedEvent(s, a).value, SaveOf(a), config);
    } else if a.OwnerAdvances? {
      AdvancedLoopInv(s.owner, config);
    }
  }

  // ---- write-ahead ---------------------------------------------------------------

  // From one control to the next, at most one effect was handed out, and it is
  // work of state s.
  ghost predicate IssuesWorkOf(s: State, before: Control, after: Control) {
    || after.issued == before.issued
    || (&& |after.issued| == |before.issued| + 1
        && after.issued[..|before.issued|] == before.issued
        && DurableWork(s, after.issued[|before.issued|]))
  }

  ghost predicate WrittenAhead(before: Owner, after: Owner) {
    && IssuesWorkOf(after.disk, before.control, after.control)
    && (after.control.issued != before.control.issued ==> before.running && after.running)
    && (!after.running ==>
          after.published == before.published && after.state == before.state && after.index == before.index)
  }

  lemma DispatchIssues(s: State, c: Control, e: Effect)
    requires Dispatched(c, e).Ok? && DurableWork(s, e)
    ensures IssuesWorkOf(s, c, Dispatched(c, e).value)
  {
  }

  lemma StageIssues(s: State, c: Control, stage: Stage, now: Time, config: Config)
    requires StageRun(c, stage, s, now, config).Ok?
    requires stage.DispatchStage? ==> DurableWork(s, stage.effect)
    ensures IssuesWorkOf(s, c, StageRun(c, stage, s, now, config).value)
  {
    match stage {
      case DispatchStage(e) => DispatchIssues(s, c, e);
      case ActivityStage =>
        if WantsActivity(c, s, now, config.policy.lead) {
          DispatchIssues(s, c, ActivityEffect);
        }
      case NotificationStage =>
        OldestNotificationDurable(s, now, config.policy.lead);
        var e := OldestNotification(s.occurrences, now, config.policy.lead);
        if e.Some? {
          DispatchIssues(s, c, e.value);
        }
      case LaunchStage =>
        OldestLaunchDurable(s);
        var e := OldestLaunch(s.occurrences);
        if e.Some? {
          DispatchIssues(s, c, e.value);
        }
      case WarningStage =>
        OldestWarningDurable(s, now);
        var e := OldestWarning(s.pendingAuthWarnings, now);
        if e.Some? {
          DispatchIssues(s, c, e.value);
        }
      case PollStage(_) =>
      case BumpStage =>
    }
  }

  lemma AdvancedWritesAhead(o: Owner, config: Config)
    requires LoopInv(o) && o.running && o.todo != []
    ensures WrittenAhead(o, Advanced(o, config))
  {
    if StageRun(o.control, o.todo[0], o.state, o.now, config).Ok? {
      StageIssues(o.state, o.control, o.todo[0], o.now, config);
    }
  }

  lemma ReportIssuesNothing(c: Control, e: Event, config: Config)
    ensures AfterReport(c, e, config).issued == c.issued
  {
    match e.payload {
      case Tick =>
      case PollDone(_) =>
      case ActivityDone(_, _, _) =>
      case LaunchDone(_, _, _, _) =>
      case Notice(_) =>
      case Malformed =>
    }
  }

  lemma NothingIssued(before: Owner, after: Owner)
    requires after.control.issued == before.control.issued
    requires !after.running ==>
               after.published == before.published && after.state == before.state && after.index == before.index
    ensures WrittenAhead(before, after)
  {
  }

  lemma AppliedWritesAhead(o: Owner, commit: Commit, e: Event, config: Config)
    requires o.running
    ensures WrittenAhead(o, Applied(o, commit, e, config))
    ensures Applied(o, commit, e, config).control.issued == o.control.issued
  {
    ReportIssuesNothing(o.control, e, config);
    NothingIssued(o, Applied(o, commit, e, config));
  }

  // Every command handed to a worker is the one the durable state asks for, and
  // an action that refuses or rejects an event hands out and publishes nothing.
  lemma CommandsAreWrittenAhead(s: System, a: Action, config: Config)
    requires LoopInv(s.owner) && Enabled(s, a, config)
    ensures WrittenAhead(s.owner, After(s, a, config).owner)
  {
    if HandsOver(a) {
      var e := HandedEvent(s, a).value;
      AppliedWritesAhead(s.owner, CommitOf(s.owner, e, SaveOf(a), config.policy), e, config);
    } else if a.OwnerAdvances? {
      AdvancedWritesAhead(s.owner, config);
    } else {
      TakingIssuesNothing(s, a);
    }
  }

  lemma TakingIssuesNothing(s: System, a: Action)
    requires CanTake(s, a)
    ensures var next := Taken(s, a).owner;
            && next == s.owner.(control := next.control)
            && next.control.issued == s.owner.control.issued
            && next.control.generation == s.owner.control.generation && next.control.checked == s.owner.control.checked
            && next.control.activityBusy == s.owner.control.activityBusy
            && next.control.notifierBusy == s.owner.control.notifierBusy
            && next.control.launcherBusy == s.owner.control.launcherBusy
  {
  }

  // What a hand-over leaves in memory and on disk: a refused or rejected event leaves
  // memory alone and stops the loop; the disk changes when the event was saved, or when
  // its save failed only after the new file was in place; an event that changes nothing
  // is not saved. Each accepted event is counted.
  lemma CommitLeaves(o: Owner, e: Event, save: SaveResult, config: Config)
    requires LoopInv(o) && o.running
    ensures var next := Received(o, e, save, config);
            match Reduce(o.state, o.index, e, config.policy)
            case Err(_) => next == o.(running := false)
            case Ok(out) =>
              if out.state == o.state then
                && next.state == o.state && next.disk == o.disk && next.index == o.index
                && (next.running <==> !IsDelivery(e))
                && next.processed == o.processed + (if next.running then 1 else 0)
              else if save == Saved then
                && next.running && next.state == next.disk == out.state
                && IsIndexOf(next.published, out.state.occurrences) && next.processed == o.processed + 1
              else next == o.(disk := if save == FailedAfter then out.state else o.disk, running := false)
  {
  }
}

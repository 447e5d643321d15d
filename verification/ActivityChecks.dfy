// Whatever may have made a meeting due is followed by a look at the user's activity.
module ActivityChecks {
  import opened Wrappers
  import opened Meetings
  import opened Storage
  import opened Events
  import opened Reducer
  import opened Scheduler
  import opened Control
  import opened Owner
  import opened System
  import opened Interleavings
  import opened WriteAhead
  import opened Conservation
  import opened TickOutcomes

  // The event may have made meetings due: time has passed, a poll has answered, or the
  // state has changed for another reason than an activity result.
  predicate CallsForCheck(e: Event, before: State, after: State) {
    || e.payload.Tick?
    || (e.payload.PollDone? && e.payload.poll.error.None?)
    || (before != after && !e.payload.ActivityDone?)
  }

  // A new generation is still to be counted before the durable stages.
  predicate Bumping(todo: seq<Stage>) {
    |todo| >= 5 && todo[|todo| - 5] == BumpStage
  }

  // Until the activity stage has run the generation is unchecked, or a check is under
  // way; afterwards a due meeting has a check under way.
  ghost predicate Unchecked(o: Owner, lead: nat) {
    && Shaped(o.todo) && o.running
    && (if DurableLeft(o.todo) == 0
        then o.control.activityBusy || o.control.checked < o.control.generation || Bumping(o.todo)
        else AnyDue(o.state.occurrences, o.now, lead) ==> o.control.activityBusy)
  }

  lemma ActivityStageIsAlone(todo: seq<Stage>)
    requires Shaped(todo) && todo != [] && todo[0] == ActivityStage
    ensures |todo| == 4 && !Bumping(todo)
  {
    assert DurableLeft(todo[1..]) == 1 && Shaped(todo[1..]);
    assert DurableLeft(todo[1..][1..]) == 2 && Shaped(todo[1..][1..]);
    assert DurableLeft(todo[1..][1..][1..]) == 3 && Shaped(todo[1..][1..][1..]);
    assert DurableLeft(todo[1..][1..][1..][1..]) == 4;
    NoneLeft(todo[1..][1..][1..][1..]);
  }

  lemma NoneLeft(todo: seq<Stage>)
    requires DurableLeft(todo) == 4
    ensures todo == []
  {
  }

  lemma DispatchCounters(c: Control, e: Effect)
    requires Dispatched(c, e).Ok?
    ensures var d := Dispatched(c, e).value;
            && d.generation == c.generation && (c.activityBusy ==> d.activityBusy)
            && (d.activityBusy || d.checked == c.checked)
  {
  }

  lemma StageCounters(c: Control, stage: Stage, s: State, now: Time, config: Config)
    requires StageRun(c, stage, s, now, config).Ok?
    ensures var d := StageRun(c, stage, s, now, config).value;
            && (c.activityBusy ==> d.activityBusy)
            && d.generation == c.generation + (if stage.BumpStage? then 1 else 0)
            && (d.activityBusy || d.checked == c.checked)
            && (stage.ActivityStage? && AnyDue(s.occurrences, now, config.policy.lead) && c.checked < c.generation ==>
                  d.activityBusy)
  {
    match stage {
      case DispatchStage(e) => DispatchCounters(c, e);
      case PollStage(_) =>
      case BumpStage =>
      case ActivityStage =>
      case NotificationStage =>
        var e := OldestNotification(s.occurrences, now, config.policy.lead);
        if e.Some? {
          DispatchCounters(c, e.value);
        }
      case LaunchStage =>
        var e := OldestLaunch(s.occurrences);
        if e.Some? {
          DispatchCounters(c, e.value);
        }
      case WarningStage =>
        var e := OldestWarning(s.pendingAuthWarnings, now);
        if e.Some? {
          DispatchCounters(c, e.value);
        }
    }
  }

  lemma AdvancedUnchecked(o: Owner, config: Config)
    requires Unchecked(o, config.policy.lead) && o.todo != [] && Advanced(o, config).running
    requires o.control.checked <= o.control.generation
    ensures Unchecked(Advanced(o, config), config.policy.lead)
  {
    var next := Advanced(o, config);
    StageCounters(o.control, o.todo[0], o.state, o.now, config);
    if o.todo[0] == ActivityStage {
      ActivityStageIsAlone(o.todo);
    } else if DurableLeft(o.todo) == 0 {
      assert |o.todo| > 5 ==> next.todo[|next.todo| - 5] == o.todo[|o.todo| - 5];
    }
  }

  lemma AppliedUnchecked(o: Owner, commit: Commit, e: Event, config: Config)
    requires o.running && commit.Committed? && o.control.checked <= o.control.generation
    requires commit.changed <==> commit.state != o.state
    requires CallsForCheck(e, o.state, commit.state)
    ensures Unchecked(Applied(o, commit, e, config), config.policy.lead)
  {
    CommitStagesShaped(commit.effects, e, commit.changed, config);
    ReportCounters(o.control, e, config);
    var next := Applied(o, commit, e, config);
    if !e.payload.Tick? && !(e.payload.PollDone? && e.payload.poll.error.None?) {
      assert next.todo == DispatchStages(commit.effects) + ([BumpStage] + DURABLE);
      assert next.todo[|commit.effects|] == BumpStage && |next.todo| == |commit.effects| + 5;
    } else {
      ReportRaises(o.control, e, config);
    }
  }

  lemma ReportRaises(c: Control, e: Event, config: Config)
    requires e.payload.Tick? || (e.payload.PollDone? && e.payload.poll.error.None?)
    ensures AfterReport(c, e, config).generation == c.generation + 1
  {
  }

  lemma DecidedChanges(o: Owner, e: Event, save: SaveResult, policy: Policy)
    ensures var commit := CommitOf(o, e, save, policy);
            commit.Committed? ==> (commit.changed <==> commit.state != o.state)
  {
  }

  lemma HandedUnchecked(s: System, act: Action, config: Config)
    requires Enabled(s, act, config) && HandsOver(act) && After(s, act, config).owner.running
    requires s.owner.control.checked <= s.owner.control.generation
    requires CallsForCheck(HandedEvent(s, act).value, s.owner.state, After(s, act, config).owner.state)
    ensures Unchecked(After(s, act, config).owner, config.policy.lead)
  {
    var e := HandedEvent(s, act).value;
    DecidedChanges(s.owner, e, SaveOf(act), config.policy);
    AppliedUnchecked(s.owner, CommitOf(s.owner, e, SaveOf(act), config.policy), e, config);
  }

  lemma UncheckedStep(s: System, act: Action, config: Config)
    requires Unchecked(s.owner, config.policy.lead) && Enabled(s, act, config) && !HandsOver(act)
    requires SlotsOk(s.owner.control, HandsOf(s)) && s.owner.control.checked <= s.owner.control.generation
    ensures Unchecked(After(s, act, config).owner, config.policy.lead)
    ensures After(s, act, config).owner.state == s.owner.state && After(s, act, config).owner.now == s.owner.now
  {
    if act.OwnerAdvances? {
      StageNeverFails(s.owner.control, HandsOf(s), s.owner.todo[0], s.owner.state, s.owner.now, config);
      AdvancedUnchecked(s.owner, config);
    } else {
      TakingIssuesNothing(s, act);
    }
  }

  // From the hand-over of step i up to step j no other event is handed over.
  predicate SameEvent(actions: seq<Action>, i: nat, j: nat) {
    forall m | i < m < j && m < |actions| :: !HandsOver(actions[m])
  }

  lemma HandedUncheckedAt(states: seq<System>, actions: seq<Action>, stored: State, now: Time, config: Config, i: nat)
    requires IsExecution(states, actions, stored, now, config) && i < |actions|
    requires HandsOver(actions[i]) && HandedEvent(states[i], actions[i]).Some? && states[i + 1].owner.running
    requires CallsForCheck(HandedEvent(states[i], actions[i]).value, states[i].owner.state, states[i + 1].owner.state)
    ensures Unchecked(states[i + 1].owner, config.policy.lead)
  {
    ExecutionInvariant(states, actions, stored, now, config, i);
    assert ActsAt(states, actions, config, i);
    HandedUnchecked(states[i], actions[i], config);
  }

  lemma UncheckedStepAt(states: seq<System>, actions: seq<Action>, stored: State, now: Time, config: Config, j: nat)
    requires IsExecution(states, actions, stored, now, config) && j < |actions| && !HandsOver(actions[j])
    requires Unchecked(states[j].owner, config.policy.lead)
    ensures Unchecked(states[j + 1].owner, config.policy.lead)
  {
    ExecutionInvariant(states, actions, stored, now, config, j);
    assert ActsAt(states, actions, config, j);
    UncheckedStep(states[j], actions[j], config);
  }

  lemma {:induction false} StaysUnchecked(states: seq<System>, actions: seq<Action>, stored: State, now: Time,
                                          config: Config, i: nat, j: nat)
    requires IsExecution(states, actions, stored, now, config) && i < j <= |actions| && SameEvent(actions, i, j)
    requires Unchecked(states[i + 1].owner, config.policy.lead)
    ensures Unchecked(states[j].owner, config.policy.lead)
    decreases j
  {
    if i + 1 < j {
      StaysUnchecked(states, actions, stored, now, config, i, j - 1);
      UncheckedStepAt(states, actions, stored, now, config, j - 1);
    }
  }

  // In every interleaving: once the owner has worked off an accepted event that may
  // have made meetings due, and one is, the user's activity is being looked at.
  lemma ChangeIsChecked(states: seq<System>, actions: seq<Action>, stored: State, now: Time, config: Config, i: nat,
                        j: nat, k: Key)
    requires IsExecution(states, actions, stored, now, config) && i < j <= |actions| && SameEvent(actions, i, j)
    requires HandsOver(actions[i]) && HandedEvent(states[i], actions[i]).Some? && states[i + 1].owner.running
    requires CallsForCheck(HandedEvent(states[i], actions[i]).value, states[i].owner.state, states[i + 1].owner.state)
    requires states[j].owner.todo == [] && k in states[j].owner.state.occurrences
    requires states[j].owner.state.occurrences[k].phase == Scheduled
    requires DueSoon(states[j].owner.state.occurrences[k].meeting, states[j].owner.now, config.policy.lead)
    ensures states[j].owner.control.activityBusy
  {
    HandedUncheckedAt(states, actions, stored, now, config, i);
    StaysUnchecked(states, actions, stored, now, config, i, j);
  }
}

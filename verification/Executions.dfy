// Executions of the whole system as runs of the reducer: what holds over runs holds
// of the owner's states, and of the commands it hands out.
module Executions {
  import opened Wrappers
  import opened Meetings
  import opened Storage
  import opened Events
  import opened ReducerNotifications
  import opened Scheduler
  import opened Reducer
  import opened Closure
  import opened Lifetimes
  import opened Runs
  import opened Finality
  import opened Backoff
  import opened Control
  import opened Owner
  import opened System
  import opened WriteAhead
  import opened Conservation

  // ---- executions extend runs -------------------------------------------------------

  // No event is older than the one before it.
  ghost predicate InOrder(s: System, a: Action) {
    HandsOver(a) && HandedEvent(s, a).Some? ==> s.owner.now <= HandedEvent(s, a).value.at
  }

  ghost predicate IsTimedExecution(states: seq<System>, actions: seq<Action>, stored: State, now: Time,
                                   config: Config) {
    && IsExecution(states, actions, stored, now, config)
    && forall i: nat | i < |actions| :: InOrder(states[i], actions[i])
  }

  // A run that ends in this state at this time.
  ghost predicate EndsAt(run: seq<State>, inputs: seq<Input>, policy: Policy, s: State, t: Time) {
    IsRun(run, inputs, policy) && run[|inputs|] == s && ClockAt(inputs, |inputs|) == t
  }

  lemma RunGrows(run: seq<State>, inputs: seq<Input>, policy: Policy, input: Input, next: State)
    requires IsRun(run, inputs, policy) && Accepts(run[|inputs|], input, policy, next)
    requires ClockAt(inputs, |inputs|) <= TimeOf(input)
    ensures EndsAt(run + [next], inputs + [input], policy, next, TimeOf(input))
  {
    var longer, all := run + [next], inputs + [input];
    forall i: nat | i < |all|
      ensures StepAt(longer, all, policy, i)
    {
      StepKept(run, inputs, policy, input, next, i);
    }
    forall i, j | 0 <= i <= j < |all|
      ensures TimeOf(all[i]) <= TimeOf(all[j])
    {
      if j == |inputs| && i < j {
        assert TimeOf(inputs[i]) <= TimeOf(inputs[|inputs| - 1]);
      }
    }
  }

  lemma StepKept(run: seq<State>, inputs: seq<Input>, policy: Policy, input: Input, next: State, i: nat)
    requires |run| == |inputs| + 1 && i <= |inputs|
    requires if i < |inputs| then StepAt(run, inputs, policy, i) else Accepts(run[i], input, policy, next)
    ensures StepAt(run + [next], inputs + [input], policy, i)
  {
  }

  // What one action does to the owner's state and clock: an accepted event, or
  // nothing. A save that fails after the rename leaves an accepted state on disk.
  lemma OwnerStep(s: System, a: Action, config: Config)
    requires LoopInv(s.owner) && Enabled(s, a, config)
    ensures var next := After(s, a, config).owner;
            if HandsOver(a) && next.running then
              var e := HandedEvent(s, a).value;
              Accepts(s.owner.state, Handled(e), config.policy, next.state) && next.now == e.at
            else next.state == s.owner.state && next.now == s.owner.now
    ensures var next := After(s, a, config).owner;
            next.disk != next.state && s.owner.running ==>
              && HandsOver(a)
              && Accepts(s.owner.state, Handled(HandedEvent(s, a).value), config.policy, next.disk)
    ensures !s.owner.running ==> After(s, a, config).owner.disk == s.owner.disk && !After(s, a, config).owner.running
  {
    if HandsOver(a) {
      var e := HandedEvent(s, a).value;
      IndexUnique(s.owner.index, IndexOf(s.owner.state.occurrences), s.owner.state.occurrences);
      AppliedStep(s.owner, e, SaveOf(a), config);
    } else if !a.OwnerAdvances? {
      TakingIssuesNothing(s, a);
    }
  }

  lemma AppliedStep(o: Owner, e: Event, save: SaveResult, config: Config)
    requires LoopInv(o) && o.running && o.index == IndexOf(o.state.occurrences)
    ensures var next := Received(o, e, save, config);
            && (next.running ==> Accepts(o.state, Handled(e), config.policy, next.state) && next.now == e.at)
            && (!next.running ==> next.state == o.state && next.now == o.now)
            && (next.disk != next.state ==> Accepts(o.state, Handled(e), config.policy, next.disk))
  {
  }

  // A state some step of the execution from i to j leaves the owner in.
  ghost predicate OwnerHad(states: seq<System>, i: nat, j: nat, s: State)
    requires i <= j < |states|
  {
    exists l | i <= l <= j :: states[l].owner.state == s
  }

  lemma StepAtExecution(states: seq<System>, actions: seq<Action>, stored: State, now: Time, config: Config, i: nat)
    requires IsTimedExecution(states, actions, stored, now, config) && i < |actions|
    ensures LoopInv(states[i].owner) && Enabled(states[i], actions[i], config)
    ensures states[i + 1] == After(states[i], actions[i], config) && InOrder(states[i], actions[i])
  {
    ExecutionInvariant(states, actions, stored, now, config, i);
    assert ActsAt(states, actions, config, i);
  }

  // One step of the execution is one more input of the run, or none.
  lemma StepExtends(states: seq<System>, actions: seq<Action>, stored: State, now: Time, config: Config,
                    run: seq<State>, inputs: seq<Input>, i: nat) returns (longer: seq<State>, all: seq<Input>)
    requires IsTimedExecution(states, actions, stored, now, config) && i < |actions|
    requires EndsAt(run, inputs, config.policy, states[i].owner.state, states[i].owner.now)
    ensures EndsAt(longer, all, config.policy, states[i + 1].owner.state, states[i + 1].owner.now)
    ensures run <= longer && inputs <= all
    ensures forall m | |run| <= m < |longer| :: longer[m] == states[i + 1].owner.state
  {
    StepAtExecution(states, actions, stored, now, config, i);
    OwnerStep(states[i], actions[i], config);
    longer, all := run, inputs;
    if HandsOver(actions[i]) && states[i + 1].owner.running {
      var e := HandedEvent(states[i], actions[i]).value;
      RunGrows(run, inputs, config.policy, Handled(e), states[i + 1].owner.state);
      longer, all := run + [states[i + 1].owner.state], inputs + [Handled(e)];
    }
  }

  // The run of an execution up to step i goes on to a run up to step j, through
  // states the owner had on the way only.
  lemma {:induction false} RunGoesOn(states: seq<System>, actions: seq<Action>, stored: State, now: Time,
                                     config: Config, run: seq<State>, inputs: seq<Input>, i: nat, j: nat)
    returns (longer: seq<State>, all: seq<Input>)
    requires IsTimedExecution(states, actions, stored, now, config) && i <= j <= |actions|
    requires EndsAt(run, inputs, config.policy, states[i].owner.state, states[i].owner.now)
    ensures EndsAt(longer, all, config.policy, states[j].owner.state, states[j].owner.now)
    ensures run <= longer && inputs <= all
    ensures forall m | |inputs| <= m < |longer| :: OwnerHad(states, i, j, longer[m])
    decreases j
  {
    if i == j {
      longer, all := run, inputs;
      assert states[i].owner.state == run[|inputs|];
    } else {
      var mid, before := RunGoesOn(states, actions, stored, now, config, run, inputs, i, j - 1);
      longer, all := StepExtends(states, actions, stored, now, config, mid, before, j - 1);
      forall m | |inputs| <= m < |longer|
        ensures OwnerHad(states, i, j, longer[m])
      {
        if m < |mid| {
          assert longer[m] == mid[m] && OwnerHad(states, i, j - 1, mid[m]);
        } else {
          assert states[j].owner.state == longer[m];
        }
      }
    }
  }

  // Starting over from where a run ended continues it.
  lemma StartContinues(s: System, stored: State, now: Time, config: Config, run: seq<State>, inputs: seq<Input>,
                       t: Time)
    requires Initial(s, stored, now, config) && EndsAt(run, inputs, config.policy, stored, t) && t <= now
    ensures EndsAt(run + [s.owner.state], inputs + [Restarted(now)], config.policy, s.owner.state, s.owner.now)
  {
    RunGrows(run, inputs, config.policy, Restarted(now), s.owner.state);
  }

  // The owner's states in an execution that starts from the end of a run, with event
  // times that do not go backwards, continue that run.
  lemma ExecutionIsRun(states: seq<System>, actions: seq<Action>, stored: State, now: Time, config: Config,
                       run: seq<State>, inputs: seq<Input>, t: Time, i: nat)
    returns (longer: seq<State>, all: seq<Input>)
    requires IsTimedExecution(states, actions, stored, now, config) && i <= |actions|
    requires EndsAt(run, inputs, config.policy, stored, t) && t <= now
    ensures EndsAt(longer, all, config.policy, states[i].owner.state, states[i].owner.now)
    ensures run <= longer && inputs <= all
  {
    StartContinues(states[0], stored, now, config, run, inputs, t);
    longer, all := RunGoesOn(states, actions, stored, now, config,
                             run + [states[0].owner.state], inputs + [Restarted(now)], 0, i);
  }

  ghost predicate NoLaterThan(states: seq<System>, actions: seq<Action>, i: nat, bound: Time)
    requires i <= |actions| < |states|
  {
    forall l: nat | l < i && HandsOver(actions[l]) && HandedEvent(states[l], actions[l]).Some? ::
      HandedEvent(states[l], actions[l]).value.at <= bound
  }

  // What is on disk after an action differs from memory only when the owner stopped
  // on a save that failed after the rename, now or before.
  lemma DiskStep(states: seq<System>, actions: seq<Action>, stored: State, now: Time, config: Config, i: nat)
    requires IsTimedExecution(states, actions, stored, now, config) && i < |actions|
    requires states[i + 1].owner.disk != states[i + 1].owner.state
    ensures if states[i].owner.running then
              && HandsOver(actions[i]) && HandedEvent(states[i], actions[i]).Some?
              && states[i].owner.now <= HandedEvent(states[i], actions[i]).value.at
              && Accepts(states[i].owner.state, Handled(HandedEvent(states[i], actions[i]).value), config.policy,
                         states[i + 1].owner.disk)
            else states[i + 1].owner.disk == states[i].owner.disk
  {
    StepAtExecution(states, actions, stored, now, config, i);
    OwnerStep(states[i], actions[i], config);
  }

  ghost predicate DiskEnds(run: seq<State>, inputs: seq<Input>, policy: Policy, disk: State, bound: Time) {
    IsRun(run, inputs, policy) && run[|inputs|] == disk && ClockAt(inputs, |inputs|) <= bound
  }

  lemma EndsOnDisk(run: seq<State>, inputs: seq<Input>, policy: Policy, o: Owner, bound: Time)
    requires EndsAt(run, inputs, policy, o.state, o.now) && o.disk == o.state && o.now <= bound
    ensures DiskEnds(run, inputs, policy, o.disk, bound)
  {
  }

  lemma LastSaveFailed(run: seq<State>, inputs: seq<Input>, policy: Policy, o: Owner, e: Event, disk: State,
                       bound: Time)
    requires EndsAt(run, inputs, policy, o.state, o.now) && o.now <= e.at <= bound
    requires Accepts(o.state, Handled(e), policy, disk)
    ensures DiskEnds(run + [disk], inputs + [Handled(e)], policy, disk, bound)
  {
    RunGrows(run, inputs, policy, Handled(e), disk);
  }

  // And so does what is on disk whenever the process dies, so that the next
  // execution again starts from the end of a run.
  lemma {:induction false} DiskEndsRun(states: seq<System>, actions: seq<Action>, stored: State, now: Time,
                                       config: Config,
                                       run: seq<State>, inputs: seq<Input>, t: Time, i: nat, bound: Time)
    returns (longer: seq<State>, all: seq<Input>)
    requires IsTimedExecution(states, actions, stored, now, config) && i <= |actions|
    requires EndsAt(run, inputs, config.policy, stored, t) && t <= now <= bound
    requires NoLaterThan(states, actions, i, bound)
    ensures DiskEnds(longer, all, config.policy, states[i].owner.disk, bound) && run <= longer
    decreases i
  {
    if states[i].owner.disk == states[i].owner.state {
      longer, all := ExecutionIsRun(states, actions, stored, now, config, run, inputs, t, i);
      ClockBounded(states, actions, stored, now, config, i, bound);
      EndsOnDisk(longer, all, config.policy, states[i].owner, bound);
    } else {
      FirstStateSaved(states[0], stored, now, config);
      DiskStep(states, actions, stored, now, config, i - 1);
      if states[i - 1].owner.running {
        longer, all := ExecutionIsRun(states, actions, stored, now, config, run, inputs, t, i - 1);
        var e := HandedEvent(states[i - 1], actions[i - 1]).value;
        LastSaveFailed(longer, all, config.policy, states[i - 1].owner, e, states[i].owner.disk, bound);
        longer, all := longer + [states[i].owner.disk], all + [Handled(e)];
      } else {
        longer, all := DiskEndsRun(states, actions, stored, now, config, run, inputs, t, i - 1, bound);
      }
    }
  }

  lemma FirstStateSaved(s: System, stored: State, now: Time, config: Config)
    requires Initial(s, stored, now, config)
    ensures s.owner.disk == s.owner.state && s.owner.now == now
  {
  }

  lemma {:induction false} ClockBounded(states: seq<System>, actions: seq<Action>, stored: State, now: Time,
                                        config: Config, i: nat, bound: Time)
    requires IsTimedExecution(states, actions, stored, now, config) && i <= |actions|
    requires now <= bound && NoLaterThan(states, actions, i, bound)
    ensures states[i].owner.now <= bound
  {
    if i == 0 {
      FirstStateSaved(states[0], stored, now, config);
    } else {
      ClockBounded(states, actions, stored, now, config, i - 1, bound);
      StepAtExecution(states, actions, stored, now, config, i - 1);
      OwnerStep(states[i - 1], actions[i - 1], config);
    }
  }

  // ---- what is handed out, and when -----------------------------------------------------

  // The effect stands for work that is ready at this time.
  ghost predicate Timely(s: State, e: Effect, now: Time, lead: nat) {
    match e
    case ActivityEffect => AnyDue(s.occurrences, now, lead)
    case NotifyEffect(k, _) => k in s.occurrences && NotificationReady(s.occurrences[k], now, lead)
    case CloseEffect(k, _) => k in s.occurrences && NotificationReady(s.occurrences[k], now, lead)
    case AuthWarningEffect(a, _) => a in s.pendingAuthWarnings && s.pendingAuthWarnings[a].notBefore <= now
    case _ => true
  }

  ghost predicate TodoTimely(o: Owner, lead: nat) {
    forall i | 0 <= i < |o.todo| && o.todo[i].DispatchStage? :: Timely(o.state, o.todo[i].effect, o.now, lead)
  }

  lemma EffectsAreTimely(s: State, index: Index, e: Event, policy: Policy, effect: Effect)
    requires Reduce(s, index, e, policy).Ok? && effect in Reduce(s, index, e, policy).value.effects
    ensures Timely(Reduce(s, index, e, policy).value.state, effect, e.at, policy.lead)
  {
    EffectsNameWork(s, index, e, policy, effect);
    if effect.AuthWarningEffect? {
      var outcome := Reduce(s, index, e, policy).value;
      OnlyNotices(outcome.state.occurrences, e.at, policy.lead, effect);
      RaisedIsTimely(Normalized(s), index, e, policy, effect);
    } else if effect.ActivityEffect? {
      CheckIsTimely(Normalized(s), index, e, policy);
    }
  }

  // Expiry leaves what is scheduled alone.
  lemma CheckIsTimely(s: State, index: Index, e: Event, policy: Policy)
    requires Transition(s, index, e, policy).Ok?
    requires var moved := Transition(s, index, e, policy).value;
             ActivityEffect in OwnEffects(s, moved, e, policy)
                 + PendingEffects(Settled(moved, e.at).occurrences, e.at, policy.lead)
    ensures AnyDue(Settled(Transition(s, index, e, policy).value, e.at).occurrences, e.at, policy.lead)
  {
    var moved := Transition(s, index, e, policy).value;
    var next := Settled(moved, e.at);
    if ActivityEffect in PendingEffects(next.occurrences, e.at, policy.lead) {
      EffectsNameReadyWork(next.occurrences, e.at, policy.lead, ActivityEffect);
    } else {
      assert AnyDue(moved.occurrences, e.at, policy.lead);
      var k :| k in moved.occurrences && moved.occurrences[k].phase == Scheduled
               && Due(moved.occurrences[k].meeting, e.at, policy.lead);
      assert k in next.occurrences && next.occurrences[k] == moved.occurrences[k];
    }
  }

  lemma RaisedIsTimely(s: State, index: Index, e: Event, policy: Policy, effect: Effect)
    requires Transition(s, index, e, policy).Ok?
    requires effect in OwnEffects(s, Transition(s, index, e, policy).value, e, policy) && effect.AuthWarningEffect?
    ensures Timely(Transition(s, index, e, policy).value, effect, e.at, policy.lead)
  {
  }

  lemma ReceivedTimely(o: Owner, e: Event, save: SaveResult, config: Config)
    requires o.running && TodoTimely(o, config.policy.lead)
    ensures Received(o, e, save, config).running ==> TodoTimely(Received(o, e, save, config), config.policy.lead)
  {
    var commit := CommitOf(o, e, save, config.policy);
    if commit.Committed? {
      var out := Reduce(o.state, o.index, e, config.policy).value;
      forall effect | effect in out.effects
        ensures Timely(out.state, effect, e.at, config.policy.lead)
      {
        EffectsAreTimely(o.state, o.index, e, config.policy, effect);
      }
      StagesTimely(out.state, out.effects, e, out.state != o.state, config);
    }
  }

  lemma StagesTimely(s: State, effects: seq<Effect>, e: Event, changed: bool, config: Config)
    requires forall effect | effect in effects :: Timely(s, effect, e.at, config.policy.lead)
    ensures var todo := DispatchStages(effects) + CommitStages(e, changed, config);
            forall i | 0 <= i < |todo| && todo[i].DispatchStage? :: Timely(s, todo[i].effect, e.at, config.policy.lead)
  {
    var todo := DispatchStages(effects) + CommitStages(e, changed, config);
    forall i | 0 <= i < |todo| && todo[i].DispatchStage?
      ensures Timely(s, todo[i].effect, e.at, config.policy.lead)
    {
      if i < |effects| {
        assert todo[i] == DispatchStage(effects[i]) && effects[i] in effects;
      }
    }
  }

  lemma AdvancedTimely(o: Owner, config: Config)
    requires o.running && o.todo != [] && TodoTimely(o, config.policy.lead)
    ensures Advanced(o, config).running ==> TodoTimely(Advanced(o, config), config.policy.lead)
  {
    var next := Advanced(o, config);
    assert next.running ==> forall i | 0 <= i < |next.todo| :: next.todo[i] == o.todo[i + 1];
  }

  lemma {:induction false} ExecutionTimely(states: seq<System>, actions: seq<Action>, stored: State, now: Time,
                                           config: Config, i: nat)
    requires IsExecution(states, actions, stored, now, config) && i <= |actions|
    ensures states[i].owner.running ==> TodoTimely(states[i].owner, config.policy.lead)
  {
    if i > 0 {
      ExecutionTimely(states, actions, stored, now, config, i - 1);
      assert ActsAt(states, actions, config, i - 1);
      TimelyStep(states[i - 1], actions[i - 1], config);
    }
  }

  lemma TimelyStep(s: System, a: Action, config: Config)
    requires Enabled(s, a, config) && (s.owner.running ==> TodoTimely(s.owner, config.policy.lead))
    ensures After(s, a, config).owner.running ==> TodoTimely(After(s, a, config).owner, config.policy.lead)
  {
    if HandsOver(a) {
      ReceivedTimely(s.owner, HandedEvent(s, a).value, SaveOf(a), config);
    } else if a.OwnerAdvances? {
      AdvancedTimely(s.owner, config);
    } else {
      TakingIssuesNothing(s, a);
    }
  }

  // The step hands out this effect.
  predicate Issues(before: Owner, after: Owner, e: Effect) {
    after.control.issued == before.control.issued + [e]
  }

  lemma DispatchedIsTheEffect(c: Control, e: Effect, issued: Effect)
    requires Dispatched(c, e).Ok? && Dispatched(c, e).value.issued == c.issued + [issued]
    ensures e == issued
  {
    assert Dispatched(c, e).value.issued[|c.issued|] == issued;
  }

  lemma StageIsTimely(o: Owner, config: Config, e: Effect)
    requires o.running && o.todo != [] && TodoTimely(o, config.policy.lead)
    requires Issues(o, Advanced(o, config), e)
    ensures Timely(o.state, e, o.now, config.policy.lead)
  {
    var stage := o.todo[0];
    assert o.control.issued + [e] != o.control.issued by {
      assert |o.control.issued + [e]| == |o.control.issued| + 1;
    }
    match stage {
      case DispatchStage(effect) => DispatchedIsTheEffect(o.control, effect, e);
      case PollStage(_) =>
      case BumpStage =>
      case ActivityStage => DispatchedIsTheEffect(o.control, ActivityEffect, e);
      case NotificationStage =>
        OldestIsTimely(o.state, o.now, config.policy.lead);
        DispatchedIsTheEffect(o.control, OldestNotification(o.state.occurrences, o.now, config.policy.lead).value, e);
      case LaunchStage =>
        OldestLaunchDurable(o.state);
        DispatchedIsTheEffect(o.control, OldestLaunch(o.state.occurrences).value, e);
      case WarningStage =>
        OldestIsTimely(o.state, o.now, config.policy.lead);
        DispatchedIsTheEffect(o.control, OldestWarning(o.state.pendingAuthWarnings, o.now).value, e);
    }
  }

  lemma OldestIsTimely(s: State, now: Time, lead: nat)
    ensures var e := OldestNotification(s.occurrences, now, lead); e.Some? ==> Timely(s, e.value, now, lead)
    ensures var e := OldestWarning(s.pendingAuthWarnings, now); e.Some? ==> Timely(s, e.value, now, lead)
  {
    var notices := ReadyNotifications(s.occurrences, now, lead);
    if notices != {} {
      assert Least(notices) in notices;
    }
    var warnings := ReadyWarnings(s.pendingAuthWarnings, now);
    if warnings != {} {
      assert Least(warnings) in warnings;
    }
  }

  // Every effect handed to a worker is durable work that is ready at that time; it
  // is handed out by the owner's own step, which leaves state and clock alone.
  lemma HandedOutOnTime(states: seq<System>, actions: seq<Action>, stored: State, now: Time, config: Config, i: nat,
                        e: Effect)
    requires IsExecution(states, actions, stored, now, config) && i < |actions|
    requires Issues(states[i].owner, states[i + 1].owner, e)
    ensures actions[i].OwnerAdvances? && states[i].owner.running
    ensures Timely(states[i].owner.state, e, states[i].owner.now, config.policy.lead)
    ensures DurableWork(states[i].owner.state, e)
  {
    ExecutionInvariant(states, actions, stored, now, config, i);
    ExecutionTimely(states, actions, stored, now, config, i);
    assert ActsAt(states, actions, config, i);
    IssuedByTheOwner(states[i], actions[i], config, e);
    StageIsTimely(states[i].owner, config, e);
    CommandsAreWrittenAhead(states[i], actions[i], config);
  }

  lemma IssuedByTheOwner(s: System, a: Action, config: Config, e: Effect)
    requires LoopInv(s.owner) && Enabled(s, a, config) && Issues(s.owner, After(s, a, config).owner, e)
    ensures a.OwnerAdvances? && s.owner.running
  {
    assert |After(s, a, config).owner.control.issued| == |s.owner.control.issued| + 1;
    if HandsOver(a) {
      var event := HandedEvent(s, a).value;
      AppliedWritesAhead(s.owner, CommitOf(s.owner, event, SaveOf(a), config.policy), event, config);
    } else if !a.OwnerAdvances? {
      TakingIssuesNothing(s, a);
    }
  }

  // ---- what holds over runs, for the commands handed out --------------------------------

  lemma ExecutionIsSound(states: seq<System>, actions: seq<Action>, stored: State, now: Time, config: Config,
                         run: seq<State>, inputs: seq<Input>, t: Time, i: nat)
    requires IsTimedExecution(states, actions, stored, now, config) && i <= |actions|
    requires EndsAt(run, inputs, config.policy, stored, t) && t <= now
    ensures Sound(states[i].owner.state, states[i].owner.now, config.policy.lead)
  {
    var longer, all := ExecutionIsRun(states, actions, stored, now, config, run, inputs, t, i);
    RunsAreSound(longer, all, config.policy, |all|);
  }

  ghost predicate OwnedThrough(states: seq<System>, k: Key, i: nat, j: nat)
    requires i <= j < |states|
  {
    forall l | i <= l <= j :: k in states[l].owner.state.occurrences
  }

  // A key that stays in the owner's map lives through the run behind it.
  lemma Lifetime(states: seq<System>, actions: seq<Action>, stored: State, now: Time, config: Config,
                 run: seq<State>, inputs: seq<Input>, t: Time, k: Key, i: nat, j: nat)
    returns (longer: seq<State>, all: seq<Input>, from: nat)
    requires IsTimedExecution(states, actions, stored, now, config) && i <= j <= |actions|
    requires EndsAt(run, inputs, config.policy, stored, t) && t <= now && OwnedThrough(states, k, i, j)
    ensures EndsAt(longer, all, config.policy, states[j].owner.state, states[j].owner.now)
    ensures from <= |all| && longer[from] == states[i].owner.state && LivesThrough(longer, k, from, |all|)
  {
    var first, before := ExecutionIsRun(states, actions, stored, now, config, run, inputs, t, i);
    longer, all := RunGoesOn(states, actions, stored, now, config, first, before, i, j);
    from := |before|;
    forall m | from <= m <= |all|
      ensures k in longer[m].occurrences
    {
      assert OwnerHad(states, i, j, longer[m]);
    }
  }

  // Work of one revision: pending at some step and handed out at a later one.
  ghost predicate HandsOutAgain(states: seq<System>, k: Key, command: Command, i: nat, j: nat)
    requires i <= j && j + 1 < |states|
  {
    && OwnedThrough(states, k, i, j) && command.NotifyCommand?
    && states[i].owner.state.occurrences[k].phase == NotifyPending
    && states[i].owner.state.occurrences[k].notifyRevision == command.revision
    && Issues(states[j].owner, states[j + 1].owner, NotifyEffect(k, command))
  }

  // In every interleaving a notification that waits until some time is not handed
  // to the transport before it, and what is handed out shows what was pending.
  lemma NotificationsAreHandedOutLate(states: seq<System>, actions: seq<Action>, stored: State, now: Time,
                                      config: Config,
                                      run: seq<State>, inputs: seq<Input>, t: Time, k: Key, command: Command, i: nat,
                                      j: nat)
    requires IsTimedExecution(states, actions, stored, now, config) && i <= j < |actions|
    requires EndsAt(run, inputs, config.policy, stored, t) && t <= now && HandsOutAgain(states, k, command, i, j)
    ensures states[i].owner.state.occurrences[k].notBefore <= states[j].owner.now
    ensures command.request.summary == states[i].owner.state.occurrences[k].meeting.summary
  {
    var longer, all, from := Lifetime(states, actions, stored, now, config, run, inputs, t, k, i, j);
    HandedOutOnTime(states, actions, stored, now, config, j, NotifyEffect(k, command));
    NotificationHeldBack(longer, all, config.policy, k, command, from, states[j].owner.state, states[j].owner.now);
  }

  lemma NotificationHeldBack(run: seq<State>, inputs: seq<Input>, policy: Policy, k: Key, command: Command, i: nat,
                             s: State, now: Time)
    requires EndsAt(run, inputs, policy, s, now) && i <= |inputs| && LivesThrough(run, k, i, |inputs|)
    requires run[i].occurrences[k].phase == NotifyPending && command.NotifyCommand?
    requires run[i].occurrences[k].notifyRevision == command.revision
    requires Timely(s, NotifyEffect(k, command), now, policy.lead) && DurableWork(s, NotifyEffect(k, command))
    ensures run[i].occurrences[k].notBefore <= now
    ensures command.request.summary == run[i].occurrences[k].meeting.summary
  {
    NotificationsBackOff(run, inputs, policy, k, i, |inputs|);
    LifetimeFollows(run, inputs, policy, k, i, |inputs|);
  }

  // A delivery that is recorded for a command handed out in the same lifetime shows
  // the meeting as it is now.
  lemma HandedOutIsCurrent(states: seq<System>, actions: seq<Action>, stored: State, now: Time, config: Config,
                           run: seq<State>, inputs: seq<Input>, t: Time, k: Key, command: Command, i: nat, j: nat)
    requires IsTimedExecution(states, actions, stored, now, config) && i < |actions| && i <= j <= |actions|
    requires EndsAt(run, inputs, config.policy, stored, t) && t <= now && OwnedThrough(states, k, i, j)
    requires command.NotifyCommand? && Issues(states[i].owner, states[i + 1].owner, NotifyEffect(k, command))
    requires DeliveryMatches(states[j].owner.state.occurrences[k], command.revision)
    ensures var m := states[j].owner.state.occurrences[k].meeting;
            && ContentOf(m) == ContentOf(states[i].owner.state.occurrences[k].meeting)
            && command.request.summary == m.summary && command.request.body == MeetingBody(m.accountLabel, m.start)
  {
    var longer, all, from := Lifetime(states, actions, stored, now, config, run, inputs, t, k, i, j);
    HandedOutOnTime(states, actions, stored, now, config, i, NotifyEffect(k, command));
    LifetimeFollows(longer, all, config.policy, k, from, |all|);
  }

  // A failed warning, too, is handed to the transport again only when its time has
  // come, however often the account's polls fail meanwhile.
  lemma WarningsAreHandedOutLate(states: seq<System>, actions: seq<Action>, stored: State, now: Time, config: Config,
                                 run: seq<State>, inputs: seq<Input>, t: Time, a: Label, revision: Revision, i: nat,
                                 j: nat)
    requires IsTimedExecution(states, actions, stored, now, config) && i <= j < |actions|
    requires EndsAt(run, inputs, config.policy, stored, t) && t <= now
    requires PendingAt(states[i].owner.state, a, revision)
    requires Issues(states[j].owner, states[j + 1].owner, WarningEffectOf(a, revision))
    ensures states[i].owner.state.pendingAuthWarnings[a].notBefore <= states[j].owner.now
  {
    var first, before := ExecutionIsRun(states, actions, stored, now, config, run, inputs, t, i);
    var longer, all := RunGoesOn(states, actions, stored, now, config, first, before, i, j);
    HandedOutOnTime(states, actions, stored, now, config, j, WarningEffectOf(a, revision));
    WarningHeldBack(longer, all, config.policy, a, revision, |before|, states[j].owner.state, states[j].owner.now);
  }

  lemma WarningHeldBack(run: seq<State>, inputs: seq<Input>, policy: Policy, a: Label, revision: Revision, i: nat,
                        s: State, now: Time)
    requires EndsAt(run, inputs, policy, s, now) && i <= |inputs| && PendingAt(run[i], a, revision)
    requires Timely(s, WarningEffectOf(a, revision), now, policy.lead) && DurableWork(s, WarningEffectOf(a, revision))
    ensures run[i].pendingAuthWarnings[a].notBefore <= now
  {
    WarningWaits(run, inputs, policy, a, revision, i, |inputs|);
  }
}

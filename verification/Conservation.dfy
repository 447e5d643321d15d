// Ready work is never left without a busy worker, and activity checks never
// outrun the reasons for them.
module Conservation {
  import opened Wrappers
  import Order
  import opened Meetings
  import opened Storage
  import opened Events
  import opened Scheduler
  import opened Reducer
  import opened Control
  import opened Owner
  import opened System
  import opened Interleavings
  import opened WriteAhead
  import opened Handshake

  // ---- the shape of the stages still to run ---------------------------------

  // The kind of the first durable stage left, 0 to 3, or 4 when none is left.
  // A stage before the durable ones leaves all of them.
  function DurableLeft(todo: seq<Stage>): nat {
    if todo == [] then 4
    else match todo[0]
         case ActivityStage => 0
         case NotificationStage => 1
         case LaunchStage => 2
         case WarningStage => 3
         case _ => 0
  }

  // The durable stages come last, in order, and nothing follows them.
  predicate Shaped(todo: seq<Stage>)
    decreases |todo|
  {
    todo != [] ==>
      && Shaped(todo[1..])
      && (if todo[0].DispatchStage? || todo[0].PollStage? || todo[0].BumpStage?
          then todo[1..] != [] && DurableLeft(todo[1..]) == 0
          else DurableLeft(todo[1..]) == DurableLeft(todo) + 1)
  }

  lemma DurableShaped()
    ensures Shaped(DURABLE) && DurableLeft(DURABLE) == 0
  {
    assert DURABLE[1..] == [NotificationStage, LaunchStage, WarningStage];
    assert DURABLE[1..][1..] == [LaunchStage, WarningStage];
    assert DURABLE[1..][1..][1..] == [WarningStage];
    assert DURABLE[1..][1..][1..][1..] == [];
    assert Shaped(DURABLE[1..][1..][1..]);
    assert Shaped(DURABLE[1..][1..]);
    assert Shaped(DURABLE[1..]);
  }

  lemma {:induction false} ShapedAppend(front: seq<Stage>)
    requires forall i | 0 <= i < |front| :: front[i].DispatchStage? || front[i].PollStage? || front[i].BumpStage?
    ensures Shaped(front + DURABLE) && DurableLeft(front + DURABLE) == 0
    decreases |front|
  {
    if front == [] {
      assert front + DURABLE == DURABLE;
      DurableShaped();
    } else {
      assert (front + DURABLE)[1..] == front[1..] + DURABLE;
      ShapedAppend(front[1..]);
    }
  }

  lemma CommitStagesShaped(effects: seq<Effect>, e: Event, changed: bool, config: Config)
    ensures var todo := DispatchStages(effects) + CommitStages(e, changed, config);
            Shaped(todo) && DurableLeft(todo) == 0
  {
    var front := if e.payload.Tick? then PollStages(config.accounts)
                 else if changed && !e.payload.ActivityDone? then [BumpStage] else [];
    assert DispatchStages(effects) + CommitStages(e, changed, config) == (DispatchStages(effects) + front) + DURABLE;
    ShapedAppend(DispatchStages(effects) + front);
  }

  // ---- conservation --------------------------------------------------------------

  // Once a durable stage has run, its work is covered by a busy worker, or for
  // activity by a check already made in this generation.
  ghost predicate Conserved(o: Owner, lead: nat) {
    && Shaped(o.todo)
    && (DurableLeft(o.todo) > 0 && AnyDue(o.state.occurrences, o.now, lead) ==>
          o.control.activityBusy || o.control.checked == o.control.generation)
    && (DurableLeft(o.todo) > 1 && OldestNotification(o.state.occurrences, o.now, lead).Some? ==>
          o.control.notifierBusy)
    && (DurableLeft(o.todo) > 2 && OldestLaunch(o.state.occurrences).Some? ==> o.control.launcherBusy)
    && (DurableLeft(o.todo) > 3 && OldestWarning(o.state.pendingAuthWarnings, o.now).Some? ==> o.control.notifierBusy)
  }

  // Checks handed to the activity worker so far.
  function ChecksIssued(issued: seq<Effect>): nat {
    if issued == [] then 0
    else ChecksIssued(issued[..|issued| - 1]) + (if issued[|issued| - 1].ActivityEffect? then 1 else 0)
  }

  // No more checks than generations.
  ghost predicate Counted(c: Control) {
    ChecksIssued(c.issued) <= c.checked <= c.generation
  }

  // An unchanged generation is checked once.
  // While the tick's own check is still to be dispatched the generation has not
  // been checked.
  ghost predicate CheckInv(o: Owner) {
    && Counted(o.control)
    && (o.running ==> forall i | 0 <= i < |o.todo| && o.todo[i] == DispatchStage(ActivityEffect) ::
          i == 0 && o.control.checked < o.control.generation)
  }

  lemma IssuedAppend(issued: seq<Effect>, e: Effect)
    ensures ChecksIssued(issued + [e]) == ChecksIssued(issued) + (if e.ActivityEffect? then 1 else 0)
  {
    assert (issued + [e])[..|issued|] == issued;
  }

  // Flags are only set, never cleared, by a stage.
  lemma DispatchedFlags(c: Control, e: Effect)
    requires Dispatched(c, e).Ok?
    ensures var d := Dispatched(c, e).value;
            && (c.activityBusy ==> d.activityBusy) && (c.notifierBusy ==> d.notifierBusy)
            && (c.launcherBusy ==> d.launcherBusy)
            && d.generation == c.generation
            && (d.checked == c.checked || d.checked == c.generation)
            && (e.ActivityEffect? ==> d.activityBusy)
            && (e.LaunchEffect? ==> d.launcherBusy)
            && (!e.ActivityEffect? && !e.LaunchEffect? ==> d.notifierBusy)
  {
  }

  lemma StageFlags(c: Control, stage: Stage, s: State, now: Time, config: Config)
    requires StageRun(c, stage, s, now, config).Ok?
    ensures var d := StageRun(c, stage, s, now, config).value;
            && (c.activityBusy ==> d.activityBusy) && (c.notifierBusy ==> d.notifierBusy)
            && (c.launcherBusy ==> d.launcherBusy)
            && (!stage.BumpStage? ==>
                  d.generation == c.generation && (c.checked == c.generation ==> d.checked == c.generation))
            && (stage.ActivityStage? && AnyDue(s.occurrences, now, config.policy.lead) ==>
                  d.activityBusy || d.checked == d.generation)
            && (stage.NotificationStage? && OldestNotification(s.occurrences, now, config.policy.lead).Some? ==>
                  d.notifierBusy)
            && (stage.LaunchStage? && OldestLaunch(s.occurrences).Some? ==> d.launcherBusy)
            && (stage.WarningStage? && OldestWarning(s.pendingAuthWarnings, now).Some? ==> d.notifierBusy)
  {
    match stage {
      case DispatchStage(e) => DispatchedFlags(c, e);
      case ActivityStage =>
        if WantsActivity(c, s, now, config.policy.lead) {
          DispatchedFlags(c, ActivityEffect);
        }
      case NotificationStage =>
        OldestNotificationDurable(s, now, config.policy.lead);
        var e := OldestNotification(s.occurrences, now, config.policy.lead);
        if e.Some? {
          NotificationEffectKind(s, now, config.policy.lead);
          DispatchedFlags(c, e.value);
        }
      case LaunchStage =>
        OldestLaunchDurable(s);
        var e := OldestLaunch(s.occurrences);
        if e.Some? {
          DispatchedFlags(c, e.value);
        }
      case WarningStage =>
        var e := OldestWarning(s.pendingAuthWarnings, now);
        if e.Some? {
          DispatchedFlags(c, e.value);
        }
      case PollStage(_) =>
      case BumpStage =>
    }
  }

  lemma NotificationEffectKind(s: State, now: Time, lead: nat)
    requires OldestNotification(s.occurrences, now, lead).Some?
    ensures var e := OldestNotification(s.occurrences, now, lead).value; e.NotifyEffect? || e.CloseEffect?
  {
  }

  lemma AdvancedConserves(o: Owner, config: Config)
    requires Conserved(o, config.policy.lead) && o.running && o.todo != []
    ensures Advanced(o, config).running ==> Conserved(Advanced(o, config), config.policy.lead)
  {
    if Advanced(o, config).running {
      StageFlags(o.control, o.todo[0], o.state, o.now, config);
    }
  }

  lemma AdvancedCounts(o: Owner, config: Config)
    requires CheckInv(o) && o.running && o.todo != []
    ensures CheckInv(Advanced(o, config))
  {
    var c, next := o.control, Advanced(o, config);
    if next.running {
      StageCounts(c, o.todo[0], o.state, o.now, config);
      forall i | 0 <= i < |next.todo|
        ensures next.todo[i] != DispatchStage(ActivityEffect)
      {
        assert next.todo[i] == o.todo[i + 1];
      }
    }
  }

  lemma DispatchCounts(c: Control, e: Effect)
    requires Counted(c) && Dispatched(c, e).Ok?
    requires e.ActivityEffect? ==> c.checked < c.generation
    ensures Counted(Dispatched(c, e).value)
  {
    var d := Dispatched(c, e).value;
    if d.issued != c.issued {
      assert d.issued == c.issued + [e];
      IssuedAppend(c.issued, e);
    }
  }

  lemma StageCounts(c: Control, stage: Stage, s: State, now: Time, config: Config)
    requires Counted(c)
    requires stage == DispatchStage(ActivityEffect) ==> c.checked < c.generation
    requires StageRun(c, stage, s, now, config).Ok?
    ensures Counted(StageRun(c, stage, s, now, config).value)
  {
    match stage {
      case DispatchStage(e) => DispatchCounts(c, e);
      case ActivityStage =>
        if WantsActivity(c, s, now, config.policy.lead) {
          DispatchCounts(c, ActivityEffect);
        }
      case NotificationStage =>
        var e := OldestNotification(s.occurrences, now, config.policy.lead);
        if e.Some? {
          NotificationEffectKind(s, now, config.policy.lead);
          DispatchCounts(c, e.value);
        }
      case LaunchStage =>
        OldestLaunchDurable(s);
        var e := OldestLaunch(s.occurrences);
        if e.Some? {
          DispatchCounts(c, e.value);
        }
      case WarningStage =>
        var e := OldestWarning(s.pendingAuthWarnings, now);
        if e.Some? {
          DispatchCounts(c, e.value);
        }
      case PollStage(_) =>
      case BumpStage =>
    }
  }

  // Only a tick asks for an activity check by itself, and it asks once, first.
  lemma OwnActivityFirst(s: State, index: Index, e: Event, policy: Policy, i: nat)
    requires Reduce(s, index, e, policy).Ok?
    requires i < |Reduce(s, index, e, policy).value.effects|
             && Reduce(s, index, e, policy).value.effects[i].ActivityEffect?
    ensures i == 0 && e.payload.Tick?
  {
    var outcome := Reduce(s, index, e, policy).value;
    var moved := Transition(Normalized(s), index, e, policy).value;
    SplitActivity(Normalized(s), moved, outcome.state, e, policy, i);
  }

  lemma SplitActivity(s: State, moved: State, next: State, e: Event, policy: Policy, i: nat)
    requires var effects := OwnEffects(s, moved, e, policy) + PendingEffects(next.occurrences, e.at, policy.lead);
             i < |effects| && effects[i].ActivityEffect?
    ensures i == 0 && e.payload.Tick?
  {
    OldestLaunchDurable(next);
    if OldestNotification(next.occurrences, e.at, policy.lead).Some? {
      NotificationEffectKind(next, e.at, policy.lead);
    }
    assert |OwnEffects(s, moved, e, policy)| <= 1;
  }

  lemma ReportCounts(c: Control, e: Event, config: Config)
    requires Counted(c)
    ensures Counted(AfterReport(c, e, config))
    ensures e.payload.Tick? ==> AfterReport(c, e, config).checked < AfterReport(c, e, config).generation
  {
    ReportCounters(c, e, config);
  }

  lemma ReportCounters(c: Control, e: Event, config: Config)
    ensures var d := AfterReport(c, e, config);
            && d.issued == c.issued && d.checked == c.checked && d.generation >= c.generation
            && (e.payload.Tick? ==> d.generation == c.generation + 1)
  {
    match e.payload {
      case Tick =>
      case PollDone(_) =>
      case ActivityDone(_, _, _) =>
      case LaunchDone(_, _, _, _) =>
      case Notice(_) =>
      case Malformed =>
    }
  }

  lemma OwnCheckComesFirst(effects: seq<Effect>, e: Event, changed: bool, config: Config)
    requires forall i | 0 <= i < |effects| && effects[i].ActivityEffect? :: i == 0 && e.payload.Tick?
    ensures var todo := DispatchStages(effects) + CommitStages(e, changed, config);
            forall i | 0 <= i < |todo| && todo[i] == DispatchStage(ActivityEffect) :: i == 0 && e.payload.Tick?
  {
    var todo := DispatchStages(effects) + CommitStages(e, changed, config);
    forall i | 0 <= i < |todo| && todo[i] == DispatchStage(ActivityEffect)
      ensures i == 0 && e.payload.Tick?
    {
      if i < |effects| {
        assert todo[i] == DispatchStage(effects[i]);
      }
    }
  }

  lemma AppliedCounts(o: Owner, commit: Commit, e: Event, config: Config)
    requires CheckInv(o) && o.running
    requires commit.Committed? ==>
               forall i | 0 <= i < |commit.effects| && commit.effects[i].ActivityEffect? :: i == 0 && e.payload.Tick?
    ensures CheckInv(Applied(o, commit, e, config))
    ensures commit.Committed? ==> Conserved(Applied(o, commit, e, config), config.policy.lead)
  {
    ReportCounts(o.control, e, config);
    if commit.Committed? {
      CommitStagesShaped(commit.effects, e, commit.changed, config);
      OwnCheckComesFirst(commit.effects, e, commit.changed, config);
    }
  }

  lemma ReceivedCounts(o: Owner, e: Event, save: SaveResult, config: Config)
    requires CheckInv(o) && o.running
    ensures CheckInv(Received(o, e, save, config))
    ensures Received(o, e, save, config).running ==> Conserved(Received(o, e, save, config), config.policy.lead)
  {
    var commit := CommitOf(o, e, save, config.policy);
    if commit.Committed? {
      forall i | 0 <= i < |commit.effects| && commit.effects[i].ActivityEffect?
        ensures i == 0 && e.payload.Tick?
      {
        OwnActivityFirst(o.state, o.index, e, config.policy, i);
      }
    }
    AppliedCounts(o, commit, e, config);
  }

  // ---- every reachable state --------------------------------------------------------

  ghost predicate Invariant(s: System, config: Config) {
    && SlotsOk(s.owner.control, HandsOf(s))
    && LoopInv(s.owner)
    && AckInv(s)
    && CheckInv(s.owner)
    && (s.owner.running ==> Conserved(s.owner, config.policy.lead) && Outstanding(s.owner.control, HandsOf(s)))
  }

  lemma InitialInvariant(s: System, stored: State, now: Time, config: Config)
    requires Initial(s, stored, now, config)
    ensures Invariant(s, config)
  {
    StartedLoopInv(stored, now, config);
    ShapedAppend(PollStages(config.accounts));
    assert s.owner.todo == PollStages(config.accounts) + DURABLE;
    assert forall i | 0 <= i < |s.owner.todo| :: !s.owner.todo[i].DispatchStage?;
  }

  lemma InvariantStep(s: System, a: Action, config: Config)
    requires Invariant(s, config) && Enabled(s, a, config)
    ensures Invariant(After(s, a, config), config)
  {
    SlotStep(s, a, config);
    LoopStep(s, a, config);
    AckStep(s, a, config);
    if After(s, a, config).owner.running {
      StillRunning(s, a, config);
      OutstandingStep(s, a, config);
    }
    if HandsOver(a) {
      ReceivedCounts(s.owner, HandedEvent(s, a).value, SaveOf(a), config);
    } else if a.OwnerAdvances? {
      AdvancedCounts(s.owner, config);
      AdvancedConserves(s.owner, config);
    } else {
      TakingIssuesNothing(s, a);
    }
  }

  lemma StillRunning(s: System, a: Action, config: Config)
    requires Enabled(s, a, config) && After(s, a, config).owner.running
    ensures s.owner.running
  {
    if !HandsOver(a) && !a.OwnerAdvances? {
      TakingIssuesNothing(s, a);
    }
  }

  // Every state of every execution, whatever the interleaving.
  lemma {:induction false} ExecutionInvariant(states: seq<System>, actions: seq<Action>, stored: State, now: Time,
                                              config: Config, i: nat)
    requires IsExecution(states, actions, stored, now, config) && i <= |actions|
    ensures Invariant(states[i], config)
  {
    if i == 0 {
      InitialInvariant(states[0], stored, now, config);
    } else {
      ExecutionInvariant(states, actions, stored, now, config, i - 1);
      assert ActsAt(states, actions, config, i - 1);
      InvariantStep(states[i - 1], actions[i - 1], config);
    }
  }

  function One(b: bool): nat {
    if b then 1 else 0
  }

  // Each worker, and each account's poller, has at most one command between its
  // slot and its hands, and none while its flag is clear; while the owner runs it
  // has exactly one when the flag is set. No dispatch can find a full slot and no
  // poll can block.
  lemma SlotDiscipline(states: seq<System>, actions: seq<Action>, stored: State, now: Time, config: Config, i: nat,
                       account: Account, e: Effect)
    requires IsExecution(states, actions, stored, now, config) && i <= |actions|
    ensures var (s, c) := (states[i], states[i].owner.control);
            var (activity, launch, notice, poll) := (
              One(c.activitySlot) + One(s.activity),
              One(c.launchSlot.Some?) + One(s.launcher.Some?),
              One(c.notifierSlot.Some?) + One(Busy(s.transport)),
              One(account.name in c.pollSlots) + One(account.name in s.polls));
            && activity <= One(c.activityBusy) && launch <= One(c.launcherBusy)
            && notice <= One(c.notifierBusy) && poll <= One(account.name in c.pollBusy)
            && (s.owner.running ==>
                  && activity == One(c.activityBusy) && launch == One(c.launcherBusy)
                  && notice == One(c.notifierBusy) && poll == One(account.name in c.pollBusy))
            && Dispatched(c, e).Ok?
            && PollScheduled(c, account, states[i].owner.now, config).Ok?
  {
    ExecutionInvariant(states, actions, stored, now, config, i);
    DispatchNeverFull(states[i].owner.control, HandsOf(states[i]), e);
    PollNeverBlocks(states[i].owner.control, HandsOf(states[i]), account, states[i].owner.now, config);
  }

  // A busy worker is never stuck: between events it can take its command or hand
  // over its result, or its transport can take the acknowledgement it waits for.
  ghost predicate CanMove(s: System, config: Config, save: SaveResult, outcome: CommandOutcome, answer: PollAnswer) {
    var (c, at) := (s.owner.control, s.owner.now);
    && (c.notifierBusy ==>
          || Enabled(s, CommandTaken(outcome), config) || Enabled(s, NoticeArrives(at, save), config)
          || Enabled(s, AckTaken, config))
    && (c.launcherBusy ==> Enabled(s, LaunchTaken, config) || Enabled(s, LaunchAnswers(at, false, save), config))
    && (c.activityBusy ==>
          Enabled(s, ActivityTaken, config) || Enabled(s, ActivityAnswers(at, true, false, false, save), config))
    && (forall a | a in c.pollBusy ::
          Enabled(s, PollTaken(a), config) || Enabled(s, PollAnswers(a, at, answer, save), config))
  }

  lemma BusyWorkersMove(states: seq<System>, actions: seq<Action>, stored: State, now: Time, config: Config, i: nat,
                        save: SaveResult, outcome: CommandOutcome, answer: PollAnswer)
    requires IsExecution(states, actions, stored, now, config) && i <= |actions|
    requires states[i].owner.running && states[i].owner.todo == []
    ensures CanMove(states[i], config, save, outcome, answer)
  {
    ExecutionInvariant(states, actions, stored, now, config, i);
    InvariantMoves(states[i], config, save, outcome, answer);
  }

  lemma InvariantMoves(s: System, config: Config, save: SaveResult, outcome: CommandOutcome, answer: PollAnswer)
    requires SlotsOk(s.owner.control, HandsOf(s)) && Outstanding(s.owner.control, HandsOf(s)) && AckInv(s)
    requires s.owner.running && s.owner.todo == []
    ensures CanMove(s, config, save, outcome, answer)
  {
    forall a | a in s.owner.control.pollBusy
      ensures Enabled(s, PollTaken(a), config) || Enabled(s, PollAnswers(a, s.owner.now, answer, save), config)
    {
      assert a in s.owner.control.pollSlots || a in HandsOf(s).polls;
    }
  }

  // Between events, work that was ready at the last event's time has a busy
  // worker, and due meetings are being checked or were checked in this generation.
  lemma WorkIsConserved(states: seq<System>, actions: seq<Action>, stored: State, now: Time, config: Config, i: nat)
    requires IsExecution(states, actions, stored, now, config) && i <= |actions|
    requires states[i].owner.running && states[i].owner.todo == []
    ensures var o := states[i].owner;
            && ((exists k | k in o.state.occurrences ::
                   NotificationReady(o.state.occurrences[k], o.now, config.policy.lead))
                  ==> o.control.notifierBusy)
            && ((exists k | k in o.state.occurrences :: o.state.occurrences[k].phase == JoinPending) ==>
                  o.control.launcherBusy)
            && ((exists a | a in o.state.pendingAuthWarnings :: o.state.pendingAuthWarnings[a].notBefore <= o.now)
                  ==> o.control.notifierBusy)
            && (AnyDue(o.state.occurrences, o.now, config.policy.lead) ==>
                  o.control.activityBusy || o.control.checked == o.control.generation)
  {
    ExecutionInvariant(states, actions, stored, now, config, i);
    var o := states[i].owner;
    SelectionIsLeastReady(o.state.occurrences, o.now, config.policy.lead);
    forall k | k in o.state.occurrences && o.state.occurrences[k].phase == JoinPending
      ensures o.control.launcherBusy
    {
      assert RankOf(o.state.occurrences, k) in ReadyLaunches(o.state.occurrences);
    }
    forall a | a in o.state.pendingAuthWarnings && o.state.pendingAuthWarnings[a].notBefore <= o.now
      ensures o.control.notifierBusy
    {
      assert Order.Rank(o.state.pendingAuthWarnings[a].createdAt, a)
               in ReadyWarnings(o.state.pendingAuthWarnings, o.now);
    }
  }

  // Over any execution there are at most as many activity checks as generations.
  lemma ChecksAreBounded(states: seq<System>, actions: seq<Action>, stored: State, now: Time, config: Config, i: nat)
    requires IsExecution(states, actions, stored, now, config) && i <= |actions|
    ensures ChecksIssued(states[i].owner.control.issued) <= states[i].owner.control.generation
  {
    ExecutionInvariant(states, actions, stored, now, config, i);
  }

  // The owner never stops because a slot is full or a poll send blocks: what
  // stops it is a rejected event, a stale delivery or a failed save.
  lemma StagesNeverStopTheOwner(states: seq<System>, actions: seq<Action>, stored: State, now: Time, config: Config,
                                i: nat)
    requires IsExecution(states, actions, stored, now, config) && i < |actions|
    requires states[i].owner.running && !states[i + 1].owner.running
    ensures HandsOver(actions[i]) && HandedEvent(states[i], actions[i]).Some?
    ensures var e := HandedEvent(states[i], actions[i]).value;
            !CommitOf(states[i].owner, e, SaveOf(actions[i]), config.policy).Committed?
  {
    ExecutionInvariant(states, actions, stored, now, config, i);
    assert ActsAt(states, actions, config, i);
    WhatStopsTheOwner(states[i], actions[i], config);
  }

  lemma WhatStopsTheOwner(s: System, a: Action, config: Config)
    requires SlotsOk(s.owner.control, HandsOf(s)) && Enabled(s, a, config)
    requires s.owner.running && !After(s, a, config).owner.running
    ensures HandsOver(a) && !CommitOf(s.owner, HandedEvent(s, a).value, SaveOf(a), config.policy).Committed?
  {
    if a.OwnerAdvances? {
      StageNeverFails(s.owner.control, HandsOf(s), s.owner.todo[0], s.owner.state, s.owner.now, config);
    } else if !HandsOver(a) {
      TakingIssuesNothing(s, a);
    }
  }

  // Memory, disk and published index agree in every running state, each step
  // writes ahead, and the disk always holds a state a restart accepts.
  lemma ExecutionWritesAhead(states: seq<System>, actions: seq<Action>, stored: State, now: Time, config: Config,
                             i: nat, later: Time)
    requires IsExecution(states, actions, stored, now, config) && i < |actions|
    ensures WrittenAhead(states[i].owner, states[i + 1].owner)
    ensures states[i].owner.running ==>
              && states[i].owner.state == states[i].owner.disk
              && IsIndexOf(states[i].owner.published, states[i].owner.state.occurrences)
    ensures Started(states[i].owner.disk, later, config).Ok?
  {
    ExecutionInvariant(states, actions, stored, now, config, i);
    assert ActsAt(states, actions, config, i);
    var s := states[i];
    CommandsAreWrittenAhead(s, actions[i], config);
    NormalizedIdempotent(s.owner.disk);
    StartupIsSettled(s.owner.disk, later);
  }

  // A delivery handed over and not rejected by the reducer.
  ghost predicate Answerable(s: System, a: Action, config: Config) {
    && a.NoticeArrives? && s.transport.Holding? && s.transport.notice.Delivered?
    && !CommitOf(s.owner, HandedEvent(s, a).value, SaveOf(a), config.policy).Rejected?
  }

  ghost function AnswerableBefore(states: seq<System>, actions: seq<Action>, config: Config, i: nat): nat
    requires i <= |actions| < |states|
  {
    if i == 0 then 0
    else AnswerableBefore(states, actions, config, i - 1) + One(Answerable(states[i - 1], actions[i - 1], config))
  }

  lemma ExecutionAckInv(states: seq<System>, actions: seq<Action>, stored: State, now: Time, config: Config, i: nat)
    requires IsExecution(states, actions, stored, now, config) && i <= |actions|
    ensures AckInv(states[i])
    ensures i == 0 ==> states[i].acks == []
    ensures i < |actions| ==>
              Enabled(states[i], actions[i], config) && states[i + 1] == After(states[i], actions[i], config)
  {
    ExecutionInvariant(states, actions, stored, now, config, i);
    assert i < |actions| ==> ActsAt(states, actions, config, i);
  }

  lemma AcksGrowAt(states: seq<System>, actions: seq<Action>, stored: State, now: Time, config: Config, i: nat)
    requires IsExecution(states, actions, stored, now, config) && i < |actions|
    ensures |states[i + 1].acks| == |states[i].acks| + One(Answerable(states[i], actions[i], config))
  {
    ExecutionAckInv(states, actions, stored, now, config, i);
    AcksGrow(states[i], actions[i], config);
  }

  lemma {:induction false} AcksCounted(states: seq<System>, actions: seq<Action>, stored: State, now: Time,
                                       config: Config, i: nat)
    requires IsExecution(states, actions, stored, now, config) && i <= |actions|
    ensures |states[i].acks| == AnswerableBefore(states, actions, config, i)
  {
    if i == 0 {
      ExecutionAckInv(states, actions, stored, now, config, 0);
    } else {
      AcksCounted(states, actions, stored, now, config, i - 1);
      AcksGrowAt(states, actions, stored, now, config, i - 1);
    }
  }

  // Over any execution every answerable delivery has had exactly one
  // acknowledgement, at most one of them negative; the transport closes that
  // delivery's id and no other, and only when the loop has stopped.
  lemma HandshakeOverRuns(states: seq<System>, actions: seq<Action>, stored: State, now: Time, config: Config, i: nat)
    requires IsExecution(states, actions, stored, now, config) && i <= |actions|
    ensures |states[i].acks| == AnswerableBefore(states, actions, config, i)
    ensures |RefusedIds(states[i].acks)| <= 1
    ensures states[i].compensated == [] || states[i].compensated == RefusedIds(states[i].acks)
    ensures RefusedIds(states[i].acks) != [] ==> !states[i].owner.running
  {
    AcksCounted(states, actions, stored, now, config, i);
    ExecutionAckInv(states, actions, stored, now, config, i);
  }

  lemma AcksGrowWith(s: System, a: Action, n: Notification, at: Time, commit: Commit, config: Config)
    requires AckInv(s) && a.NoticeArrives? && s.owner.running && s.transport == Holding(n)
    ensures |HandedWith(s, a, Event(at, Notice(n)), commit, config).acks|
         == |s.acks| + One(n.Delivered? && !commit.Rejected?)
  {
    AckedDelivery(s, a, n, at, commit, config);
  }

  lemma AcksGrow(s: System, a: Action, config: Config)
    requires AckInv(s) && Enabled(s, a, config)
    ensures |After(s, a, config).acks| == |s.acks| + One(Answerable(s, a, config))
  {
    if a.NoticeArrives? {
      var e := HandedEvent(s, a).value;
      AcksGrowWith(s, a, s.transport.notice, e.at, CommitOf(s.owner, e, SaveOf(a), config.policy), config);
    } else {
      NoOtherAck(s, a, config);
    }
  }
}

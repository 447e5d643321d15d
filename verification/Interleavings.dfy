// What every interleaving of owner, workers and transport keeps.
module Interleavings {
  import opened Wrappers
  import opened Meetings
  import opened Storage
  import opened Events
  import opened Retry
  import opened Expiry
  import opened Reconcile
  import opened ReducerNotifications
  import opened PollHealth
  import opened Scheduler
  import opened Reducer
  import opened Pointwise
  import opened Closure
  import opened Finality
  import opened Control
  import opened Owner
  import opened System

  // ---- slots --------------------------------------------------------------

  // The transport works on a command (a signal in hand is not one).
  predicate Busy(t: Transport) {
    t.Holding? && !t.notice.SignalReceived?
  }

  // What the workers hold.
  datatype Hands = Hands(polls: map<Label, PollCommand>, activity: bool, launcher: Option<Effect>, transport: Transport)

  function HandsOf(s: System): Hands {
    Hands(s.polls, s.activity, s.launcher, s.transport)
  }

  // A free flag means an empty slot and an idle worker; a slot and its worker
  // never hold a command at the same time.
  ghost predicate SlotsOk(c: Control, h: Hands) {
    && (!c.activityBusy ==> !c.activitySlot && !h.activity)
    && !(c.activitySlot && h.activity)
    && (!c.launcherBusy ==> c.launchSlot.None? && h.launcher.None?)
    && !(c.launchSlot.Some? && h.launcher.Some?)
    && (!c.notifierBusy ==> c.notifierSlot.None? && !Busy(h.transport))
    && !(c.notifierSlot.Some? && Busy(h.transport))
    && (forall a :: a !in c.pollBusy ==> a !in c.pollSlots && a !in h.polls)
    && (forall a :: !(a in c.pollSlots && a in h.polls))
    && (c.launchSlot.Some? ==> c.launchSlot.value.LaunchEffect?)
    && (h.launcher.Some? ==> h.launcher.value.LaunchEffect?)
  }

  // Under it no dispatch ever finds a full slot, whatever the effect.
  lemma DispatchNeverFull(c: Control, h: Hands, e: Effect)
    requires SlotsOk(c, h)
    ensures Dispatched(c, e).Ok? && SlotsOk(Dispatched(c, e).value, h)
  {
  }

  lemma PollNeverBlocks(c: Control, h: Hands, account: Account, now: Time, config: Config)
    requires SlotsOk(c, h)
    ensures PollScheduled(c, account, now, config).Ok? && SlotsOk(PollScheduled(c, account, now, config).value, h)
  {
  }

  lemma StageNeverFails(c: Control, h: Hands, stage: Stage, s: State, now: Time, config: Config)
    requires SlotsOk(c, h)
    ensures StageRun(c, stage, s, now, config).Ok? && SlotsOk(StageRun(c, stage, s, now, config).value, h)
  {
    match stage {
      case DispatchStage(e) => DispatchNeverFull(c, h, e);
      case PollStage(account) => PollNeverBlocks(c, h, account, now, config);
      case BumpStage =>
      case ActivityStage => DispatchNeverFull(c, h, ActivityEffect);
      case NotificationStage =>
        var e := OldestNotification(s.occurrences, now, config.policy.lead);
        if e.Some? {
          DispatchNeverFull(c, h, e.value);
        }
      case LaunchStage =>
        var e := OldestLaunch(s.occurrences);
        if e.Some? {
          DispatchNeverFull(c, h, e.value);
        }
      case WarningStage =>
        var e := OldestWarning(s.pendingAuthWarnings, now);
        if e.Some? {
          DispatchNeverFull(c, h, e.value);
        }
    }
  }

  // The worker that hands over its result is the one whose flag is cleared.

  lemma PollFreed(c: Control, h: Hands, account: Label, retries: map<Label, Retry>, generation: nat)
    requires SlotsOk(c, h) && account in h.polls
    ensures SlotsOk(c, h.(polls := h.polls - {account}))
    ensures SlotsOk(c.(pollBusy := c.pollBusy - {account}, retries := retries, generation := generation),
                    h.(polls := h.polls - {account}))
  {
  }

  lemma ActivityFreed(c: Control, h: Hands)
    requires SlotsOk(c, h) && h.activity
    ensures SlotsOk(c, h.(activity := false))
    ensures SlotsOk(c.(activityBusy := false), h.(activity := false))
  {
  }

  lemma LauncherFreed(c: Control, h: Hands)
    requires SlotsOk(c, h) && h.launcher.Some?
    ensures SlotsOk(c, h.(launcher := None))
    ensures SlotsOk(c.(launcherBusy := false), h.(launcher := None))
  {
  }

  lemma TransportFreed(c: Control, h: Hands, t: Transport)
    requires SlotsOk(c, h) && h.transport.Holding? && !Busy(t)
    ensures SlotsOk(c, h.(transport := t))
    ensures Busy(h.transport) ==> SlotsOk(c.(notifierBusy := false), h.(transport := t))
  {
  }

  lemma PollReportFrees(c: Control, h: Hands, e: Event, config: Config)
    requires SlotsOk(c, h) && e.payload.PollDone? && e.payload.poll.account in h.polls
    ensures SlotsOk(AfterReport(c, e, config), h.(polls := h.polls - {e.payload.poll.account}))
  {
    var reported := AfterReport(c, e, config);
    assert reported == c.(pollBusy := c.pollBusy - {e.payload.poll.account}, retries := reported.retries,
                          generation := reported.generation);
    PollFreed(c, h, e.payload.poll.account, reported.retries, reported.generation);
  }

  lemma ReportFreesItsWorker(s: System, a: Action, config: Config)
    requires SlotsOk(s.owner.control, HandsOf(s)) && HandsOver(a) && HandedEvent(s, a).Some?
    ensures SlotsOk(AfterReport(s.owner.control, HandedEvent(s, a).value, config), HandsOf(HandedOver(s, a)))
    ensures SlotsOk(s.owner.control, HandsOf(HandedOver(s, a)))
  {
    var c, h, e := s.owner.control, HandsOf(s), HandedEvent(s, a).value;
    match a {
      case PollAnswers(account, _, _, _) =>
        PollFreed(c, h, account, c.retries, c.generation);
        PollReportFrees(c, h, e, config);
      case ActivityAnswers(_, _, _, _, _) =>
        assert AfterReport(c, e, config) == c.(activityBusy := false);
        ActivityFreed(c, h);
      case LaunchAnswers(_, _, _) =>
        assert AfterReport(c, e, config) == c.(launcherBusy := false);
        LauncherFreed(c, h);
      case NoticeArrives(_, _) =>
        TransportFreed(c, h, HandedOver(s, a).transport);
      case TickArrives(_, _) =>
        assert HandsOf(HandedOver(s, a)) == h;
    }
  }

  lemma HandedControl(s: System, a: Action, e: Event, config: Config)
    ensures var next := Handed(s, a, e, config);
            && HandsOf(next) == HandsOf(HandedOver(s, a))
            && (next.owner.control == s.owner.control || next.owner.control == AfterReport(s.owner.control, e, config))
  {
  }

  lemma PollTakenKeepsSlots(c: Control, h: Hands, account: Label)
    requires SlotsOk(c, h) && account in c.pollSlots
    ensures SlotsOk(c.(pollSlots := c.pollSlots - {account}), h.(polls := h.polls[account := c.pollSlots[account]]))
  {
  }

  lemma ActivityTakenKeepsSlots(c: Control, h: Hands)
    requires SlotsOk(c, h) && c.activitySlot
    ensures SlotsOk(c.(activitySlot := false), h.(activity := true))
  {
  }

  lemma LaunchTakenKeepsSlots(c: Control, h: Hands)
    requires SlotsOk(c, h) && c.launchSlot.Some?
    ensures SlotsOk(c.(launchSlot := None), h.(launcher := c.launchSlot))
  {
  }

  lemma CommandTakenKeepsSlots(c: Control, h: Hands, n: Notification)
    requires SlotsOk(c, h) && c.notifierSlot.Some?
    ensures SlotsOk(c.(notifierSlot := None), h.(transport := Holding(n)))
  {
  }

  lemma TransportTurnsKeepSlots(c: Control, h: Hands, t: Transport)
    requires SlotsOk(c, h) && !Busy(t)
    ensures SlotsOk(c, h.(transport := t))
  {
  }

  lemma TakenKeepsSlots(s: System, a: Action)
    requires SlotsOk(s.owner.control, HandsOf(s)) && CanTake(s, a)
    ensures SlotsOk(Taken(s, a).owner.control, HandsOf(Taken(s, a)))
  {
    var c, h := s.owner.control, HandsOf(s);
    match a {
      case PollTaken(account) => PollTakenKeepsSlots(c, h, account);
      case ActivityTaken => ActivityTakenKeepsSlots(c, h);
      case LaunchTaken => LaunchTakenKeepsSlots(c, h);
      case CommandTaken(outcome) => CommandTakenKeepsSlots(c, h, Report(c.notifierSlot.value, outcome));
      case SignalArrives(signal) => TransportTurnsKeepSlots(c, h, Holding(SignalReceived(signal)));
      case AckTaken => TransportTurnsKeepSlots(c, h, Taken(s, a).transport);
    }
  }

  // Slot discipline is kept by every action of every participant.
  lemma SlotStep(s: System, a: Action, config: Config)
    requires SlotsOk(s.owner.control, HandsOf(s)) && Enabled(s, a, config)
    ensures SlotsOk(After(s, a, config).owner.control, HandsOf(After(s, a, config)))
  {
    if HandsOver(a) {
      ReportFreesItsWorker(s, a, config);
      HandedControl(s, a, HandedEvent(s, a).value, config);
    } else if a.OwnerAdvances? {
      StageNeverFails(s.owner.control, HandsOf(s), s.owner.todo[0], s.owner.state, s.owner.now, config);
    } else {
      TakenKeepsSlots(s, a);
    }
  }

  // ---- a set flag means outstanding work ----------------------------------------

  // A set flag stands for a command in the slot or in the worker's hands.
  ghost predicate Outstanding(c: Control, h: Hands) {
    && (c.activityBusy ==> c.activitySlot || h.activity)
    && (c.launcherBusy ==> c.launchSlot.Some? || h.launcher.Some?)
    && (c.notifierBusy ==> c.notifierSlot.Some? || Busy(h.transport))
    && (forall a | a in c.pollBusy :: a in c.pollSlots || a in h.polls)
  }

  lemma DispatchLeavesWork(c: Control, h: Hands, e: Effect)
    requires Outstanding(c, h) && Dispatched(c, e).Ok?
    ensures Outstanding(Dispatched(c, e).value, h)
  {
  }

  lemma StageLeavesWork(c: Control, h: Hands, stage: Stage, s: State, now: Time, config: Config)
    requires Outstanding(c, h) && StageRun(c, stage, s, now, config).Ok?
    ensures Outstanding(StageRun(c, stage, s, now, config).value, h)
  {
    match stage {
      case DispatchStage(e) => DispatchLeavesWork(c, h, e);
      case PollStage(account) =>
      case BumpStage =>
      case ActivityStage =>
        if WantsActivity(c, s, now, config.policy.lead) {
          DispatchLeavesWork(c, h, ActivityEffect);
        }
      case NotificationStage =>
        var e := OldestNotification(s.occurrences, now, config.policy.lead);
        if e.Some? {
          DispatchLeavesWork(c, h, e.value);
        }
      case LaunchStage =>
        var e := OldestLaunch(s.occurrences);
        if e.Some? {
          DispatchLeavesWork(c, h, e.value);
        }
      case WarningStage =>
        var e := OldestWarning(s.pendingAuthWarnings, now);
        if e.Some? && !c.notifierBusy {
          DispatchLeavesWork(c, h, e.value);
        }
    }
  }

  // Reporting clears the flag of the worker that has nothing left.
  lemma ReportLeavesWork(s: System, a: Action, config: Config)
    requires Outstanding(s.owner.control, HandsOf(s)) && HandsOver(a) && HandedEvent(s, a).Some?
    ensures Outstanding(AfterReport(s.owner.control, HandedEvent(s, a).value, config), HandsOf(HandedOver(s, a)))
  {
    var c, e := s.owner.control, HandedEvent(s, a).value;
    match a {
      case PollAnswers(account, _, _, _) =>
        var reported := AfterReport(c, e, config);
        assert reported == c.(pollBusy := c.pollBusy - {account}, retries := reported.retries,
                              generation := reported.generation);
      case ActivityAnswers(_, _, _, _, _) => assert AfterReport(c, e, config) == c.(activityBusy := false);
      case LaunchAnswers(_, _, _) => assert AfterReport(c, e, config) == c.(launcherBusy := false);
      case NoticeArrives(_, _) =>
      case TickArrives(_, _) => assert HandsOf(HandedOver(s, a)) == HandsOf(s);
    }
  }

  lemma TakenLeavesWork(s: System, a: Action)
    requires Outstanding(s.owner.control, HandsOf(s)) && CanTake(s, a)
    ensures Outstanding(Taken(s, a).owner.control, HandsOf(Taken(s, a)))
  {
    match a {
      case PollTaken(_) =>
      case ActivityTaken =>
      case LaunchTaken =>
      case CommandTaken(_) =>
      case SignalArrives(_) =>
      case AckTaken =>
    }
  }

  // While the owner runs no flag is set without a command somewhere.
  lemma OutstandingStep(s: System, a: Action, config: Config)
    requires Outstanding(s.owner.control, HandsOf(s)) && Enabled(s, a, config)
    requires After(s, a, config).owner.running
    ensures Outstanding(After(s, a, config).owner.control, HandsOf(After(s, a, config)))
  {
    if HandsOver(a) {
      ReportLeavesWork(s, a, config);
      RunningControl(s, a, HandedEvent(s, a).value, config);
    } else if a.OwnerAdvances? {
      StageLeavesWork(s.owner.control, HandsOf(s), s.owner.todo[0], s.owner.state, s.owner.now, config);
    } else {
      TakenLeavesWork(s, a);
    }
  }

  lemma RunningControl(s: System, a: Action, e: Event, config: Config)
    requires Handed(s, a, e, config).owner.running
    ensures HandsOf(Handed(s, a, e, config)) == HandsOf(HandedOver(s, a))
    ensures Handed(s, a, e, config).owner.control == AfterReport(s.owner.control, e, config)
  {
  }
}

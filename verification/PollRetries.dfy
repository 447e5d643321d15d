// When accounts are polled: what a failed poll makes its account wait, and that an
// account that need not wait is polled on the next tick.
module PollRetries {
  import opened Wrappers
  import opened Meetings
  import opened Storage
  import opened Events
  import opened Retry
  import opened Reducer
  import opened Control
  import opened Owner
  import opened System
  import opened Interleavings
  import opened WriteAhead
  import opened Handshake
  import opened Conservation
  import opened Executions
  import opened NoticeOutcomes

  // ---- failures in a row ------------------------------------------------------------

  // Step i hands over a result of the account's poll, and the owner accepts it.
  ghost predicate PollAccepted(states: seq<System>, actions: seq<Action>, a: Label, i: nat)
    requires i < |actions| < |states|
  {
    actions[i].PollAnswers? && actions[i].account == a && states[i + 1].owner.running
  }

  // How many polls of the account have failed since the last one that succeeded, and
  // when the last of them did.
  datatype Streak = Streak(failures: nat, last: Time)

  ghost function StreakOf(states: seq<System>, actions: seq<Action>, a: Label, i: nat): Streak
    requires i <= |actions| < |states|
  {
    if i == 0 then Streak(0, 0)
    else
      var before := StreakOf(states, actions, a, i - 1);
      if !PollAccepted(states, actions, a, i - 1) then before
      else if actions[i - 1].answer.error.None? then Streak(0, 0)
      else Streak(before.failures + 1, actions[i - 1].at)
  }

  function Wait(failures: nat): nat {
    WaitMinutes(failures) * 60 * 1_000_000_000
  }

  // The account's retry tells its streak: none after a success, and after the n-th
  // failure in a row a wait of 1, 2, 4, 8 or 15 minutes and up to a quarter more.
  predicate Tells(retries: map<Label, Retry>, a: Label, streak: Streak) {
    if streak.failures == 0 then a !in retries
    else
      && a in retries && retries[a].attempt == streak.failures
      && streak.last + Wait(streak.failures) <= retries[a].nextAttempt
           <= streak.last + Wait(streak.failures) + Wait(streak.failures) / 4
  }

  lemma ReportTells(c: Control, e: Event, config: Config, a: Label, streak: Streak)
    requires Tells(c.retries, a, streak)
    ensures Tells(AfterReport(c, e, config).retries, a,
                  if !e.payload.PollDone? || e.payload.poll.account != a then streak
                  else if e.payload.poll.error.None? then Streak(0, 0)
                  else Streak(streak.failures + 1, e.at))
  {
    match e.payload {
      case Tick =>
      case PollDone(poll) =>
        if poll.account == a && poll.error.Some? {
          FailureTells(c.retries, e.at, config.jitter, a, streak);
        }
      case ActivityDone(_, _, _) =>
      case LaunchDone(_, _, _, _) =>
      case Notice(_) =>
      case Malformed =>
    }
  }

  lemma FailureTells(retries: map<Label, Retry>, at: Time, jitter: nat -> int, a: Label, streak: Streak)
    requires Tells(retries, a, streak)
    ensures var attempt := (if a in retries then retries[a].attempt else 0) + 1;
            Tells(retries[a := NextRetry(at, attempt, jitter)], a, Streak(streak.failures + 1, at))
  {
    DelayInMinutes(streak.failures + 1);
    BackoffWindow(at, streak.failures + 1, jitter);
  }

  lemma StageKeepsRetries(c: Control, stage: Stage, s: State, now: Time, config: Config)
    requires StageRun(c, stage, s, now, config).Ok?
    ensures StageRun(c, stage, s, now, config).value.retries == c.retries
  {
    match stage {
      case DispatchStage(_) =>
      case PollStage(_) =>
      case BumpStage =>
      case ActivityStage =>
      case NotificationStage =>
      case LaunchStage =>
      case WarningStage =>
    }
  }

  lemma TakingKeepsRetries(s: System, a: Action)
    requires CanTake(s, a)
    ensures Taken(s, a).owner.control.retries == s.owner.control.retries
    ensures Taken(s, a).owner.control.pollBusy == s.owner.control.pollBusy
    ensures Taken(s, a).owner == s.owner.(control := Taken(s, a).owner.control)
  {
    match a {
      case PollTaken(_) =>
      case ActivityTaken =>
      case LaunchTaken =>
      case CommandTaken(_) =>
      case SignalArrives(_) =>
      case AckTaken =>
    }
  }

  lemma RetryStep(s: System, act: Action, config: Config, a: Label, streak: Streak)
    requires Enabled(s, act, config) && Tells(s.owner.control.retries, a, streak)
    ensures var next := After(s, act, config);
            Tells(next.owner.control.retries, a,
                  if !(act.PollAnswers? && act.account == a && next.owner.running) then streak
                  else if act.answer.error.None? then Streak(0, 0)
                  else Streak(streak.failures + 1, act.at))
  {
    if HandsOver(act) {
      var e := HandedEvent(s, act).value;
      ReportTells(s.owner.control, e, config, a, streak);
      HandedRetries(s, act, e, config);
    } else if act.OwnerAdvances? {
      if After(s, act, config).owner.running {
        StageKeepsRetries(s.owner.control, s.owner.todo[0], s.owner.state, s.owner.now, config);
      }
    } else {
      TakingKeepsRetries(s, act);
    }
  }

  lemma HandedRetries(s: System, act: Action, e: Event, config: Config)
    requires s.owner.running
    ensures var next := Handed(s, act, e, config).owner;
            next.control == if next.running then AfterReport(s.owner.control, e, config) else s.owner.control
  {
  }

  lemma {:induction false} RetriesTell(states: seq<System>, actions: seq<Action>, stored: State, now: Time,
                                       config: Config, a: Label, i: nat)
    requires IsExecution(states, actions, stored, now, config) && i <= |actions|
    ensures Tells(states[i].owner.control.retries, a, StreakOf(states, actions, a, i))
  {
    if i > 0 {
      RetriesTell(states, actions, stored, now, config, a, i - 1);
      assert ActsAt(states, actions, config, i - 1);
      RetryStep(states[i - 1], actions[i - 1], config, a, StreakOf(states, actions, a, i - 1));
    }
  }

  // ---- no poll before its time ---------------------------------------------------------

  // Step j puts a poll command of the account into its slot.
  predicate PollsAt(states: seq<System>, a: Label, j: nat)
    requires j + 1 < |states|
  {
    a !in states[j].owner.control.pollSlots && a in states[j + 1].owner.control.pollSlots
  }

  // The command asks for the window from the owner's time on, for an account that is
  // configured, and is given only when the account's retry allows it.
  lemma PolledNow(s: System, act: Action, config: Config, a: Label)
    requires Enabled(s, act, config)
    requires a !in s.owner.control.pollSlots && a in After(s, act, config).owner.control.pollSlots
    ensures act.OwnerAdvances? && s.owner.todo[0].PollStage? && s.owner.todo[0].account.name == a
    ensures After(s, act, config).owner.control.pollSlots[a]
         == PollCommand(a, s.owner.todo[0].account.generation, s.owner.now, s.owner.now + config.horizon)
    ensures a in s.owner.control.retries ==> s.owner.control.retries[a].nextAttempt <= s.owner.now
  {
    if HandsOver(act) {
      HandedKeepsSlots(s, act, config);
    } else if act.OwnerAdvances? {
      StageFillsSlot(s.owner.control, s.owner.todo[0], s.owner.state, s.owner.now, config, a);
    }
  }

  lemma HandedKeepsSlots(s: System, act: Action, config: Config)
    requires HandsOver(act) && Enabled(s, act, config)
    ensures After(s, act, config).owner.control.pollSlots == s.owner.control.pollSlots
  {
    HandedRetries(s, act, HandedEvent(s, act).value, config);
    ReportKeepsSlots(s.owner.control, HandedEvent(s, act).value, config);
  }

  lemma ReportKeepsSlots(c: Control, e: Event, config: Config)
    ensures AfterReport(c, e, config).pollSlots == c.pollSlots
  {
    match e.payload {
      case Tick =>
      case PollDone(_) =>
      case ActivityDone(_, _, _) =>
      case LaunchDone(_, _, _, _) =>
      case Notice(_) =>
      case Malformed =>
    }
  }

  lemma StageFillsSlot(c: Control, stage: Stage, s: State, now: Time, config: Config, a: Label)
    requires StageRun(c, stage, s, now, config).Ok? && a !in c.pollSlots
    ensures var d := StageRun(c, stage, s, now, config).value;
            a in d.pollSlots ==>
              && stage.PollStage? && stage.account.name == a
              && d.pollSlots[a] == PollCommand(a, stage.account.generation, now, now + config.horizon)
              && (a in c.retries ==> c.retries[a].nextAttempt <= now)
  {
    match stage {
      case DispatchStage(_) =>
      case PollStage(_) =>
      case BumpStage =>
      case ActivityStage =>
      case NotificationStage =>
      case LaunchStage =>
      case WarningStage =>
    }
  }

  // In every interleaving: while polls of an account fail, no poll of it is started
  // before the wait for that many failures in a row is over.
  lemma PollWaitsItsTurn(states: seq<System>, actions: seq<Action>, stored: State, now: Time, config: Config, a: Label,
                         j: nat)
    requires IsExecution(states, actions, stored, now, config) && j < |actions| && PollsAt(states, a, j)
    ensures var (streak, command) := (StreakOf(states, actions, a, j), states[j + 1].owner.control.pollSlots[a]);
            && command.account == a && command.start == states[j].owner.now
            && command.end == command.start + config.horizon
            && (streak.failures > 0 ==> streak.last + Wait(streak.failures) <= command.start)
  {
    RetriesTell(states, actions, stored, now, config, a, j);
    assert ActsAt(states, actions, config, j);
    PolledNow(states[j], actions[j], config, a);
  }

  lemma {:induction false} ClockGrows(states: seq<System>, actions: seq<Action>, stored: State, now: Time,
                                      config: Config, i: nat, j: nat)
    requires IsTimedExecution(states, actions, stored, now, config) && i <= j <= |actions|
    ensures states[i].owner.now <= states[j].owner.now
    decreases j
  {
    if i < j {
      ClockGrows(states, actions, stored, now, config, i, j - 1);
      ClockStep(states, actions, stored, now, config, j - 1);
    }
  }

  lemma ClockStep(states: seq<System>, actions: seq<Action>, stored: State, now: Time, config: Config, j: nat)
    requires IsTimedExecution(states, actions, stored, now, config) && j < |actions|
    ensures states[j].owner.now <= states[j + 1].owner.now
    ensures HandsOver(actions[j]) && states[j + 1].owner.running ==>
              HandedEvent(states[j], actions[j]).Some?
              && states[j + 1].owner.now == HandedEvent(states[j], actions[j]).value.at
  {
    StepAtExecution(states, actions, stored, now, config, j);
    OwnerStep(states[j], actions[j], config);
  }

  lemma {:induction false} StreakGoesOn(states: seq<System>, actions: seq<Action>, stored: State, now: Time,
                                        config: Config, a: Label, i: nat, j: nat)
    requires IsTimedExecution(states, actions, stored, now, config) && i < j <= |actions|
    requires PollAccepted(states, actions, a, i) && actions[i].answer.error.Some?
    requires forall m | i < m < j && PollAccepted(states, actions, a, m) :: actions[m].answer.error.Some?
    ensures StreakOf(states, actions, a, j).failures > 0 && actions[i].at <= StreakOf(states, actions, a, j).last
    decreases j
  {
    if i < j - 1 {
      StreakGoesOn(states, actions, stored, now, config, a, i, j - 1);
      if PollAccepted(states, actions, a, j - 1) {
        ClockGrows(states, actions, stored, now, config, i + 1, j);
        ClockStep(states, actions, stored, now, config, i);
        ClockStep(states, actions, stored, now, config, j - 1);
      }
    }
  }

  // After a failed poll at some time, with times that do not go backwards, no poll of
  // the account is started for a minute, unless one has succeeded meanwhile.
  lemma FailedPollWaits(states: seq<System>, actions: seq<Action>, stored: State, now: Time, config: Config, a: Label,
                        i: nat, j: nat)
    requires IsTimedExecution(states, actions, stored, now, config) && i < j < |actions|
    requires PollAccepted(states, actions, a, i) && actions[i].answer.error.Some?
    requires forall m | i < m < j && PollAccepted(states, actions, a, m) :: actions[m].answer.error.Some?
    requires PollsAt(states, a, j)
    ensures actions[i].at + 60 * 1_000_000_000 <= states[j + 1].owner.control.pollSlots[a].start
  {
    StreakGoesOn(states, actions, stored, now, config, a, i, j);
    PollWaitsItsTurn(states, actions, stored, now, config, a, j);
  }

  // ---- and a poll when its time has come --------------------------------------------------

  // The owner has still to come to the account's stage, and nothing will stop it.
  ghost predicate StillToPoll(o: Owner, a: Label, at: Time) {
    && o.running && o.now == at && a !in o.control.pollBusy
    && (a in o.control.retries ==> o.control.retries[a].nextAttempt <= at)
    && exists i | 0 <= i < |o.todo| :: IsPollOf(o.todo[i], a)
  }

  predicate IsPollOf(stage: Stage, a: Label) {
    stage.PollStage? && stage.account.name == a
  }

  lemma TickStartsPolls(o: Owner, commit: Commit, e: Event, config: Config, account: Account)
    requires o.running && e.payload.Tick? && commit.Committed?
    requires account in config.accounts && account.name !in o.control.pollBusy
    requires account.name in o.control.retries ==> o.control.retries[account.name].nextAttempt <= e.at
    ensures StillToPoll(Applied(o, commit, e, config), account.name, e.at)
  {
    var next := Applied(o, commit, e, config);
    var k :| 0 <= k < |config.accounts| && config.accounts[k] == account;
    assert next.todo == DispatchStages(commit.effects) + (PollStages(config.accounts) + DURABLE);
    assert next.todo[|commit.effects| + k] == PollStage(account);
    assert IsPollOf(next.todo[|commit.effects| + k], account.name);
  }

  lemma TickStep(s: System, act: Action, config: Config, account: Account)
    requires Enabled(s, act, config) && act.TickArrives? && After(s, act, config).owner.running
    requires account in config.accounts && account.name !in s.owner.control.pollBusy
    requires account.name in s.owner.control.retries ==> s.owner.control.retries[account.name].nextAttempt <= act.at
    ensures StillToPoll(After(s, act, config).owner, account.name, act.at)
  {
    var e := HandedEvent(s, act).value;
    TickStartsPolls(s.owner, CommitOf(s.owner, e, SaveOf(act), config.policy), e, config, account);
  }

  lemma StillStep(s: System, act: Action, config: Config, a: Label, at: Time)
    requires SlotsOk(s.owner.control, HandsOf(s)) && Enabled(s, act, config) && StillToPoll(s.owner, a, at)
    requires config.hasSource
    ensures var next := After(s, act, config);
            || StillToPoll(next.owner, a, at)
            || (&& a !in s.owner.control.pollSlots && a in next.owner.control.pollSlots
                && next.owner.control.pollSlots[a].start == at)
  {
    if act.OwnerAdvances? {
      StageNeverFails(s.owner.control, HandsOf(s), s.owner.todo[0], s.owner.state, s.owner.now, config);
      AdvancedStill(s.owner, config, a, at);
    } else {
      TakingKeepsRetries(s, act);
    }
  }

  lemma AdvancedStill(o: Owner, config: Config, a: Label, at: Time)
    requires StillToPoll(o, a, at) && config.hasSource && a !in o.control.pollSlots
    requires StageRun(o.control, o.todo[0], o.state, o.now, config).Ok?
    ensures || StillToPoll(Advanced(o, config), a, at)
            || (a in Advanced(o, config).control.pollSlots && Advanced(o, config).control.pollSlots[a].start == at)
  {
    var next := Advanced(o, config);
    if !IsPollOf(o.todo[0], a) {
      StageKeepsRetries(o.control, o.todo[0], o.state, o.now, config);
      StageKeepsBusy(o.control, o.todo[0], o.state, o.now, config, a);
      var i :| 0 <= i < |o.todo| && IsPollOf(o.todo[i], a);
      assert next.todo[i - 1] == o.todo[i];
    }
  }

  lemma StageKeepsBusy(c: Control, stage: Stage, s: State, now: Time, config: Config, a: Label)
    requires StageRun(c, stage, s, now, config).Ok? && !IsPollOf(stage, a)
    ensures a in StageRun(c, stage, s, now, config).value.pollBusy <==> a in c.pollBusy
  {
    match stage {
      case DispatchStage(_) =>
      case PollStage(_) =>
      case BumpStage =>
      case ActivityStage =>
      case NotificationStage =>
      case LaunchStage =>
      case WarningStage =>
    }
  }

  // A poll of the account was started between two steps, for that time.
  ghost predicate PolledBetween(states: seq<System>, a: Label, at: Time, i: nat, j: nat)
    requires j < |states|
  {
    exists m: nat | i <= m < j ::
      PollsAt(states, a, m) && states[m + 1].owner.control.pollSlots[a].start == at
  }

  lemma {:induction false} StillOrPolled(states: seq<System>, actions: seq<Action>, stored: State, now: Time,
                                         config: Config, a: Label, at: Time, i: nat, j: nat)
    requires IsExecution(states, actions, stored, now, config) && i <= j <= |actions| && config.hasSource
    requires StillToPoll(states[i].owner, a, at)
    ensures StillToPoll(states[j].owner, a, at) || PolledBetween(states, a, at, i, j)
    decreases j
  {
    if i < j {
      StillOrPolled(states, actions, stored, now, config, a, at, i, j - 1);
      if PolledBetween(states, a, at, i, j - 1) {
        var m: nat :| i <= m < j - 1 && PollsAt(states, a, m)
                      && states[m + 1].owner.control.pollSlots[a].start == at;
        assert PolledBetween(states, a, at, i, j);
      } else {
        StillStepAt(states, actions, stored, now, config, a, at, j - 1);
      }
    }
  }

  lemma StillStepAt(states: seq<System>, actions: seq<Action>, stored: State, now: Time, config: Config, a: Label,
                    at: Time, j: nat)
    requires IsExecution(states, actions, stored, now, config) && j < |actions| && config.hasSource
    requires StillToPoll(states[j].owner, a, at)
    ensures || StillToPoll(states[j + 1].owner, a, at)
            || (PollsAt(states, a, j) && states[j + 1].owner.control.pollSlots[a].start == at)
  {
    ExecutionInvariant(states, actions, stored, now, config, j);
    assert ActsAt(states, actions, config, j);
    StillStep(states[j], actions[j], config, a, at);
  }

  lemma TickStepAt(states: seq<System>, actions: seq<Action>, stored: State, now: Time, config: Config,
                   account: Account, i: nat)
    requires IsExecution(states, actions, stored, now, config) && i < |actions|
    requires actions[i].TickArrives? && states[i + 1].owner.running
    requires account in config.accounts && account.name !in states[i].owner.control.pollBusy
    requires account.name in states[i].owner.control.retries ==>
               states[i].owner.control.retries[account.name].nextAttempt <= actions[i].at
    ensures StillToPoll(states[i + 1].owner, account.name, actions[i].at)
  {
    assert ActsAt(states, actions, config, i);
    TickStep(states[i], actions[i], config, account);
  }

  // When a tick is accepted and an account is idle and need not wait, then by the
  // time the owner has worked the tick off a poll of the account has been started.
  // After a success it need not wait; after n failures in a row it has waited long
  // enough when the longest wait for n is over.
  lemma IdleAccountIsPolled(states: seq<System>, actions: seq<Action>, stored: State, now: Time, config: Config,
                            account: Account, i: nat, j: nat)
    requires IsExecution(states, actions, stored, now, config) && i < j <= |actions|
    requires actions[i].TickArrives? && states[i + 1].owner.running && states[j].owner.todo == []
    requires config.hasSource && account in config.accounts
    requires account.name !in states[i].owner.control.pollBusy
    requires var streak := StreakOf(states, actions, account.name, i);
             streak.failures > 0 ==>
               streak.last + Wait(streak.failures) + Wait(streak.failures) / 4 <= actions[i].at
    ensures PolledBetween(states, account.name, actions[i].at, i + 1, j)
  {
    RetriesTell(states, actions, stored, now, config, account.name, i);
    TickStepAt(states, actions, stored, now, config, account, i);
    StillOrPolled(states, actions, stored, now, config, account.name, actions[i].at, i + 1, j);
  }

  lemma StartStage(s: System, stored: State, now: Time, config: Config, account: Account)
    requires Initial(s, stored, now, config) && account in config.accounts
    ensures StillToPoll(s.owner, account.name, now)
  {
    var k :| 0 <= k < |config.accounts| && config.accounts[k] == account;
    assert s.owner.todo == PollStages(config.accounts) + DURABLE;
    assert s.owner.todo[k] == PollStage(account);
    assert IsPollOf(s.owner.todo[k], account.name);
  }

  // A start polls every account at once.
  lemma StartPollsAll(states: seq<System>, actions: seq<Action>, stored: State, now: Time, config: Config,
                      account: Account, j: nat)
    requires IsExecution(states, actions, stored, now, config) && j <= |actions| && states[j].owner.todo == []
    requires config.hasSource && account in config.accounts
    ensures PolledBetween(states, account.name, now, 0, j)
  {
    StartStage(states[0], stored, now, config, account);
    StillOrPolled(states, actions, stored, now, config, account.name, now, 0, j);
  }
}

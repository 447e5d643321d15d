// The loop and the runtime as the objects the source has: fields updated step
// by step, each method tied to the value-level step it performs
// (daemon/daemon.go, daemon/runtime.go, daemon/runtime_schedule.go).
module Runtime {
  import opened Wrappers
  import opened Meetings
  import opened Storage
  import opened Drafts
  import opened Events
  import opened Retry
  import opened Expiry
  import opened Scheduler
  import opened Reducer
  import opened Control
  import opened Owner

  // Busy flags, counters and one-slot channels. A slot is a field because such
  // a channel is either empty or holds one command.
  class Runtime {
    const config: Config
    var activityBusy: bool
    var notifierBusy: bool
    var launcherBusy: bool
    var pollBusy: set<Label>
    var retries: map<Label, Retry>
    var generation: nat
    var checked: nat
    var pollSlots: map<Label, PollCommand>
    var activitySlot: bool
    var notifierSlot: Option<Command>
    var launchSlot: Option<Effect>
    var issued: seq<Effect>

    function Flags(): (c: Control)
      reads this
    {
      Control(activityBusy, notifierBusy, launcherBusy, pollBusy, retries, generation, checked,
              pollSlots, activitySlot, notifierSlot, launchSlot, issued)
    }

    constructor (config: Config)
      ensures this.config == config && Flags() == IDLE
    {
      this.config := config;
      activityBusy, notifierBusy, launcherBusy := false, false, false;
      pollBusy, retries, generation, checked := {}, map[], 0, 0;
      pollSlots, activitySlot, notifierSlot, launchSlot := map[], false, None, None;
      issued := [];
    }

    // runtime.go, dispatch. A busy worker is left alone; a full slot is an error.
    method Dispatch(effect: Effect) returns (err: Option<RuntimeError>)
      modifies this
      ensures match Dispatched(old(Flags()), effect)
              case Err(e) => err == Some(e)
              case Ok(c) => err == None && Flags() == c
    {
      match effect {
        case ActivityEffect =>
          if activityBusy {
            return None;
          }
          activityBusy := true;
          checked := generation;
          if activitySlot {
            return Some(CommandSlotFull);
          }
          activitySlot := true;
        case LaunchEffect(_, _, _, _) =>
          if launcherBusy {
            return None;
          }
          launcherBusy := true;
          if launchSlot != None {
            return Some(CommandSlotFull);
          }
          launchSlot := Some(effect);
        case _ =>
          if notifierBusy {
            return None;
          }
          notifierBusy := true;
          if notifierSlot != None {
            return Some(CommandSlotFull);
          }
          notifierSlot := Some(CommandOf(effect));
      }
      issued := issued + [effect];
      return None;
    }

    method BeforeEffects(e: Event)
      modifies this
      ensures Flags() == AfterReport(old(Flags()), e, config)
    {
      match e.payload {
        case Tick =>
          generation := generation + 1;
          return;
        case PollDone(poll) =>
          pollBusy := pollBusy - {poll.account};
          retries := RetriesAfter(retries, poll, e.at, config.jitter);
          if poll.error == None {
            generation := generation + 1;
          }
        case ActivityDone(_, _, _) =>
          activityBusy := false;
        case LaunchDone(_, _, _, _) =>
          launcherBusy := false;
        case Notice(n) =>
          if !n.SignalReceived? {
            notifierBusy := false;
          }
        case Malformed =>
      }
    }

    method SchedulePolls(at: Time, ghost s: State) returns (err: Option<RuntimeError>)
      modifies this
      ensures match StagesRun(old(Flags()), PollStages(config.accounts), s, at, config)
              case Err(e) => err == Some(e)
              case Ok(c) => err == None && Flags() == c
    {
      ghost var stages := PollStages(config.accounts);
      if !config.hasSource {
        NoSourceNoPolls(Flags(), stages, s, at, config);
        return None;
      }
      ghost var before := Flags();
      for i := 0 to |config.accounts|
        invariant StagesRun(before, stages, s, at, config) == StagesRun(Flags(), stages[i..], s, at, config)
      {
        var account := config.accounts[i];
        StagesHead(Flags(), stages, i, s, at, config);
        err := SchedulePoll(account, at);
        if err != None {
          return err;
        }
      }
      return None;
    }

    method SchedulePoll(account: Account, at: Time) returns (err: Option<RuntimeError>)
      requires config.hasSource
      modifies this`pollSlots, this`pollBusy
      ensures match PollScheduled(old(Flags()), account, at, config)
              case Err(e) => err == Some(e)
              case Ok(c) => err == None && Flags() == c
    {
      if account.name in pollBusy || (account.name in retries && retries[account.name].nextAttempt > at) {
        return None;
      }
      if account.name in pollSlots {
        return Some(PollBlocked);
      }
      pollSlots := pollSlots[account.name := PollCommand(account.name, account.generation, at, at + config.horizon)];
      pollBusy := pollBusy + {account.name};
      return None;
    }

    // scheduleDurable: an activity check if one is wanted, then the oldest
    // notification, launch and warning.
    method ScheduleDurable(s: State, at: Time) returns (err: Option<RuntimeError>)
      modifies this
      ensures match StagesRun(old(Flags()), DURABLE, s, at, config)
              case Err(e) => err == Some(e)
              case Ok(c) => err == None && Flags() == c
    {
      DurableTails();
      ghost var all := StagesRun(Flags(), DURABLE, s, at, config);
      err := CheckActivity(s, at);
      if err != None {
        return err;
      }
      assert all == StagesRun(Flags(), DURABLE[1..], s, at, config);
      var keys := OrderedOccurrenceKeys(s.occurrences);
      var notification := OldestNotificationEffect(s.occurrences, keys, at, config.policy);
      err := DispatchOptional(notification);
      if err != None {
        return err;
      }
      assert all == StagesRun(Flags(), DURABLE[2..], s, at, config);
      var launch := OldestLaunchEffect(s.occurrences, keys);
      err := DispatchOptional(launch);
      if err != None {
        return err;
      }
      assert all == StagesRun(Flags(), DURABLE[3..], s, at, config);
      if !notifierBusy {
        var warning := OldestAuthWarningEffect(s.pendingAuthWarnings, at);
        err := DispatchOptional(warning);
        if err != None {
          return err;
        }
      }
      assert all == StagesRun(Flags(), [], s, at, config);
    }

    method CheckActivity(s: State, at: Time) returns (err: Option<RuntimeError>)
      modifies this
      ensures match StageRun(old(Flags()), ActivityStage, s, at, config)
              case Err(e) => err == Some(e)
              case Ok(c) => err == None && Flags() == c
    {
      var due := HasDue(s.occurrences, at, config.policy);
      if due && !activityBusy && checked != generation {
        err := Dispatch(ActivityEffect);
        if err != None {
          return err;
        }
        checked := generation;
      }
      return None;
    }

    method DispatchOptional(effect: Option<Effect>) returns (err: Option<RuntimeError>)
      modifies this
      ensures match DispatchedIf(old(Flags()), effect)
              case Err(e) => err == Some(e)
              case Ok(c) => err == None && Flags() == c
    {
      if effect != None {
        err := Dispatch(effect.value);
        return err;
      }
      return None;
    }

    method Start(s: State, at: Time) returns (err: Option<RuntimeError>)
      modifies this
      ensures match StagesRun(old(Flags()).(generation := old(generation) + 1),
                              PollStages(config.accounts) + DURABLE, s, at, config)
              case Err(error) => err == Some(error)
              case Ok(c) => err == None && Flags() == c
    {
      generation := generation + 1;
      StagesConcat(Flags(), PollStages(config.accounts), DURABLE, s, at, config);
      err := SchedulePolls(at, s);
      if err == None {
        err := ScheduleDurable(s, at);
      }
    }

    method AfterCommit(e: Event, s: State, changed: bool) returns (err: Option<RuntimeError>)
      modifies this
      ensures match StagesRun(old(Flags()), CommitStages(e, changed, config), s, e.at, config)
              case Err(error) => err == Some(error)
              case Ok(c) => err == None && Flags() == c
    {
      ghost var c0 := Flags();
      if e.payload.Tick? {
        StagesConcat(c0, PollStages(config.accounts), DURABLE, s, e.at, config);
        err := SchedulePolls(e.at, s);
        if err != None {
          return err;
        }
      } else if changed && !e.payload.ActivityDone? {
        StagesConcat(c0, [BumpStage], DURABLE, s, e.at, config);
        generation := generation + 1;
        assert StagesRun(c0, [BumpStage], s, e.at, config) == Ok(Flags());
      } else {
        assert CommitStages(e, changed, config) == DURABLE;
      }
      err := ScheduleDurable(s, e.at);
    }
  }

  // The loop: the state in memory, what the store holds, the derived index and
  // its published copy.
  class Loop {
    const runtime: Runtime
    var state: State
    var disk: State
    var index: Index
    var published: Index
    var processed: nat
    var now: Time
    var running: bool

    // The owner between events.
    function View(): (o: Owner)
      reads this, runtime
    {
      Owner(state, disk, index, published, processed, runtime.Flags(), [], now, running)
    }

    constructor (runtime: Runtime, stored: State)
      ensures this.runtime == runtime && state == disk == stored && !running
      ensures index == published == map[] && processed == 0
    {
      this.runtime := runtime;
      state, disk, index, published := stored, stored, map[], map[];
      processed, now, running := 0, 0, false;
    }

    // The stored state as the loop starts from it. An invalid one is refused, and a
    // failing save stops the start; a state that normalization and expiry leave
    // alone is not saved.
    method Load(startedAt: Time, save: SaveResult) returns (ready: bool)
      modifies this`state, this`disk, this`index, this`published, this`now
      ensures match Startup(old(disk), startedAt)
              case Err(_) => !ready && disk == old(disk)
              case Ok(s) =>
                if !Valid(s) then !ready && disk == old(disk)
                else if save != Saved && s != old(disk) then !ready && disk == FailedDisk(old(disk), s, save)
                else ready && state == disk == s && index == published == IndexOf(s.occurrences) && now == startedAt
      ensures !ready ==> state == old(state) && index == old(index) && published == old(published)
    {
      var prepared, changed, built := Prepare(disk, startedAt);
      if prepared == None {
        return false;
      }
      if changed {
        if save == FailedBefore {
          return false;
        }
        disk := prepared.value;
        if save == FailedAfter {
          return false;
        }
      }
      state, index, published, now := prepared.value, built, built, startedAt;
      return true;
    }

    // Loop.Run up to its first select.
    method Boot(startedAt: Time, save: SaveResult)
      requires runtime.Flags() == IDLE && !running && processed == 0
      modifies this, runtime
      ensures match Started(old(disk), startedAt, runtime.config)
              case Err(_) => !running && disk == old(disk)
              case Ok(o) =>
                if save != Saved && o.disk != old(disk)
                then !running && disk == FailedDisk(old(disk), o.disk, save) && published == old(published)
                else EndsAs(o)
    {
      var ready := Load(startedAt, save);
      if ready {
        var err := runtime.Start(state, now);
        running := err == None;
      }
    }

    static method Prepare(stored: State, startedAt: Time) returns (prepared: Option<State>, changed: bool, index: Index)
      ensures match Startup(stored, startedAt)
              case Err(_) => prepared == None
              case Ok(s) =>
                if Valid(s) then prepared == Some(s) && index == IndexOf(s.occurrences) && (changed <==> s != stored)
                else prepared == None
    {
      index, changed := map[], false;
      if stored.version != STATE_VERSION {
        return None, changed, index;
      }
      var draft := new Draft(stored);
      var migrated := draft.NormalizeLegacy();
      var before := draft.View();
      assert before == Normalized(stored);
      var ok := Validate(before);
      if !ok {
        return None, changed, index;
      }
      ExpireNotifyPending(draft, startedAt);
      changed := migrated || draft.View() != before;
      SavedWhenChanged(stored, startedAt);
      var built := NotificationIndex(draft.View());
      if built == None {
        return None, changed, index;
      }
      IndexUnique(built.value, IndexOf(draft.occurrences), draft.occurrences);
      return Some(draft.View()), changed, built.value;
    }

    // The loop stands where the value-level owner o comes to when its stages
    // have run; an error in a stage stops it.
    ghost predicate EndsAs(o: Owner)
      reads this, runtime
    {
      if !o.running then View() == o
      else match StagesRun(o.control, o.todo, o.state, o.now, runtime.config)
           case Ok(c) => View() == o.(control := c, todo := [])
           case Err(_) => !running
    }

    method DispatchAll(effects: seq<Effect>) returns (err: Option<RuntimeError>)
      modifies runtime
      ensures match StagesRun(old(runtime.Flags()), DispatchStages(effects), state, now, runtime.config)
              case Err(e) => err == Some(e)
              case Ok(c) => err == None && runtime.Flags() == c
    {
      ghost var stages := DispatchStages(effects);
      ghost var before := runtime.Flags();
      for i := 0 to |effects|
        invariant StagesRun(before, stages, state, now, runtime.config)
               == StagesRun(runtime.Flags(), stages[i..], state, now, runtime.config)
      {
        assert stages[i..][0] == DispatchStage(effects[i]);
        assert stages[i..][1..] == stages[i + 1..];
        err := runtime.Dispatch(effects[i]);
        if err != None {
          return err;
        }
      }
      return None;
    }

    // Up to the acknowledgement: reduce, save, publish. `save` is what the store
    // answers if it is asked. Nothing of the runtime is touched.
    method CommitEvent(e: Event, save: SaveResult) returns (commit: Commit)
      requires running
      modifies this
      ensures commit == CommitOf(old(View()), e, save, runtime.config.policy)
      ensures View() == WithCommit(old(View()), commit)
    {
      var next, effects, error := ReduceWithIndex(state, index, e, runtime.config.policy);
      if error != None {
        running := false;
        return Rejected(error.value);
      }
      commit := Save(next, effects, IsDelivery(e), save);
    }

    method Save(next: State, effects: seq<Effect>, delivery: bool, save: SaveResult) returns (commit: Commit)
      requires running && Valid(next)
      modifies this
      ensures commit == Decided(old(View()), Outcome(next, effects), delivery, save)
      ensures View() == match commit
                        case Rejected(_) => old(View())
                        case Refused(d) => old(View()).(disk := d, running := false)
                        case Committed(s, i, d, _, changed) =>
                          old(View()).(state := s, index := i, disk := d,
                                       published := if changed then i else old(published))
    {
      var changed := next != state;
      if delivery && !changed {
        running := false;
        return Refused(disk);
      }
      if changed {
        if save == FailedBefore {
          running := false;
          return Refused(disk);
        }
        disk := next;
        if save == FailedAfter {
          running := false;
          return Refused(disk);
        }
        state := next;
        var built := NotificationIndex(state);
        IndexUnique(built.value, IndexOf(state.occurrences), state.occurrences);
        index := built.value;
        published := index;
      }
      return Committed(state, index, disk, effects, changed);
    }

    // daemon.go, process: commit, acknowledge a delivery, then the effects.
    method Process(e: Event, save: SaveResult) returns (ack: Option<bool>, commit: Commit)
      requires running
      modifies this, runtime
      ensures commit == CommitOf(old(View()), e, save, runtime.config.policy)
      ensures ack == AckOf(commit, e)
      ensures EndsAs(Applied(old(View()), commit, e, runtime.config))
    {
      ghost var before := View();
      commit := CommitEvent(e, save);
      ack := Acknowledgement(commit, e);
      Proceed(commit, e, before);
    }

    static method Acknowledgement(commit: Commit, e: Event) returns (ack: Option<bool>)
      ensures ack == AckOf(commit, e)
    {
      if !e.payload.Notice? || !e.payload.notification.Delivered? {
        return None;
      }
      match commit {
        case Rejected(_) => return None;
        case Refused(_) => return Some(false);
        case Committed(_, _, _, _, _) => return Some(true);
      }
    }

    // What is left of process once the commit is decided.
    method Proceed(commit: Commit, e: Event, ghost before: Owner)
      requires View() == WithCommit(before, commit) && before.running && before.control == runtime.Flags()
               && before.todo == []
      modifies this, runtime
      ensures EndsAs(Applied(before, commit, e, runtime.config))
    {
      match commit {
        case Rejected(_) =>
        case Refused(_) =>
        case Committed(_, _, _, effects, changed) =>
          RunEffects(e, effects, changed);
      }
    }

    // The second half of process, after the acknowledgement.
    method RunEffects(e: Event, effects: seq<Effect>, changed: bool)
      modifies this`processed, this`now, this`running, runtime
      ensures match StagesRun(AfterReport(old(runtime.Flags()), e, runtime.config),
                              DispatchStages(effects) + CommitStages(e, changed, runtime.config),
                              state, e.at, runtime.config)
              case Ok(c) => runtime.Flags() == c && running
              case Err(_) => !running
      ensures processed == old(processed) + 1 && now == e.at
    {
      now := e.at;
      runtime.BeforeEffects(e);
      processed := processed + 1;
      StagesConcat(runtime.Flags(), DispatchStages(effects), CommitStages(e, changed, runtime.config),
                   state, now, runtime.config);
      var err := DispatchAll(effects);
      if err == None {
        err := runtime.AfterCommit(e, state, changed);
      }
      running := err == None;
    }
  }

  lemma {:induction false} NoSourceNoPolls(c: Control, stages: seq<Stage>, s: State, at: Time, config: Config)
    requires !config.hasSource && forall i | 0 <= i < |stages| :: stages[i].PollStage?
    ensures StagesRun(c, stages, s, at, config) == Ok(c)
    decreases |stages|
  {
    if stages != [] {
      NoSourceNoPolls(c, stages[1..], s, at, config);
    }
  }

  // Expiry never undoes what normalization changed.
  lemma SavedWhenChanged(stored: State, now: Time)
    requires stored.version == STATE_VERSION
    ensures Settled(Normalized(stored), now) == stored
       <==> AllNormal(stored.occurrences) && Settled(Normalized(stored), now) == Normalized(stored)
  {
    NormalizedIdempotent(stored);
    if !AllNormal(stored.occurrences) {
      var k :| k in stored.occurrences && NormalizeOne(stored.occurrences[k]) != stored.occurrences[k];
      var after := Settled(Normalized(stored), now).occurrences;
      assert k in after ==> after[k] != stored.occurrences[k];
    }
  }

  // The loop when the commit is decided, before anything is dispatched.
  function WithCommit(before: Owner, commit: Commit): Owner {
    match commit
    case Rejected(_) => before.(running := false)
    case Refused(d) => before.(disk := d, running := false)
    case Committed(s, i, d, _, changed) =>
      before.(state := s, index := i, disk := d, published := if changed then i else before.published)
  }

  lemma StagesHead(c: Control, stages: seq<Stage>, i: nat, s: State, at: Time, config: Config)
    requires i < |stages|
    ensures StagesRun(c, stages[i..], s, at, config)
         == match StageRun(c, stages[i], s, at, config)
            case Err(e) => Err(e)
            case Ok(d) => StagesRun(d, stages[i + 1..], s, at, config)
  {
    assert stages[i..][0] == stages[i] && stages[i..][1..] == stages[i + 1..];
  }

  lemma DurableTails()
    ensures DURABLE[0] == ActivityStage && DURABLE[1..][0] == NotificationStage
    ensures DURABLE[2..][0] == LaunchStage && DURABLE[3..][0] == WarningStage
    ensures DURABLE[1..][1..] == DURABLE[2..] && DURABLE[2..][1..] == DURABLE[3..] && DURABLE[3..][1..] == []
  {
  }
}

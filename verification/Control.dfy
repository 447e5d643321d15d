// The runtime's busy flags, one-slot channels and counters as values: what each
// method of the runtime does, and the stages an event goes through after it has
// been committed (daemon/runtime.go, daemon/runtime_schedule.go).
module Control {
  import opened Wrappers
  import opened Meetings
  import opened Storage
  import opened Events
  import opened Retry
  import opened Scheduler

  datatype Account = Account(name: Label, generation: string)

  datatype PollCommand = PollCommand(account: Label, generation: string, start: Time, end: Time)

  datatype Config = Config(hasSource: bool, accounts: seq<Account>, horizon: nat, jitter: nat -> int, policy: Policy)

  datatype RuntimeError = CommandSlotFull | PollBlocked

  // `issued` is history: the effects handed to workers so far, oldest first.
  datatype Control = Control(
    activityBusy: bool,
    notifierBusy: bool,
    launcherBusy: bool,
    pollBusy: set<Label>,
    retries: map<Label, Retry>,
    generation: nat,
    checked: nat,
    pollSlots: map<Label, PollCommand>,
    activitySlot: bool,
    notifierSlot: Option<Command>,
    launchSlot: Option<Effect>,
    issued: seq<Effect>)

  const IDLE := Control(false, false, false, {}, map[], 0, 0, map[], false, None, None, [])

  // ---- one dispatch --------------------------------------------------------

  function CommandOf(e: Effect): Command
    requires e.NotifyEffect? || e.CloseEffect? || e.AuthWarningEffect?
  {
    e.command
  }

  function Dispatched(c: Control, e: Effect): Result<Control, RuntimeError> {
    match e
    case ActivityEffect =>
      if c.activityBusy then Ok(c)
      else if c.activitySlot then Err(CommandSlotFull)
      else Ok(c.(activityBusy := true, checked := c.generation, activitySlot := true, issued := c.issued + [e]))
    case LaunchEffect(_, _, _, _) =>
      if c.launcherBusy then Ok(c)
      else if c.launchSlot.Some? then Err(CommandSlotFull)
      else Ok(c.(launcherBusy := true, launchSlot := Some(e), issued := c.issued + [e]))
    case _ =>
      if c.notifierBusy then Ok(c)
      else if c.notifierSlot.Some? then Err(CommandSlotFull)
      else Ok(c.(notifierBusy := true, notifierSlot := Some(CommandOf(e)), issued := c.issued + [e]))
  }

  // ---- the stages after a commit ---------------------------------------------

  datatype Stage =
    | DispatchStage(effect: Effect)
    | PollStage(account: Account)
    | BumpStage
    | ActivityStage
    | NotificationStage
    | LaunchStage
    | WarningStage

  const DURABLE: seq<Stage> := [ActivityStage, NotificationStage, LaunchStage, WarningStage]

  function DispatchStages(effects: seq<Effect>): seq<Stage> {
    seq(|effects|, i requires 0 <= i < |effects| => DispatchStage(effects[i]))
  }

  function PollStages(accounts: seq<Account>): seq<Stage> {
    seq(|accounts|, i requires 0 <= i < |accounts| => PollStage(accounts[i]))
  }

  // afterCommit and scheduleDurable, unrolled.
  function CommitStages(e: Event, changed: bool, config: Config): seq<Stage> {
    (if e.payload.Tick? then PollStages(config.accounts)
     else if changed && !e.payload.ActivityDone? then [BumpStage]
     else []) + DURABLE
  }

  function NextAttemptOf(c: Control, account: Label): Time {
    if account in c.retries then c.retries[account].nextAttempt else 0
  }

  function PollScheduled(c: Control, account: Account, now: Time, config: Config): Result<Control, RuntimeError> {
    if !config.hasSource || account.name in c.pollBusy || NextAttemptOf(c, account.name) > now then Ok(c)
    else if account.name in c.pollSlots then Err(PollBlocked)
    else Ok(c.(
      pollSlots := c.pollSlots[account.name :=
                               PollCommand(account.name, account.generation, now, now + config.horizon)],
      pollBusy := c.pollBusy + {account.name}))
  }

  ghost predicate WantsActivity(c: Control, s: State, now: Time, lead: nat) {
    AnyDue(s.occurrences, now, lead) && !c.activityBusy && c.checked != c.generation
  }

  ghost function DispatchedIf(c: Control, e: Option<Effect>): Result<Control, RuntimeError> {
    if e.Some? then Dispatched(c, e.value) else Ok(c)
  }

  ghost function StageRun(c: Control, stage: Stage, s: State, now: Time,
                          config: Config): Result<Control, RuntimeError> {
    match stage
    case DispatchStage(e) => Dispatched(c, e)
    case PollStage(account) => PollScheduled(c, account, now, config)
    case BumpStage => Ok(c.(generation := c.generation + 1))
    case ActivityStage =>
      if WantsActivity(c, s, now, config.policy.lead) then
        (match Dispatched(c, ActivityEffect)
         case Err(e) => Err(e)
         case Ok(d) => Ok(d.(checked := d.generation)))
      else Ok(c)
    case NotificationStage => DispatchedIf(c, OldestNotification(s.occurrences, now, config.policy.lead))
    case LaunchStage => DispatchedIf(c, OldestLaunch(s.occurrences))
    case WarningStage => if c.notifierBusy then Ok(c) else DispatchedIf(c, OldestWarning(s.pendingAuthWarnings, now))
  }

  ghost function StagesRun(c: Control, stages: seq<Stage>, s: State, now: Time,
                           config: Config): Result<Control, RuntimeError>
    decreases |stages|
  {
    if stages == [] then Ok(c)
    else match StageRun(c, stages[0], s, now, config)
         case Err(e) => Err(e)
         case Ok(d) => StagesRun(d, stages[1..], s, now, config)
  }

  lemma {:induction false} StagesConcat(c: Control, a: seq<Stage>, b: seq<Stage>, s: State, now: Time, config: Config)
    ensures StagesRun(c, a + b, s, now, config)
            == match StagesRun(c, a, s, now, config)
               case Err(e) => Err(e)
               case Ok(d) => StagesRun(d, b, s, now, config)
    decreases |a|
  {
    if a == [] {
      assert a + b == b;
    } else {
      assert (a + b)[0] == a[0];
      assert (a + b)[1..] == a[1..] + b;
      match StageRun(c, a[0], s, now, config) {
        case Err(_) =>
        case Ok(d) => StagesConcat(d, a[1..], b, s, now, config);
      }
    }
  }

  // ---- before the effects ------------------------------------------------------

  // recordPollResult: a success forgets the account's retry, a failure backs off.
  function RetriesAfter(retries: map<Label, Retry>, poll: PollResult, now: Time,
                        jitter: nat -> int): map<Label, Retry> {
    if poll.error.None? then retries - {poll.account}
    else
      var attempt := if poll.account in retries then retries[poll.account].attempt else 0;
      retries[poll.account := NextRetry(now, attempt + 1, jitter)]
  }

  // runtime_schedule.go, beforeEffects: the worker that reported is free again.
  function AfterReport(c: Control, e: Event, config: Config): Control {
    match e.payload
    case Tick => c.(generation := c.generation + 1)
    case PollDone(poll) =>
      c.(pollBusy := c.pollBusy - {poll.account},
         retries := RetriesAfter(c.retries, poll, e.at, config.jitter),
         generation := if poll.error.None? then c.generation + 1 else c.generation)
    case ActivityDone(_, _, _) => c.(activityBusy := false)
    case LaunchDone(_, _, _, _) => c.(launcherBusy := false)
    case Notice(n) => if n.SignalReceived? then c else c.(notifierBusy := false)
    case Malformed => c
  }
}

// The owner and its workers as interleaved steps: workers and the notification
// transport take commands from one-slot channels and hand one result event each
// to the owner's unbuffered ingress (daemon/workers.go, notifications/client.go).
module System {
  import opened Wrappers
  import opened Meetings
  import opened Storage
  import opened Events
  import opened Reducer
  import opened Control
  import opened Owner

  // Holding: an event ready to be handed over, a command's result or a signal.
  // Awaiting: a delivery was handed over and its acknowledgement is outstanding.
  datatype Transport =
    | Idle
    | Holding(notice: Notification)
    | Awaiting(id: NotificationId)
    | Halted

  datatype Ack = Ack(id: NotificationId, persisted: bool)

  // `acks` and `compensated` are history: every acknowledgement sent, and every
  // id the transport closed because its delivery was not persisted.
  datatype System = System(
    owner: Owner,
    polls: map<Label, PollCommand>,
    activity: bool,
    launcher: Option<Effect>,
    transport: Transport,
    ackSlot: Option<bool>,
    acks: seq<Ack>,
    compensated: seq<NotificationId>)

  datatype PollAnswer = PollAnswer(fetchedAt: Time, meetings: seq<Meeting>, observations: seq<Observation>,
                                   error: Option<PollErrorKind>)

  datatype CommandOutcome = Succeeded(id: NotificationId) | CallFailed

  datatype Action =
    // events handed to the owner
    | TickArrives(at: Time, save: SaveResult)
    | PollAnswers(account: Label, at: Time, answer: PollAnswer, save: SaveResult)
    | ActivityAnswers(at: Time, eligible: bool, degraded: bool, failed: bool, save: SaveResult)
    | LaunchAnswers(at: Time, failed: bool, save: SaveResult)
    | NoticeArrives(at: Time, save: SaveResult)
    // the owner continues with the current event
    | OwnerAdvances
    // workers
    | PollTaken(account: Label)
    | ActivityTaken
    | LaunchTaken
    | CommandTaken(outcome: CommandOutcome)
    | SignalArrives(signal: Signal)
    | AckTaken

  // client.go, handleCommand: the event a command's outcome is reported with.
  function Report(c: Command, outcome: CommandOutcome): Notification {
    match c
    case NotifyCommand(k, account, revision, _) =>
      (match outcome
       case Succeeded(id) => Delivered(k, account, revision, id)
       case CallFailed => Failed(k, account, revision, 0))
    case CloseCommand(k, id) =>
      (match outcome
       case Succeeded(_) => CommandCompleted(k, id)
       case CallFailed => Failed(k, "", 0, id))
  }

  // The event an action hands to the owner, if it does.
  function HandedEvent(s: System, a: Action): Option<Event> {
    match a
    case TickArrives(at, _) => Some(Event(at, Tick))
    case PollAnswers(account, at, answer, _) =>
      if account !in s.polls then None
      else Some(Event(at, PollDone(PollResult(account, s.polls[account].generation, answer.fetchedAt,
                                              answer.meetings, answer.observations, answer.error))))
    case ActivityAnswers(at, eligible, degraded, failed, _) =>
      if !s.activity then None else Some(Event(at, ActivityDone(eligible, degraded, failed)))
    case LaunchAnswers(at, failed, _) =>
      if s.launcher.None? || !s.launcher.value.LaunchEffect? then None
      else Some(Event(at, LaunchDone(s.launcher.value.key, s.launcher.value.account,
                                     s.launcher.value.joinRevision, failed)))
    case NoticeArrives(at, _) =>
      if s.transport.Holding? then Some(Event(at, Notice(s.transport.notice))) else None
    case _ => None
  }

  function SaveOf(a: Action): SaveResult {
    match a
    case TickArrives(_, save) => save
    case PollAnswers(_, _, _, save) => save
    case ActivityAnswers(_, _, _, _, save) => save
    case LaunchAnswers(_, _, save) => save
    case NoticeArrives(_, save) => save
    case _ => Saved
  }

  // The sender's side of a hand-over: it has no result any more.
  function HandedOver(s: System, a: Action): System {
    match a
    case PollAnswers(account, _, _, _) => s.(polls := s.polls - {account})
    case ActivityAnswers(_, _, _, _, _) => s.(activity := false)
    case LaunchAnswers(_, _, _) => s.(launcher := None)
    case NoticeArrives(_, _) =>
      s.(transport := if s.transport.Holding? && s.transport.notice.Delivered?
                      then Awaiting(s.transport.notice.id) else Idle)
    case _ => s
  }

  ghost function HandedWith(s: System, a: Action, e: Event, commit: Commit, config: Config): System {
    var ack := AckOf(commit, e);
    HandedOver(s, a).(
      owner := Applied(s.owner, commit, e, config),
      ackSlot := if ack.Some? then ack else s.ackSlot,
      acks := if ack.Some? then s.acks + [Ack(e.payload.notification.id, ack.value)] else s.acks)
  }

  // The hand-over, the commit and the acknowledgement are one step.
  ghost function Handed(s: System, a: Action, e: Event, config: Config): System {
    HandedWith(s, a, e, CommitOf(s.owner, e, SaveOf(a), config.policy), config)
  }

  predicate HandsOver(a: Action) {
    a.TickArrives? || a.PollAnswers? || a.ActivityAnswers? || a.LaunchAnswers? || a.NoticeArrives?
  }

  // What a worker, or the transport, does on its own.
  predicate CanTake(s: System, a: Action) {
    match a
    case PollTaken(account) => account in s.owner.control.pollSlots && account !in s.polls
    case ActivityTaken => s.owner.control.activitySlot && !s.activity
    case LaunchTaken => s.owner.control.launchSlot.Some? && s.launcher.None?
    case CommandTaken(_) => s.owner.control.notifierSlot.Some? && s.transport == Idle
    case SignalArrives(_) => s.transport == Idle
    case AckTaken => s.transport.Awaiting? && s.ackSlot.Some?
    case _ => false
  }

  function Taken(s: System, a: Action): System
    requires CanTake(s, a)
  {
    var c := s.owner.control;
    match a
    case PollTaken(account) =>
      s.(owner := s.owner.(control := c.(pollSlots := c.pollSlots - {account})),
         polls := s.polls[account := c.pollSlots[account]])
    case ActivityTaken => s.(owner := s.owner.(control := c.(activitySlot := false)), activity := true)
    case LaunchTaken => s.(owner := s.owner.(control := c.(launchSlot := None)), launcher := c.launchSlot)
    case CommandTaken(outcome) =>
      s.(owner := s.owner.(control := c.(notifierSlot := None)),
         transport := Holding(Report(c.notifierSlot.value, outcome)))
    case SignalArrives(signal) => s.(transport := Holding(SignalReceived(signal)))
    case AckTaken =>
      if s.ackSlot.value then s.(transport := Idle, ackSlot := None)
      else s.(transport := Halted, ackSlot := None, compensated := s.compensated + [s.transport.id])
  }

  // A hand-over is possible only while the loop waits in its select.
  ghost predicate Enabled(s: System, a: Action, config: Config) {
    if HandsOver(a) then s.owner.running && s.owner.todo == [] && HandedEvent(s, a).Some?
    else if a.OwnerAdvances? then s.owner.running && s.owner.todo != []
    else CanTake(s, a)
  }

  ghost function After(s: System, a: Action, config: Config): System
    requires Enabled(s, a, config)
  {
    if HandsOver(a) then Handed(s, a, HandedEvent(s, a).value, config)
    else if a.OwnerAdvances? then s.(owner := Advanced(s.owner, config))
    else Taken(s, a)
  }

  ghost predicate Initial(s: System, stored: State, now: Time, config: Config) {
    && Started(stored, now, config) == Ok(s.owner)
    && s.polls == map[] && !s.activity && s.launcher == None
    && s.transport == Idle && s.ackSlot == None && s.acks == [] && s.compensated == []
  }

  ghost predicate IsExecution(states: seq<System>, actions: seq<Action>, stored: State, now: Time, config: Config) {
    && |states| == |actions| + 1
    && Initial(states[0], stored, now, config)
    && forall i: nat | i < |actions| :: ActsAt(states, actions, config, i)
  }

  ghost predicate ActsAt(states: seq<System>, actions: seq<Action>, config: Config, i: nat)
    requires i < |actions| && i + 1 < |states|
  {
    Enabled(states[i], actions[i], config) && states[i + 1] == After(states[i], actions[i], config)
  }
}

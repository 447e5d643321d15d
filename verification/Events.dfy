// What the owner is told and what it asks for (reducer.go, notifications/client.go).
module Events {
  import opened Wrappers
  import opened Meetings
  import opened Storage

  // The text of a request, before formatting.
  datatype Body = MeetingBody(accountLabel: Label, start: Time) | WarningBody(accountLabel: Label)

  datatype Request = Request(replacesId: NotificationId, summary: string, body: Body, actions: seq<string>)

  datatype Command =
    | NotifyCommand(key: Key, account: Label, revision: Revision, request: Request)
    | CloseCommand(key: Key, id: NotificationId)

  datatype Signal =
    | ActionInvoked(id: NotificationId, actionKey: string)
    | NotificationClosed(id: NotificationId)

  // A non-empty account marks an authorization warning; it takes precedence
  // over the key.
  datatype Notification =
    | Delivered(key: Key, account: Label, revision: Revision, id: NotificationId)
    | Failed(key: Key, account: Label, revision: Revision, id: NotificationId)
    | CommandCompleted(key: Key, id: NotificationId)
    | SignalReceived(signal: Signal)

  datatype PollResult = PollResult(
    account: Label,
    generation: string,
    fetchedAt: Time,
    meetings: seq<Meeting>,
    observations: seq<Observation>,
    error: Option<PollErrorKind>)

  datatype Payload =
    | Tick
    | PollDone(poll: PollResult)
    | ActivityDone(eligible: bool, degraded: bool, failed: bool)
    | Notice(notification: Notification)
    | LaunchDone(key: Key, account: Label, joinRevision: Revision, failed: bool)
    | Malformed             // an unknown kind, or a kind without its result

  datatype Event = Event(at: Time, payload: Payload)

  datatype Effect =
    | ActivityEffect
    | NotifyEffect(key: Key, command: Command)
    | CloseEffect(key: Key, command: Command)
    | LaunchEffect(key: Key, url: string, account: Label, joinRevision: Revision)
    | AuthWarningEffect(account: Label, command: Command)

  datatype Error =
    | InvalidState
    | InvalidEvent
    | MalformedEvent
    | RevisionExhausted
    | InvalidPoll(field: string)
    | MeetingWithoutKey
    | UnclassifiedObservation

  // daemon.go, isDelivery
  predicate IsDelivery(e: Event) {
    e.payload.Notice? && e.payload.notification.Delivered?
    && (e.payload.notification.key != "" || e.payload.notification.account != "")
  }
}

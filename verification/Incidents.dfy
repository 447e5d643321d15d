// Concrete runs, from the empty state and through the reducer: one in which a click
// launches the meeting, and some in which something happens that one might think
// cannot. One account, one key, everything at one time.
module Incidents {
  import opened Wrappers
  import opened Meetings
  import opened Storage
  import opened Events
  import opened Expiry
  import opened Reconcile
  import opened ReducerNotifications
  import opened Scheduler
  import opened Reducer
  import opened Pointwise
  import opened Closure
  import opened Lifetimes
  import opened Runs
  import opened Finality
  import opened Control
  import opened Owner
  import opened WriteAhead
  import opened Handshake

  const NOW: Time := 1
  const POLICY := Policy(MINUTE, (u: string) => true, (k: Key) => 0)

  const ORIGIN := Origin("", "", "", "", 0)
  const SOON := Meeting("k", "a", "one", 2, 0, "", ORIGIN)
  const OTHER := SOON.(summary := "two")
  const FAR := SOON.(start := 1000 * HOUR)

  const CANCELLED := Observation("k", RemovedCancelled, NotExcluded)

  function Poll(meetings: seq<Meeting>, observations: seq<Observation>): Event {
    Event(NOW, PollDone(PollResult("a", "", NOW, meetings, observations, None)))
  }

  const ELIGIBLE := Event(NOW, ActivityDone(true, false, false))
  const SHOWN := Event(NOW, Notice(Delivered("k", "", 1, 7)))
  const CLOSED := Event(NOW, Notice(CommandCompleted("k", 7)))

  // ---- one step of such a run --------------------------------------------------------

  function Alone(slot: Slot): map<Key, Occurrence> {
    if slot.None? then map[] else map["k" := slot.value]
  }

  // The state holds at most this occurrence and the last poll listed these meetings.
  ghost predicate Holds(s: State, slot: Slot, meetings: seq<Meeting>) {
    && Sound(s, NOW, POLICY.lead)
    && s.occurrences == Alone(slot)
    && PreviousMeetings(s, "a") == meetings
  }

  predicate Plain(e: Event) {
    && e.at == NOW
    && match e.payload
       case PollDone(poll) =>
         poll.account == "a" && poll.error.None? && forall m | m in poll.meetings :: m.key == "k"
       case ActivityDone(_, _, _) => true
       case Notice(n) => (n.Delivered? && n.account == "") || n.CommandCompleted? || n.SignalReceived?
       case _ => false
  }

  lemma {:induction false} CurrentAllK(meetings: seq<Meeting>)
    requires forall m | m in meetings :: m.key == "k"
    ensures CurrentMeetings(meetings).Keys <= {"k"}
  {
    if meetings != [] {
      CurrentAllK(meetings[..|meetings| - 1]);
    }
  }

  lemma OtherKeysStayAway(s: State, e: Event, j: Key)
    requires s.occurrences.Keys <= {"k"} && Plain(e) && j != "k"
    ensures NextOne(s, IndexOf(s.occurrences), e, POLICY, j) == None
  {
    if e.payload.PollDone? {
      CurrentAllK(e.payload.poll.meetings);
      OutcomeTouched(s, e.payload.poll, e.at, POLICY.lead, j);
    }
  }

  lemma TransitionSnapshot(s: State, index: Index, e: Event)
    requires Plain(e) && Transition(s, index, e, POLICY).Ok?
    ensures PreviousMeetings(Transition(s, index, e, POLICY).value, "a")
         == if e.payload.PollDone? then e.payload.poll.meetings else PreviousMeetings(s, "a")
  {
    match e.payload {
      case PollDone(poll) => ReconciledFrame(s, poll, e.at, POLICY.lead);
      case ActivityDone(_, _, _) =>
      case Notice(n) => assert !AnswersWarning(s, n);
    }
  }

  lemma SnapshotAfter(s: State, e: Event)
    requires Valid(s) && IsNormal(s) && Plain(e) && Reduce(s, IndexOf(s.occurrences), e, POLICY).Ok?
    ensures PreviousMeetings(Reduce(s, IndexOf(s.occurrences), e, POLICY).value.state, "a")
         == if e.payload.PollDone? then e.payload.poll.meetings else PreviousMeetings(s, "a")
  {
    NormalizedIdempotent(s);
    TransitionSnapshot(s, IndexOf(s.occurrences), e);
  }

  lemma Handle(s: State, slot: Slot, meetings: seq<Meeting>, e: Event) returns (next: State)
    requires Holds(s, slot, meetings) && Plain(e) && WellFormedEvent(s, e)
    ensures Accepts(s, Handled(e), POLICY, next)
    ensures Holds(next, NextOne(s, IndexOf(s.occurrences), e, POLICY, "k"),
                  if e.payload.PollDone? then e.payload.poll.meetings else meetings)
  {
    var index := IndexOf(s.occurrences);
    SoundIsNormal(s, NOW, POLICY.lead);
    ReducerClosure(s, index, e, POLICY);
    next := Reduce(s, index, e, POLICY).value.state;
    SoundStep(s, NOW, index, e, POLICY);
    SnapshotAfter(s, e);
    var after := NextOne(s, index, e, POLICY, "k");
    forall j
      ensures Lookup(next.occurrences, j) == Lookup(Alone(after), j)
    {
      NormalNextAt(s, index, e, POLICY, j);
      if j != "k" {
        OtherKeysStayAway(s, e, j);
      }
    }
    SameEntries(next.occurrences, Alone(after));
  }

  // Polls that list the key at most once and may cancel it.
  predicate Simple(meetings: seq<Meeting>, observations: seq<Observation>) {
    && (meetings == [] || (|meetings| == 1 && meetings[0].key == "k" && meetings[0].accountLabel == "a"))
    && (observations == [] || observations == [CANCELLED])
  }

  // What such a poll says about the key after a poll that listed `before`.
  function VerdictAfter(before: seq<Meeting>, meetings: seq<Meeting>, observations: seq<Observation>): Verdict {
    Verdict(before != [] && meetings == [] && observations == [],
            if meetings == [] then None else Some(meetings[0]),
            if observations == [] then None else Some(RemovedCancelled))
  }

  lemma VerdictIs(s: State, meetings: seq<Meeting>, observations: seq<Observation>, before: seq<Meeting>)
    requires PreviousMeetings(s, "a") == before && Simple(before, []) && Simple(meetings, observations)
    ensures VerdictOf(s, Poll(meetings, observations).payload.poll, "k") == VerdictAfter(before, meetings, observations)
  {
    var known := KnownKeys(s, "a");
    assert CurrentMeetings([]) == map[] && Removals([], known) == map[];
    if meetings != [] {
      assert meetings[..0] == [];
      assert CurrentMeetings(meetings) == map["k" := meetings[0]];
    }
    if observations != [] {
      assert [CANCELLED][..0] == [];
      assert RemovalOf(CANCELLED, CANCELLED.key in known) == Some(RemovedCancelled);
      assert Removals([CANCELLED], known) == map["k" := RemovedCancelled];
      assert observations[0].key == "k" && "k" in ObservedKeys(observations);
    } else {
      assert ObservedKeys(observations) == {};
    }
    if before != [] {
      assert before[0].key in SnapshotKeys(before);
    } else {
      assert SnapshotKeys(before) == {};
    }
  }

  lemma HandlePoll(s: State, slot: Slot, before: seq<Meeting>, meetings: seq<Meeting>, observations: seq<Observation>,
                   after: Slot)
    returns (next: State)
    requires Holds(s, slot, before) && Simple(before, []) && Simple(meetings, observations)
    requires slot.Some? ==> slot.value.notifyRevision < 10
    requires var out := ReconcileOne(slot, VerdictAfter(before, meetings, observations), NOW, POLICY.lead);
             out.Ok? && SettledOne(out.value, NOW) == after
    ensures Accepts(s, Handled(Poll(meetings, observations)), POLICY, next) && Holds(next, after, meetings)
  {
    PollIsWellFormed(s, slot, meetings, observations);
    PollNext(s, slot, before, meetings, observations);
    next := Handle(s, slot, before, Poll(meetings, observations));
  }

  lemma PollIsWellFormed(s: State, slot: Slot, meetings: seq<Meeting>, observations: seq<Observation>)
    requires s.occurrences == Alone(slot) && Simple(meetings, observations)
    requires slot.Some? ==> slot.value.notifyRevision < 10
    ensures WellFormedEvent(s, Poll(meetings, observations)) && Plain(Poll(meetings, observations))
  {
    assert ObservationError(CANCELLED).None?;
    assert FirstObservationError(observations).None? by {
      if observations != [] {
        assert observations[1..] == [];
      }
    }
    assert WellFormedPoll(Poll(meetings, observations).payload.poll);
  }

  lemma PollNext(s: State, slot: Slot, before: seq<Meeting>, meetings: seq<Meeting>, observations: seq<Observation>)
    requires s.occurrences == Alone(slot) && PreviousMeetings(s, "a") == before
    requires Simple(before, []) && Simple(meetings, observations)
    requires ReconcileOne(slot, VerdictAfter(before, meetings, observations), NOW, POLICY.lead).Ok?
    ensures UniqueIds(s.occurrences)
    ensures NextOne(s, IndexOf(s.occurrences), Poll(meetings, observations), POLICY, "k")
         == SettledOne(ReconcileOne(slot, VerdictAfter(before, meetings, observations), NOW, POLICY.lead).value, NOW)
  {
    VerdictIs(s, meetings, observations, before);
    assert Lookup(s.occurrences, "k") == slot;
    PolledNext(s, IndexOf(s.occurrences), Poll(meetings, observations), POLICY, "k");
  }

  lemma StartsEmpty()
    ensures Holds(EMPTY, None, [])
  {
  }

  // ---- the phases ----------------------------------------------------------------------

  function Fresh(m: Meeting): Occurrence {
    NewOccurrence(m)
  }

  function Pending(m: Meeting): Occurrence {
    NewOccurrence(m).(phase := NotifyPending, notifyRevision := 1, notBefore := NOW)
  }

  function OnScreen(m: Meeting): Occurrence {
    NewOccurrence(m).(phase := Notified, notifyRevision := 1, notificationId := 7, notifiedAt := NOW,
                      actionExpiresAt := NOW + ACTION_LIFETIME)
  }

  function Closing(m: Meeting): Occurrence {
    NewOccurrence(m).(phase := ClosePending, notifyRevision := 1, notificationId := 7,
                      closeReason := CloseRescheduled, resumePhase := Scheduled)
  }

  lemma PromotedOne(m: Meeting)
    requires Due(m, NOW, POLICY.lead)
    ensures SettledOne(Some(PromoteOne(Fresh(m), NOW, POLICY.lead)), NOW) == Some(Pending(m))
  {
  }

  lemma Promoted(s: State, m: Meeting, meetings: seq<Meeting>) returns (next: State)
    requires Holds(s, Some(Fresh(m)), meetings) && Due(m, NOW, POLICY.lead)
    ensures Accepts(s, Handled(ELIGIBLE), POLICY, next) && Holds(next, Some(Pending(m)), meetings)
  {
    next := Handle(s, Some(Fresh(m)), meetings, ELIGIBLE);
    PromotedOne(m);
    assert Lookup(s.occurrences, "k") == Some(Fresh(m));
    assert NextOne(s, IndexOf(s.occurrences), ELIGIBLE, POLICY, "k") == Some(Pending(m));
  }

  lemma Displayed(s: State, m: Meeting, meetings: seq<Meeting>) returns (next: State)
    requires Holds(s, Some(Pending(m)), meetings) && Due(m, NOW, POLICY.lead)
    ensures Accepts(s, Handled(SHOWN), POLICY, next) && Holds(next, Some(OnScreen(m)), meetings)
  {
    assert s.occurrences["k"] == Pending(m);
    next := Handle(s, Some(Pending(m)), meetings, SHOWN);
  }

  function Again(m: Meeting): Occurrence {
    NewOccurrence(m).(notifyRevision := 1)
  }

  lemma ResumedOne(m: Meeting)
    ensures SettledOne(NotificationOne(Closing(m), CLOSED.payload.notification, NOW, POLICY), NOW) == Some(Again(m))
  {
  }

  lemma Resumes(s: State, m: Meeting, meetings: seq<Meeting>) returns (next: State)
    requires Holds(s, Some(Closing(m)), meetings)
    ensures Accepts(s, Handled(CLOSED), POLICY, next) && Holds(next, Some(Again(m)), meetings)
  {
    next := Handle(s, Some(Closing(m)), meetings, CLOSED);
    ResumedOne(m);
    assert Lookup(s.occurrences, "k") == Some(Closing(m));
    assert NextOne(s, IndexOf(s.occurrences), CLOSED, POLICY, "k") == Some(Again(m));
  }

  // ---- putting steps together ---------------------------------------------------------

  ghost predicate Steps(s: State, e: Event, next: State) {
    e.at == NOW && Accepts(s, Handled(e), POLICY, next)
  }

  // A run so far and what its last state holds.
  ghost predicate Reaches(states: seq<State>, events: seq<Event>, slot: Slot, meetings: seq<Meeting>) {
    && |states| == |events| + 1 && states[0] == EMPTY
    && (forall i | 0 <= i < |events| :: Steps(states[i], events[i], states[i + 1]))
    && Holds(states[|events|], slot, meetings)
  }

  function Inputs(events: seq<Event>): seq<Input> {
    seq(|events|, i requires 0 <= i < |events| => Handled(events[i]))
  }

  lemma IsRunOf(states: seq<State>, events: seq<Event>, slot: Slot, meetings: seq<Meeting>)
    requires Reaches(states, events, slot, meetings)
    ensures IsRun(states, Inputs(events), POLICY)
  {
    var inputs := Inputs(events);
    assert forall i | 0 <= i < |events| :: Steps(states[i], events[i], states[i + 1]);
    forall i | 0 <= i < |inputs|
      ensures TimeOf(inputs[i]) == NOW
      ensures StepAt(states, inputs, POLICY, i)
    {
      assert inputs[i] == Handled(events[i]) && Steps(states[i], events[i], states[i + 1]);
    }
  }

  lemma StepKept(states: seq<State>, events: seq<Event>, e: Event, next: State, i: nat)
    requires |states| == |events| + 1 && i <= |events|
    requires if i < |events| then Steps(states[i], events[i], states[i + 1]) else Steps(states[i], e, next)
    ensures Steps((states + [next])[i], (events + [e])[i], (states + [next])[i + 1])
  {
  }

  lemma Extended(states: seq<State>, events: seq<Event>, slot: Slot, meetings: seq<Meeting>,
                 e: Event, next: State, after: Slot, listed: seq<Meeting>)
    requires Reaches(states, events, slot, meetings)
    requires Steps(states[|events|], e, next) && Holds(next, after, listed)
    ensures Reaches(states + [next], events + [e], after, listed)
  {
    var longer, all := states + [next], events + [e];
    forall i: nat | i < |all|
      ensures Steps(longer[i], all[i], longer[i + 1])
    {
      StepKept(states, events, e, next, i);
    }
  }

  lemma ThenPoll(states: seq<State>, events: seq<Event>, slot: Slot, before: seq<Meeting>,
                 meetings: seq<Meeting>, observations: seq<Observation>, after: Slot) returns (longer: seq<State>)
    requires Reaches(states, events, slot, before) && Simple(before, []) && Simple(meetings, observations)
    requires slot.Some? ==> slot.value.notifyRevision < 10
    requires var out := ReconcileOne(slot, VerdictAfter(before, meetings, observations), NOW, POLICY.lead);
             out.Ok? && SettledOne(out.value, NOW) == after
    ensures Reaches(longer, events + [Poll(meetings, observations)], after, meetings) && states <= longer
  {
    var next := HandlePoll(states[|events|], slot, before, meetings, observations, after);
    Extended(states, events, slot, before, Poll(meetings, observations), next, after, meetings);
    longer := states + [next];
  }

  lemma ThenPromoted(states: seq<State>, events: seq<Event>, m: Meeting, meetings: seq<Meeting>)
    returns (longer: seq<State>)
    requires Reaches(states, events, Some(Fresh(m)), meetings) && Due(m, NOW, POLICY.lead)
    ensures Reaches(longer, events + [ELIGIBLE], Some(Pending(m)), meetings) && states <= longer
  {
    var next := Promoted(states[|events|], m, meetings);
    Extended(states, events, Some(Fresh(m)), meetings, ELIGIBLE, next, Some(Pending(m)), meetings);
    longer := states + [next];
  }

  lemma ThenDisplayed(states: seq<State>, events: seq<Event>, m: Meeting, meetings: seq<Meeting>)
    returns (longer: seq<State>)
    requires Reaches(states, events, Some(Pending(m)), meetings) && Due(m, NOW, POLICY.lead)
    ensures Reaches(longer, events + [SHOWN], Some(OnScreen(m)), meetings) && states <= longer
  {
    var next := Displayed(states[|events|], m, meetings);
    Extended(states, events, Some(Pending(m)), meetings, SHOWN, next, Some(OnScreen(m)), meetings);
    longer := states + [next];
  }

  lemma ThenResumed(states: seq<State>, events: seq<Event>, m: Meeting, meetings: seq<Meeting>)
    returns (longer: seq<State>)
    requires Reaches(states, events, Some(Closing(m)), meetings)
    ensures Reaches(longer, events + [CLOSED], Some(Again(m)), meetings) && states <= longer
  {
    var next := Resumes(states[|events|], m, meetings);
    Extended(states, events, Some(Closing(m)), meetings, CLOSED, next, Some(Again(m)), meetings);
    longer := states + [next];
  }

  const DUE := [Poll([SOON], []), ELIGIBLE]

  lemma ListedAndDue() returns (states: seq<State>)
    ensures Reaches(states, DUE, Some(Pending(SOON)), [SOON])
  {
    StartsEmpty();
    states := ThenPoll([EMPTY], [], None, [], [SOON], [], Some(Fresh(SOON)));
    states := ThenPromoted(states, [] + [Poll([SOON], [])], SOON, [SOON]);
    assert [] + [Poll([SOON], [])] + [ELIGIBLE] == DUE;
  }

  lemma ShownFirst() returns (states: seq<State>)
    ensures Reaches(states, DUE + [SHOWN], Some(OnScreen(SOON)), [SOON])
  {
    states := ListedAndDue();
    states := ThenDisplayed(states, DUE, SOON, [SOON]);
  }

  // ---- a click launches the meeting ------------------------------------------------------

  const CLICKED := Event(NOW, Notice(SignalReceived(ActionInvoked(7, "join"))))

  function Joining(m: Meeting): Occurrence {
    OnScreen(m).(phase := JoinPending, joinRevision := 1, joinRequestedAt := NOW, resumePhase := Notified)
  }

  lemma ClickedOne(m: Meeting)
    ensures SettledOne(NotificationOne(OnScreen(m), CLICKED.payload.notification, NOW, POLICY), NOW) == Some(Joining(m))
  {
  }

  lemma Clicks(s: State, m: Meeting, meetings: seq<Meeting>) returns (next: State)
    requires Holds(s, Some(OnScreen(m)), meetings)
    ensures Accepts(s, Handled(CLICKED), POLICY, next) && Holds(next, Some(Joining(m)), meetings)
  {
    next := Handle(s, Some(OnScreen(m)), meetings, CLICKED);
    ClickedOne(m);
    assert Lookup(s.occurrences, "k") == Some(OnScreen(m));
    assert IndexOf(s.occurrences)[7] == "k" by {
      assert s.occurrences["k"].notificationId == 7;
    }
    assert NextOne(s, IndexOf(s.occurrences), CLICKED, POLICY, "k") == Some(Joining(m));
  }

  // Listed, due, shown, clicked: the join is pending, and its launch is asked for.
  lemma ClickLaunchesExample() returns (states: seq<State>)
    ensures IsRun(states, Inputs(DUE + [SHOWN] + [CLICKED]), POLICY)
    ensures Lookup(states[4].occurrences, "k") == Some(Joining(SOON))
    ensures LaunchEffect("k", SOON.url, SOON.accountLabel, 1) in PendingEffects(states[4].occurrences, NOW, POLICY.lead)
  {
    var shown := ShownFirst();
    var next := Clicks(shown[3], SOON, [SOON]);
    Extended(shown, DUE + [SHOWN], Some(OnScreen(SOON)), [SOON], CLICKED, next, Some(Joining(SOON)), [SOON]);
    states := shown + [next];
    EndsWith(states, DUE + [SHOWN] + [CLICKED], Joining(SOON), [SOON]);
    LaunchAsked(next);
  }

  lemma LaunchAsked(s: State)
    requires Holds(s, Some(Joining(SOON)), [SOON])
    ensures LaunchEffect("k", SOON.url, SOON.accountLabel, 1) in PendingEffects(s.occurrences, NOW, POLICY.lead)
  {
    assert s.occurrences["k"] == Joining(SOON);
    assert RankOf(s.occurrences, "k") in ReadyLaunches(s.occurrences);
    assert OldestLaunch(s.occurrences) == Some(LaunchEffectOf("k", Joining(SOON)));
  }

  // The occurrence a run ends with.
  lemma EndsWith(states: seq<State>, events: seq<Event>, o: Occurrence, meetings: seq<Meeting>)
    requires Reaches(states, events, Some(o), meetings)
    ensures IsRun(states, Inputs(events), POLICY)
    ensures Lookup(states[|events|].occurrences, "k") == Some(o)
  {
    IsRunOf(states, events, Some(o), meetings);
  }

  // ---- a cancelled meeting returns --------------------------------------------------------

  const RESCHEDULED_THEN_CANCELLED := DUE + [SHOWN] + [Poll([FAR], [])] + [Poll([], [CANCELLED])] + [CLOSED]

  // Shown, rescheduled out of the window, cancelled by the next poll; the close
  // that the reschedule began schedules the meeting again.
  lemma CancelledMeetingReturnsExample() returns (states: seq<State>)
    ensures IsRun(states, Inputs(RESCHEDULED_THEN_CANCELLED), POLICY)
    ensures Lookup(states[6].occurrences, "k") == Some(Again(FAR))
    ensures Again(FAR).phase == Scheduled
  {
    states := ShownFirst();
    states := ThenPoll(states, DUE + [SHOWN], Some(OnScreen(SOON)), [SOON], [FAR], [], Some(Closing(FAR)));
    var events := DUE + [SHOWN] + [Poll([FAR], [])];
    states := ThenPoll(states, events, Some(Closing(FAR)), [FAR], [], [CANCELLED], Some(Closing(FAR)));
    states := ThenResumed(states, events + [Poll([], [CANCELLED])], FAR, []);
    EndsWith(states, RESCHEDULED_THEN_CANCELLED, Again(FAR), []);
  }

  const LISTED_AND_CANCELLED := DUE + [SHOWN] + [Poll([FAR], [CANCELLED])] + [CLOSED]

  // With nothing being closed before: one poll that lists the key out of the window
  // and cancels it as well.
  lemma ListedAndCancelledReturnsExample() returns (states: seq<State>)
    ensures IsRun(states, Inputs(LISTED_AND_CANCELLED), POLICY)
    ensures Lookup(states[3].occurrences, "k") == Some(OnScreen(SOON))
    ensures Lookup(states[5].occurrences, "k") == Some(Again(FAR))
    ensures OnScreen(SOON).phase == Notified && Again(FAR).phase == Scheduled
  {
    var shown := ShownFirst();
    EndsWith(shown, DUE + [SHOWN], OnScreen(SOON), [SOON]);
    states := ThenPoll(shown, DUE + [SHOWN], Some(OnScreen(SOON)), [SOON], [FAR], [CANCELLED], Some(Closing(FAR)));
    states := ThenResumed(states, DUE + [SHOWN] + [Poll([FAR], [CANCELLED])], FAR, [FAR]);
    EndsWith(states, LISTED_AND_CANCELLED, Again(FAR), [FAR]);
    assert states[3] == shown[3];
  }

  // ---- a stale delivery is accepted across lifetimes --------------------------------------

  const DELETED_AND_LISTED_AGAIN := DUE + [Poll([], [])] + [Poll([OTHER], [])] + [ELIGIBLE] + [SHOWN]

  lemma DeletedAndListedAgain(due: seq<State>) returns (gone: seq<State>, states: seq<State>)
    requires Reaches(due, DUE, Some(Pending(SOON)), [SOON])
    ensures Reaches(gone, DUE + [Poll([], [])], None, []) && due <= gone <= states
    ensures Reaches(states, DELETED_AND_LISTED_AGAIN, Some(OnScreen(OTHER)), [OTHER])
  {
    gone := ThenPoll(due, DUE, Some(Pending(SOON)), [SOON], [], [], None);
    var events := DUE + [Poll([], [])];
    states := ThenPoll(gone, events, None, [], [OTHER], [], Some(Fresh(OTHER)));
    states := ThenPromoted(states, events + [Poll([OTHER], [])], OTHER, [OTHER]);
    states := ThenDisplayed(states, events + [Poll([OTHER], [])] + [ELIGIBLE], OTHER, [OTHER]);
  }

  // A notify command for revision 1 goes out; the meeting vanishes and comes back
  // with other content; the delivery of the old command is recorded for the new.
  lemma RevisionsRestartExample() returns (states: seq<State>, command: Command)
    ensures IsRun(states, Inputs(DELETED_AND_LISTED_AGAIN), POLICY)
    ensures NotifyEffect("k", command) in PendingEffects(states[2].occurrences, NOW, POLICY.lead)
    ensures command.NotifyCommand? && command.revision == SHOWN.payload.notification.revision
    ensures "k" !in states[3].occurrences
    ensures Recorded(states[6], SHOWN.payload.notification, NOW)
    ensures states[6].occurrences["k"].meeting.summary != command.request.summary
  {
    var due := ListedAndDue();
    command := Emitted(due[2]);
    var gone;
    gone, states := DeletedAndListedAgain(due);
    assert states[2] == due[2] && states[3] == gone[3];
    EndsWith(states, DELETED_AND_LISTED_AGAIN, OnScreen(OTHER), [OTHER]);
  }

  lemma Emitted(s: State) returns (command: Command)
    requires Holds(s, Some(Pending(SOON)), [SOON])
    ensures NotifyEffect("k", command) in PendingEffects(s.occurrences, NOW, POLICY.lead)
    ensures command.NotifyCommand? && command.revision == 1 && command.request.summary == "one"
  {
    SelectionIsLeastReady(s.occurrences, NOW, POLICY.lead);
    assert NotificationReady(s.occurrences["k"], NOW, POLICY.lead);
    var e := NotificationEffectOf("k", Pending(SOON));
    assert OldestNotification(s.occurrences, NOW, POLICY.lead) == Some(e);
    command := e.command;
  }

  // ---- a stale delivery is acknowledged as persisted ----------------------------------------

  // For a key that never was, at the time the listed meeting starts.
  const STRAY := Event(2, Notice(Delivered("gone", "", 1, 9)))

  // An owner that runs on this state, between events.
  ghost function OwnerOf(s: State): Owner
    requires UniqueIds(s.occurrences)
  {
    Owner(s, s, IndexOf(s.occurrences), IndexOf(s.occurrences), 0, IDLE, [], NOW, true)
  }

  lemma StrayIsCommitted(s: State, config: Config)
    requires Holds(s, Some(Pending(SOON)), [SOON])
    ensures LoopInv(OwnerOf(s)) && !Answers(s, STRAY.payload.notification)
    ensures CommitOf(OwnerOf(s), STRAY, Saved, config.policy).Committed?
  {
    SoundIsNormal(s, NOW, POLICY.lead);
    assert s.occurrences["k"] == Pending(SOON);
    assert WellFormedEvent(s, STRAY);
    ReducerClosure(s, IndexOf(s.occurrences), STRAY, config.policy);
    PositiveAckMeans(OwnerOf(s), STRAY, config);
    assert AnyStarted(s, STRAY.at);
  }

  // A run after which a delivery that answers nothing is still acknowledged as
  // persisted: the only change of the step is that the pending meeting has started.
  lemma StaleYetPersistedExample(config: Config) returns (states: seq<State>)
    ensures IsRun(states, Inputs(DUE), POLICY) && UniqueIds(states[2].occurrences)
    ensures LoopInv(OwnerOf(states[2])) && !Answers(states[2], STRAY.payload.notification)
    ensures CommitOf(OwnerOf(states[2]), STRAY, Saved, config.policy).Committed?
  {
    states := ListedAndDue();
    EndsWith(states, DUE, Pending(SOON), [SOON]);
    StrayIsCommitted(states[2], config);
  }
}

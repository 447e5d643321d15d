// Guarantees over whole runs: any sequence of accepted events and restarts from
// the empty state whose times do not go backwards.
module Runs {
  import opened Wrappers
  import opened Meetings
  import opened Storage
  import opened Events
  import opened Expiry
  import opened Reconcile
  import opened ReducerNotifications
  import opened PollHealth
  import opened Scheduler
  import opened Reducer
  import opened Pointwise
  import opened Closure
  import opened Lifetimes

  datatype Input = Handled(event: Event) | Restarted(now: Time)

  function TimeOf(input: Input): Time {
    match input
    case Handled(e) => e.at
    case Restarted(now) => now
  }

  ghost predicate Accepts(s: State, input: Input, policy: Policy, next: State) {
    match input
    case Handled(e) =>
      && UniqueIds(s.occurrences)
      && Reduce(s, IndexOf(s.occurrences), e, policy).Ok?
      && next == Reduce(s, IndexOf(s.occurrences), e, policy).value.state
    case Restarted(now) => Startup(s, now) == Ok(next)
  }

  ghost predicate StepAt(states: seq<State>, inputs: seq<Input>, policy: Policy, i: nat)
    requires i < |inputs| && i + 1 < |states|
  {
    Accepts(states[i], inputs[i], policy, states[i + 1])
  }

  ghost predicate IsRun(states: seq<State>, inputs: seq<Input>, policy: Policy) {
    && |states| == |inputs| + 1
    && states[0] == EMPTY
    && (forall i: nat | i < |inputs| :: StepAt(states, inputs, policy, i))
    && (forall i, j | 0 <= i <= j < |inputs| :: TimeOf(inputs[i]) <= TimeOf(inputs[j]))
  }

  function ClockAt(inputs: seq<Input>, i: nat): Time
    requires i <= |inputs|
  {
    if i == 0 then 0 else TimeOf(inputs[i - 1])
  }

  // ---- the invariant ---------------------------------------------------------

  // A pending warning was raised at least a day after the last delivered one.
  ghost predicate SoundWarnings(s: State, t: Time) {
    && (forall a | a in s.authWarnings :: s.authWarnings[a] <= t)
    && (forall a | a in s.pendingAuthWarnings ::
          && s.pendingAuthWarnings[a].createdAt <= t
          && (a in s.authWarnings ==> s.authWarnings[a] + WARNING_INTERVAL <= s.pendingAuthWarnings[a].createdAt))
  }

  ghost predicate Sound(s: State, t: Time, lead: nat) {
    && Valid(s)
    && (forall k | k in s.occurrences :: SoundOne(s.occurrences[k], t, lead))
    && SoundWarnings(s, t)
  }

  // A sound state needs no normalization.
  lemma SoundIsNormal(s: State, t: Time, lead: nat)
    requires Sound(s, t, lead)
    ensures IsNormal(s) && Normalized(s) == s
  {
    forall k | k in s.occurrences
      ensures NormalizeOne(s.occurrences[k]) == s.occurrences[k]
    {
      assert SoundOne(s.occurrences[k], t, lead) && ValidOccurrence(s.occurrences[k]);
    }
    NormalizedIdempotent(s);
  }

  // The invariant is strictly stronger than validation.
  lemma ValidNeedNotBeSound(t: Time, lead: nat)
    ensures exists s :: Valid(s) && !Sound(s, t, lead)
  {
    var m := Meeting("k", "a", "", 0, 0, "", Origin("", "", "", "", 0));
    var o := NewOccurrence(m).(phase := NotifyPending, notifyRevision := 1);
    var s := EMPTY.(occurrences := map["k" := o]);
    assert ValidOccurrence(o) && !SoundOne(o, t, lead);
    assert s.occurrences["k"] == o;
    assert forall k | k in s.occurrences :: k == "k";
    assert ValidOccurrences(s.occurrences);
    assert Valid(s);
    assert !Sound(s, t, lead);
  }

  // What one step does to the warnings of one account.
  ghost predicate WarningFollows(s: State, next: State, a: Label, at: Time) {
    && RevisionOf(s, a) <= RevisionOf(next, a)
    && (Lookup(next.authWarnings, a) != Lookup(s.authWarnings, a) ==>
          && a in s.pendingAuthWarnings && a !in next.pendingAuthWarnings
          && a in next.authWarnings && next.authWarnings[a] == at)
    && (a in next.pendingAuthWarnings ==>
          || (a in s.pendingAuthWarnings
              && next.pendingAuthWarnings[a].revision == s.pendingAuthWarnings[a].revision
              && next.pendingAuthWarnings[a].createdAt == s.pendingAuthWarnings[a].createdAt)
          || (a !in s.pendingAuthWarnings
              && next.pendingAuthWarnings[a].revision == RevisionOf(s, a) + 1 == RevisionOf(next, a)
              && next.pendingAuthWarnings[a].createdAt == at
              && (a in s.authWarnings ==> s.authWarnings[a] + WARNING_INTERVAL <= at)))
  }

  lemma MovedWarnings(s: State, index: Index, e: Event, policy: Policy, a: Label)
    requires Transition(s, index, e, policy).Ok?
    ensures WarningFollows(s, Transition(s, index, e, policy).value, a, e.at)
  {
    if !TouchesWarnings(s, e) {
      WarningsUntouched(s, index, e, policy);
    } else if e.payload.Notice? {
      AnsweredWarningFollows(s, index, e.payload.notification, e.at, policy, a);
    } else {
      FailedPollFollows(s, e.payload.poll, e.payload.poll.error.value, e.at, a);
    }
  }

  lemma AnsweredWarningFollows(s: State, index: Index, n: Notification, at: Time, policy: Policy, a: Label)
    requires AnswersWarning(s, n)
    ensures WarningFollows(s, ApplyNotification(s, index, n, at, policy), a, at)
  {
  }

  lemma FailedPollFollows(s: State, poll: PollResult, kind: PollErrorKind, at: Time, a: Label)
    requires FailedPoll(s, poll, kind, at).Ok?
    ensures WarningFollows(s, FailedPoll(s, poll, kind, at).value, a, at)
  {
  }

  lemma WarningsStaySound(s: State, next: State, t: Time, at: Time)
    requires SoundWarnings(s, t) && t <= at
    requires forall a :: WarningFollows(s, next, a, at)
    ensures SoundWarnings(next, at)
  {
    forall a | a in next.authWarnings
      ensures next.authWarnings[a] <= at
    {
      assert WarningFollows(s, next, a, at);
    }
    forall a | a in next.pendingAuthWarnings
      ensures next.pendingAuthWarnings[a].createdAt <= at
      ensures a in next.authWarnings ==>
                next.authWarnings[a] + WARNING_INTERVAL <= next.pendingAuthWarnings[a].createdAt
    {
      assert WarningFollows(s, next, a, at);
    }
  }

  // One occurrence through one accepted event.
  lemma OccurrenceStep(s: State, t: Time, index: Index, e: Event, policy: Policy, k: Key)
    requires Sound(s, t, policy.lead) && t <= e.at && Reduce(s, index, e, policy).Ok?
    ensures var next := Reduce(s, index, e, policy).value.state;
            k in next.occurrences ==>
              && SoundOne(next.occurrences[k], e.at, policy.lead)
              && (k in s.occurrences ==> Follows(s.occurrences[k], next.occurrences[k]))
              && (k !in s.occurrences ==> next.occurrences[k].phase == Scheduled)
  {
    SoundIsNormal(s, t, policy.lead);
    NextAt(s, index, e, policy, k);
    MovedGood(s, index, e, policy, k);
    SettleGood(Lookup(s.occurrences, k), MovedOne(s, index, e, policy, k), e.at, policy.lead);
  }

  // The invariant is inductive.
  lemma SoundStep(s: State, t: Time, index: Index, e: Event, policy: Policy)
    requires Sound(s, t, policy.lead) && t <= e.at && Reduce(s, index, e, policy).Ok?
    ensures Sound(Reduce(s, index, e, policy).value.state, e.at, policy.lead)
    ensures forall a :: WarningFollows(s, Reduce(s, index, e, policy).value.state, a, e.at)
  {
    SoundIsNormal(s, t, policy.lead);
    var next := Reduce(s, index, e, policy).value.state;
    forall k | k in next.occurrences
      ensures SoundOne(next.occurrences[k], e.at, policy.lead)
    {
      OccurrenceStep(s, t, index, e, policy, k);
    }
    var moved := Transition(s, index, e, policy).value;
    forall a
      ensures WarningFollows(s, next, a, e.at)
    {
      MovedWarnings(s, index, e, policy, a);
      assert WarningFollows(s, moved, a, e.at);
    }
    WarningsStaySound(s, next, t, e.at);
  }

  lemma ExpireSound(o: Occurrence, t: Time, now: Time, lead: nat)
    requires SoundOne(o, t, lead) && t <= now
    ensures var next := ExpireOne(o, now);
            next.Some? ==> SoundOne(next.value, now, lead) && Follows(o, next.value)
  {
  }

  lemma SoundRestart(s: State, t: Time, now: Time, lead: nat)
    requires Sound(s, t, lead) && t <= now
    ensures Startup(s, now) == Ok(Settled(s, now)) && Sound(Settled(s, now), now, lead)
    ensures forall a :: WarningFollows(s, Settled(s, now), a, now)
  {
    SoundIsNormal(s, t, lead);
    SettledIsValid(s.occurrences, now);
    var next := Settled(s, now);
    forall a | a in next.pendingAuthWarnings
      ensures ValidWarning(next, a)
    {
      assert ValidWarning(s, a);
    }
    forall k | k in next.occurrences
      ensures SoundOne(next.occurrences[k], now, lead)
    {
      ExpireSound(s.occurrences[k], t, now, lead);
    }
    assert forall a :: WarningFollows(s, next, a, now);
    WarningsStaySound(s, next, t, now);
  }

  // One step of a run, whichever kind it is.
  lemma SoundInput(s: State, t: Time, input: Input, policy: Policy, next: State)
    requires Sound(s, t, policy.lead) && t <= TimeOf(input) && Accepts(s, input, policy, next)
    ensures Sound(next, TimeOf(input), policy.lead)
    ensures forall a :: WarningFollows(s, next, a, TimeOf(input))
  {
    match input {
      case Handled(e) => SoundStep(s, t, IndexOf(s.occurrences), e, policy);
      case Restarted(now) => SoundRestart(s, t, now, policy.lead);
    }
  }

  lemma OccurrenceInput(s: State, t: Time, input: Input, policy: Policy, next: State, k: Key)
    requires Sound(s, t, policy.lead) && t <= TimeOf(input) && Accepts(s, input, policy, next)
    requires k in s.occurrences && k in next.occurrences
    ensures Follows(s.occurrences[k], next.occurrences[k])
  {
    match input {
      case Handled(e) => OccurrenceStep(s, t, IndexOf(s.occurrences), e, policy, k);
      case Restarted(now) =>
        SoundRestart(s, t, now, policy.lead);
        ExpireSound(s.occurrences[k], t, now, policy.lead);
    }
  }

  // Every reachable state is sound at the time of its last event.
  lemma {:induction false} RunsAreSound(states: seq<State>, inputs: seq<Input>, policy: Policy, i: nat)
    requires IsRun(states, inputs, policy) && i <= |inputs|
    ensures Sound(states[i], ClockAt(inputs, i), policy.lead)
  {
    if i > 0 {
      RunsAreSound(states, inputs, policy, i - 1);
      assert StepAt(states, inputs, policy, i - 1);
      assert i > 1 ==> TimeOf(inputs[i - 2]) <= TimeOf(inputs[i - 1]);
      SoundInput(states[i - 1], ClockAt(inputs, i - 1), inputs[i - 1], policy, states[i]);
    }
  }

  // Step j of a run starts from a sound state, not after its own time.
  lemma RunStep(states: seq<State>, inputs: seq<Input>, policy: Policy, j: nat)
    requires IsRun(states, inputs, policy) && j < |inputs|
    ensures Sound(states[j], ClockAt(inputs, j), policy.lead)
    ensures ClockAt(inputs, j) <= TimeOf(inputs[j])
    ensures Accepts(states[j], inputs[j], policy, states[j + 1])
  {
    RunsAreSound(states, inputs, policy, j);
    assert StepAt(states, inputs, policy, j);
    assert j > 0 ==> TimeOf(inputs[j - 1]) <= TimeOf(inputs[j]);
  }

  // ---- lifetimes --------------------------------------------------------------

  ghost predicate LivesThrough(states: seq<State>, k: Key, i: nat, j: nat)
    requires i <= j < |states|
  {
    forall m | i <= m <= j :: k in states[m].occurrences
  }

  lemma StepFollows(states: seq<State>, inputs: seq<Input>, policy: Policy, k: Key, j: nat)
    requires IsRun(states, inputs, policy) && j < |inputs|
    requires k in states[j].occurrences && k in states[j + 1].occurrences
    ensures Follows(states[j].occurrences[k], states[j + 1].occurrences[k])
  {
    RunStep(states, inputs, policy, j);
    OccurrenceInput(states[j], ClockAt(inputs, j), inputs[j], policy, states[j + 1], k);
  }

  // While a key stays in the map its revisions never decrease and what is
  // pending under one revision keeps its content.
  lemma {:induction false} LifetimeFollows(states: seq<State>, inputs: seq<Input>, policy: Policy, k: Key, i: nat,
                                           j: nat)
    requires IsRun(states, inputs, policy) && i <= j <= |inputs| && LivesThrough(states, k, i, j)
    ensures i < j ==> Follows(states[i].occurrences[k], states[j].occurrences[k])
    decreases j
  {
    if i < j {
      StepFollows(states, inputs, policy, k, j - 1);
      if i < j - 1 {
        LifetimeFollows(states, inputs, policy, k, i, j - 1);
        FollowsTransitive(states[i].occurrences[k], states[j - 1].occurrences[k], states[j].occurrences[k]);
      }
    }
  }

  // Stale deliveries: a notify command emitted at state i, and a delivery with
  // its revision accepted at state j of the same lifetime, speak of the same
  // content, and the accepted occurrence still shows what the command showed.
  lemma AcceptedDeliveryIsCurrent(states: seq<State>, inputs: seq<Input>, policy: Policy,
                                  k: Key, i: nat, j: nat, command: Command, n: Notification)
    requires IsRun(states, inputs, policy) && i <= j < |inputs| && LivesThrough(states, k, i, j)
    requires NotifyEffect(k, command) in PendingEffects(states[i].occurrences, ClockAt(inputs, i), policy.lead)
    requires inputs[j].Handled? && inputs[j].event.payload == Notice(n)
    requires n.Delivered? && n.account == "" && n.key == k && n.revision == command.revision
    requires DeliveryMatches(states[j].occurrences[k], n.revision)
    ensures ContentOf(states[j].occurrences[k].meeting) == ContentOf(states[i].occurrences[k].meeting)
    ensures k in states[j + 1].occurrences
            && states[j + 1].occurrences[k].phase == Notified
            && states[j + 1].occurrences[k].notificationId == n.id
            && states[j + 1].occurrences[k].meeting == states[j].occurrences[k].meeting
    ensures command.request.summary == states[j + 1].occurrences[k].meeting.summary
            && command.request.body == MeetingBody(states[j + 1].occurrences[k].meeting.accountLabel,
                                                   states[j + 1].occurrences[k].meeting.start)
  {
    EmittedIsPending(states[i].occurrences, ClockAt(inputs, i), policy.lead, k, command);
    LifetimeFollows(states, inputs, policy, k, i, j);
    RunStep(states, inputs, policy, j);
    DeliveryRecorded(states[j], ClockAt(inputs, j), inputs[j].event, policy);
  }

  // A delivery for the current revision is recorded, with its id.
  lemma DeliveryRecorded(s: State, t: Time, e: Event, policy: Policy)
    requires Sound(s, t, policy.lead) && IsMatchingDelivery(s, e)
    requires Reduce(s, IndexOf(s.occurrences), e, policy).Ok?
    ensures var k := e.payload.notification.key;
            var next := Reduce(s, IndexOf(s.occurrences), e, policy).value.state.occurrences;
            && k in next && next[k].phase == Notified
            && next[k].notificationId == e.payload.notification.id
            && next[k].meeting == s.occurrences[k].meeting
  {
    SoundIsNormal(s, t, policy.lead);
    NextAt(s, IndexOf(s.occurrences), e, policy, e.payload.notification.key);
  }

  lemma EmittedIsPending(occurrences: map<Key, Occurrence>, at: Time, lead: nat, k: Key, command: Command)
    requires NotifyEffect(k, command) in PendingEffects(occurrences, at, lead)
    ensures k in occurrences && occurrences[k].phase == NotifyPending
    ensures NotifyEffect(k, command) == NotificationEffectOf(k, occurrences[k])
  {
    var notification := OldestNotification(occurrences, at, lead);
    assert notification == Some(NotifyEffect(k, command));
    var least := Least(ReadyNotifications(occurrences, at, lead)).name;
    assert least in occurrences && NotificationReady(occurrences[least], at, lead);
  }

  // The same for launches: the URL and account a launch result answers for are
  // those of the launch command with its revision.
  lemma AcceptedLaunchIsCurrent(states: seq<State>, inputs: seq<Input>, policy: Policy,
                                k: Key, i: nat, j: nat, url: string, account: Label, revision: Revision)
    requires IsRun(states, inputs, policy) && i <= j <= |inputs| && LivesThrough(states, k, i, j)
    requires LaunchEffect(k, url, account, revision)
               in PendingEffects(states[i].occurrences, ClockAt(inputs, i), policy.lead)
    requires states[j].occurrences[k].phase == JoinPending && states[j].occurrences[k].joinRevision == revision
    ensures states[j].occurrences[k].meeting.url == url && states[j].occurrences[k].meeting.accountLabel == account
  {
    var occurrences := states[i].occurrences;
    assert OldestLaunch(occurrences) == Some(LaunchEffect(k, url, account, revision));
    var least := Least(ReadyLaunches(occurrences)).name;
    assert least in occurrences && occurrences[least].phase == JoinPending;
    LifetimeFollows(states, inputs, policy, k, i, j);
  }

  // ---- authorization warnings ---------------------------------------------------

  // Input i delivers the pending warning of account a.
  ghost predicate DeliversWarning(states: seq<State>, inputs: seq<Input>, i: nat, a: Label) {
    && i < |inputs| && i < |states|
    && inputs[i].Handled? && inputs[i].event.payload.Notice?
    && inputs[i].event.payload.notification.Delivered?
    && inputs[i].event.payload.notification.account == a
    && AnswersWarning(states[i], inputs[i].event.payload.notification)
  }

  // Since some time and some revision a warning has been delivered, and what is
  // pending now is newer.
  ghost predicate DeliveredSince(s: State, a: Label, time: Time, revision: Revision) {
    && a in s.authWarnings && time <= s.authWarnings[a]
    && revision <= RevisionOf(s, a)
    && (a in s.pendingAuthWarnings ==> revision < s.pendingAuthWarnings[a].revision)
  }

  lemma DeliveredSinceKept(s: State, next: State, a: Label, at: Time, time: Time, revision: Revision)
    requires WarningFollows(s, next, a, at) && DeliveredSince(s, a, time, revision) && time <= at
    ensures DeliveredSince(next, a, time, revision)
  {
  }

  lemma {:induction false} AfterWarning(states: seq<State>, inputs: seq<Input>, policy: Policy, a: Label, i: nat,
                                        j: nat)
    requires IsRun(states, inputs, policy) && i < j <= |inputs| && DeliversWarning(states, inputs, i, a)
    ensures DeliveredSince(states[j], a, TimeOf(inputs[i]), inputs[i].event.payload.notification.revision)
    decreases j
  {
    var s := states[j - 1];
    RunStep(states, inputs, policy, j - 1);
    if i < j - 1 {
      AfterWarning(states, inputs, policy, a, i, j - 1);
      SoundInput(s, ClockAt(inputs, j - 1), inputs[j - 1], policy, states[j]);
      assert TimeOf(inputs[i]) <= TimeOf(inputs[j - 1]);
      DeliveredSinceKept(s, states[j], a, TimeOf(inputs[j - 1]), TimeOf(inputs[i]),
                         inputs[i].event.payload.notification.revision);
    } else {
      SoundIsNormal(s, ClockAt(inputs, i), policy.lead);
      assert ValidWarning(s, a);
      DeliveredWarning(s, IndexOf(s.occurrences), inputs[i].event, policy);
    }
  }

  lemma DeliveredWarning(s: State, index: Index, e: Event, policy: Policy)
    requires IsNormal(s) && Reduce(s, index, e, policy).Ok?
    requires e.payload.Notice? && e.payload.notification.Delivered? && AnswersWarning(s, e.payload.notification)
    ensures var next := Reduce(s, index, e, policy).value.state;
            var a := e.payload.notification.account;
            && a !in next.pendingAuthWarnings && Lookup(next.authWarnings, a) == Some(e.at)
            && RevisionOf(next, a) == RevisionOf(s, a)
  {
    NormalizedIdempotent(s);
    assert Transition(s, index, e, policy) == Ok(ApplyNotification(s, index, e.payload.notification, e.at, policy));
  }

  // Two accepted warnings of one account are a day apart and carry growing
  // revisions, so no revision is accepted twice.
  lemma WarningsAreRateLimited(states: seq<State>, inputs: seq<Input>, policy: Policy, a: Label, i: nat, j: nat)
    requires IsRun(states, inputs, policy) && i < j
    requires DeliversWarning(states, inputs, i, a) && DeliversWarning(states, inputs, j, a)
    ensures TimeOf(inputs[i]) + WARNING_INTERVAL <= TimeOf(inputs[j])
    ensures inputs[i].event.payload.notification.revision < inputs[j].event.payload.notification.revision
  {
    AfterWarning(states, inputs, policy, a, i, j);
    RunsAreSound(states, inputs, policy, j);
    assert j > 0 ==> TimeOf(inputs[j - 1]) <= TimeOf(inputs[j]);
  }
}

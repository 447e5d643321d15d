// With time standing still, workers that succeed and no new polls or signals,
// every completed piece of work brings the owner closer to having none.
module Draining {
  import opened Wrappers
  import opened Meetings
  import opened Storage
  import opened Events
  import opened Expiry
  import opened Reconcile
  import opened ReducerNotifications
  import opened PollHealth
  import opened Scheduler
  import opened Reducer
  import opened Pointwise
  import opened Closure
  import opened Lifetimes
  import opened Runs
  import opened Finality

  // ---- ready work and its completion --------------------------------------

  ghost predicate HasReadyWork(s: State, t: Time, lead: nat) {
    || AnyDue(s.occurrences, t, lead)
    || OldestNotification(s.occurrences, t, lead).Some?
    || OldestLaunch(s.occurrences).Some?
    || OldestWarning(s.pendingAuthWarnings, t).Some?
  }

  // The event a worker sends when it succeeds at a piece of ready work.
  ghost predicate Completes(s: State, e: Event, t: Time, lead: nat) {
    && e.at == t
    && match e.payload
       case ActivityDone(eligible, _, _) => eligible && AnyDue(s.occurrences, t, lead)
       case LaunchDone(k, account, revision, failed) =>
         !failed && OldestLaunch(s.occurrences).Some?
         && OldestLaunch(s.occurrences).value.LaunchEffect?
         && OldestLaunch(s.occurrences).value.key == k
         && OldestLaunch(s.occurrences).value.joinRevision == revision
       case Notice(n) =>
         (match n
          case Delivered(k, account, revision, id) =>
            if account == "" then
              && OldestNotification(s.occurrences, t, lead).Some?
              && OldestNotification(s.occurrences, t, lead).value.NotifyEffect?
              && OldestNotification(s.occurrences, t, lead).value.command.NotifyCommand?
              && k == OldestNotification(s.occurrences, t, lead).value.command.key
              && revision == OldestNotification(s.occurrences, t, lead).value.command.revision
            else
              && OldestWarning(s.pendingAuthWarnings, t).Some?
              && OldestWarning(s.pendingAuthWarnings, t).value == WarningEffectOf(account, revision)
          case CommandCompleted(k, id) =>
            OldestNotification(s.occurrences, t, lead) == Some(CloseEffect(k, CloseCommand(k, id)))
          case Failed(_, _, _, _) => false
          case SignalReceived(_) => false)
       case Tick => false
       case PollDone(_) => false
       case Malformed => false
  }

  // ---- the measure -----------------------------------------------------------

  function Burden(slot: Slot, t: Time, lead: nat): nat {
    match slot
    case None => 0
    case Some(o) =>
      match o.phase
      case ClosePending => if o.resumePhase != NoPhase then 4 else 1
      case Scheduled => if Due(o.meeting, t, lead) then 3 else 0
      case NotifyPending => 2
      case JoinPending => 1
      case _ => 0
  }

  ghost function TotalBurden(keys: set<Key>, occurrences: map<Key, Occurrence>, t: Time, lead: nat): nat {
    if keys == {} then 0
    else
      var k :| k in keys;
      Burden(Lookup(occurrences, k), t, lead) + TotalBurden(keys - {k}, occurrences, t, lead)
  }

  lemma {:induction false} BurdenWithout(keys: set<Key>, k: Key, occurrences: map<Key, Occurrence>, t: Time, lead: nat)
    requires k in keys
    ensures TotalBurden(keys, occurrences, t, lead)
            == Burden(Lookup(occurrences, k), t, lead) + TotalBurden(keys - {k}, occurrences, t, lead)
    decreases keys
  {
    var j :| j in keys && TotalBurden(keys, occurrences, t, lead)
                          == Burden(Lookup(occurrences, j), t, lead) + TotalBurden(keys - {j}, occurrences, t, lead);
    if j != k {
      BurdenWithout(keys - {j}, k, occurrences, t, lead);
      BurdenWithout(keys - {k}, j, occurrences, t, lead);
      assert keys - {j} - {k} == keys - {k} - {j};
    }
  }

  lemma {:induction false} BurdenBounded(keys: set<Key>, occurrences: map<Key, Occurrence>, t: Time, lead: nat)
    ensures TotalBurden(keys, occurrences, t, lead) <= 4 * |keys|
    decreases keys
  {
    if keys != {} {
      var k :| k in keys;
      BurdenWithout(keys, k, occurrences, t, lead);
      BurdenBounded(keys - {k}, occurrences, t, lead);
    }
  }

  lemma {:induction false} BurdenMonotone(keys: set<Key>, before: map<Key, Occurrence>, after: map<Key, Occurrence>,
                                          t: Time, lead: nat)
    requires forall k | k in keys :: Burden(Lookup(after, k), t, lead) <= Burden(Lookup(before, k), t, lead)
    ensures TotalBurden(keys, after, t, lead) <= TotalBurden(keys, before, t, lead)
    decreases keys
  {
    if keys != {} {
      var k :| k in keys;
      BurdenWithout(keys, k, before, t, lead);
      BurdenWithout(keys, k, after, t, lead);
      BurdenMonotone(keys - {k}, before, after, t, lead);
    }
  }

  lemma BurdenDrops(keys: set<Key>, before: map<Key, Occurrence>, after: map<Key, Occurrence>, t: Time, lead: nat,
                    k: Key)
    requires forall j | j in keys :: Burden(Lookup(after, j), t, lead) <= Burden(Lookup(before, j), t, lead)
    requires k in keys && Burden(Lookup(after, k), t, lead) < Burden(Lookup(before, k), t, lead)
    ensures TotalBurden(keys, after, t, lead) < TotalBurden(keys, before, t, lead)
  {
    BurdenWithout(keys, k, before, t, lead);
    BurdenWithout(keys, k, after, t, lead);
    BurdenMonotone(keys - {k}, before, after, t, lead);
  }

  // Work left: the burden of the occurrences and the warnings still pending.
  ghost function WorkLeft(keys: set<Key>, s: State, t: Time, lead: nat): nat {
    TotalBurden(keys, s.occurrences, t, lead) + |s.pendingAuthWarnings|
  }

  // ---- one completion ---------------------------------------------------------

  // No completion makes any occurrence heavier.
  lemma CompletionNeverAdds(s: State, index: Index, e: Event, policy: Policy, k: Key)
    requires Sound(s, e.at, policy.lead) && Completes(s, e, e.at, policy.lead)
    ensures Burden(NextOne(s, index, e, policy, k), e.at, policy.lead)
            <= Burden(Lookup(s.occurrences, k), e.at, policy.lead)
  {
    if k in s.occurrences {
      assert SoundOne(s.occurrences[k], e.at, policy.lead) && ValidOccurrence(s.occurrences[k]);
      if e.payload.Notice? {
        NoticeNeverAdds(s.occurrences[k], e.payload.notification, e.at, policy);
      }
    }
  }

  lemma NoticeNeverAdds(o: Occurrence, n: Notification, at: Time, policy: Policy)
    requires ValidOccurrence(o) && SoundOne(o, at, policy.lead)
    requires n.Delivered? || n.CommandCompleted?
    ensures Burden(SettledOne(NotificationOne(o, n, at, policy), at), at, policy.lead)
              <= Burden(Some(o), at, policy.lead)
  {
  }

  lemma ActivityLightens(s: State, index: Index, e: Event, policy: Policy) returns (k: Key)
    requires e.payload.ActivityDone? && Completes(s, e, e.at, policy.lead)
    requires !PromotionExhausted(s.occurrences, e.at, policy.lead)
    ensures k in s.occurrences
    ensures Burden(NextOne(s, index, e, policy, k), e.at, policy.lead)
            < Burden(Lookup(s.occurrences, k), e.at, policy.lead)
  {
    k :| k in s.occurrences && s.occurrences[k].phase == Scheduled && Due(s.occurrences[k].meeting, e.at, policy.lead);
    assert Promotes(s.occurrences[k], e.at, policy.lead);
  }

  lemma LaunchLightens(s: State, index: Index, e: Event, policy: Policy) returns (k: Key)
    requires e.payload.LaunchDone? && Completes(s, e, e.at, policy.lead)
    ensures k in s.occurrences
    ensures Burden(NextOne(s, index, e, policy, k), e.at, policy.lead)
            < Burden(Lookup(s.occurrences, k), e.at, policy.lead)
  {
    k := Least(ReadyLaunches(s.occurrences)).name;
    assert k in s.occurrences && s.occurrences[k].phase == JoinPending;
  }

  lemma ReportLightens(s: State, index: Index, e: Event, policy: Policy) returns (k: Key)
    requires Sound(s, e.at, policy.lead) && e.payload.Notice? && Completes(s, e, e.at, policy.lead)
    requires !(e.payload.notification.Delivered? && e.payload.notification.account != "")
    ensures k in s.occurrences
    ensures Burden(NextOne(s, index, e, policy, k), e.at, policy.lead)
            < Burden(Lookup(s.occurrences, k), e.at, policy.lead)
  {
    var n := e.payload.notification;
    k := Least(ReadyNotifications(s.occurrences, e.at, policy.lead)).name;
    assert k in s.occurrences && NotificationReady(s.occurrences[k], e.at, policy.lead);
    assert SoundOne(s.occurrences[k], e.at, policy.lead) && ValidOccurrence(s.occurrences[k]);
    assert !AnswersWarning(s, n) && Target(n, index) == Some(k);
    NoticeLightens(s.occurrences[k], n, e.at, policy);
  }

  // The occurrence a completion is about gets strictly lighter.
  lemma CompletionLightens(s: State, index: Index, e: Event, policy: Policy) returns (k: Key)
    requires Sound(s, e.at, policy.lead) && Completes(s, e, e.at, policy.lead)
    requires Transition(s, index, e, policy).Ok?
    requires !(e.payload.Notice? && e.payload.notification.Delivered? && e.payload.notification.account != "")
    ensures k in s.occurrences
    ensures Burden(NextOne(s, index, e, policy, k), e.at, policy.lead)
            < Burden(Lookup(s.occurrences, k), e.at, policy.lead)
  {
    match e.payload {
      case ActivityDone(_, _, _) => k := ActivityLightens(s, index, e, policy);
      case LaunchDone(_, _, _, _) => k := LaunchLightens(s, index, e, policy);
      case Notice(_) => k := ReportLightens(s, index, e, policy);
    }
  }

  lemma NoticeLightens(o: Occurrence, n: Notification, at: Time, policy: Policy)
    requires ValidOccurrence(o) && SoundOne(o, at, policy.lead) && NotificationReady(o, at, policy.lead)
    requires (o.phase == NotifyPending && n.Delivered? && n.revision == o.notifyRevision)
             || (o.phase == ClosePending && n.CommandCompleted? && n.id == o.notificationId)
    ensures Burden(SettledOne(NotificationOne(o, n, at, policy), at), at, policy.lead)
              < Burden(Some(o), at, policy.lead)
  {
  }

  lemma WarningLightens(s: State, index: Index, e: Event, policy: Policy)
    requires Sound(s, e.at, policy.lead) && Completes(s, e, e.at, policy.lead)
    requires Reduce(s, index, e, policy).Ok?
    requires e.payload.Notice? && e.payload.notification.Delivered? && e.payload.notification.account != ""
    ensures |Reduce(s, index, e, policy).value.state.pendingAuthWarnings| < |s.pendingAuthWarnings|
  {
    SoundIsNormal(s, e.at, policy.lead);
    var a := e.payload.notification.account;
    var least := Least(ReadyWarnings(s.pendingAuthWarnings, e.at));
    assert least in ReadyWarnings(s.pendingAuthWarnings, e.at);
    assert AnswersWarning(s, e.payload.notification);
    assert Transition(s, index, e, policy) == Ok(ApplyNotification(s, index, e.payload.notification, e.at, policy));
    var after := s.pendingAuthWarnings - {a};
    assert after.Keys == s.pendingAuthWarnings.Keys - {a};
    assert |after| == |after.Keys| && |s.pendingAuthWarnings| == |s.pendingAuthWarnings.Keys|;
  }

  lemma CompletionTouchesNoOtherWarnings(s: State, index: Index, e: Event, policy: Policy)
    requires Sound(s, e.at, policy.lead) && Completes(s, e, e.at, policy.lead)
    requires Reduce(s, index, e, policy).Ok?
    requires !(e.payload.Notice? && e.payload.notification.Delivered? && e.payload.notification.account != "")
    ensures Reduce(s, index, e, policy).value.state.pendingAuthWarnings == s.pendingAuthWarnings
  {
    SoundIsNormal(s, e.at, policy.lead);
    WarningsUntouched(s, index, e, policy);
  }

  lemma NextNotHeavier(s: State, index: Index, e: Event, policy: Policy, k: Key)
    requires Sound(s, e.at, policy.lead) && Completes(s, e, e.at, policy.lead)
    requires Reduce(s, index, e, policy).Ok?
    ensures var next := Lookup(Reduce(s, index, e, policy).value.state.occurrences, k);
            && next == NextOne(s, index, e, policy, k)
            && Burden(next, e.at, policy.lead) <= Burden(Lookup(s.occurrences, k), e.at, policy.lead)
            && (next.Some? ==> k in s.occurrences)
  {
    SoundIsNormal(s, e.at, policy.lead);
    NormalNextAt(s, index, e, policy, k);
    CompletionNeverAdds(s, index, e, policy, k);
  }

  lemma AcceptedTransition(s: State, index: Index, e: Event, policy: Policy)
    requires Sound(s, e.at, policy.lead) && Reduce(s, index, e, policy).Ok?
    ensures Transition(s, index, e, policy).Ok?
  {
    SoundIsNormal(s, e.at, policy.lead);
    NormalNextAt(s, index, e, policy, "");
  }

  // Lighter somewhere and heavier nowhere, or a warning fewer.
  lemma LessWork(keys: set<Key>, s: State, next: State, t: Time, lead: nat, lighter: Option<Key>)
    requires forall k :: Burden(Lookup(next.occurrences, k), t, lead) <= Burden(Lookup(s.occurrences, k), t, lead)
    requires match lighter
             case Some(k) =>
               && k in keys && next.pendingAuthWarnings == s.pendingAuthWarnings
               && Burden(Lookup(next.occurrences, k), t, lead) < Burden(Lookup(s.occurrences, k), t, lead)
             case None => |next.pendingAuthWarnings| < |s.pendingAuthWarnings|
    ensures WorkLeft(keys, next, t, lead) < WorkLeft(keys, s, t, lead)
  {
    if lighter.Some? {
      BurdenDrops(keys, s.occurrences, next.occurrences, t, lead, lighter.value);
    } else {
      BurdenMonotone(keys, s.occurrences, next.occurrences, t, lead);
    }
  }

  lemma NothingHeavier(s: State, index: Index, e: Event, policy: Policy)
    requires Sound(s, e.at, policy.lead) && Completes(s, e, e.at, policy.lead)
    requires Reduce(s, index, e, policy).Ok?
    ensures var next := Reduce(s, index, e, policy).value.state.occurrences;
            && next.Keys <= s.occurrences.Keys
            && forall k ::
                 Burden(Lookup(next, k), e.at, policy.lead) <= Burden(Lookup(s.occurrences, k), e.at, policy.lead)
  {
    var next := Reduce(s, index, e, policy).value.state.occurrences;
    forall k
      ensures Burden(Lookup(next, k), e.at, policy.lead) <= Burden(Lookup(s.occurrences, k), e.at, policy.lead)
      ensures k in next ==> k in s.occurrences
    {
      NextNotHeavier(s, index, e, policy, k);
    }
  }

  // What a completion lightens: an occurrence, or the warnings.
  lemma SomethingLighter(s: State, index: Index, e: Event, policy: Policy) returns (lighter: Option<Key>)
    requires Sound(s, e.at, policy.lead) && Completes(s, e, e.at, policy.lead)
    requires Reduce(s, index, e, policy).Ok?
    ensures var next := Reduce(s, index, e, policy).value.state;
            match lighter
            case Some(k) =>
              && k in s.occurrences && next.pendingAuthWarnings == s.pendingAuthWarnings
              && Burden(Lookup(next.occurrences, k), e.at, policy.lead)
                   < Burden(Lookup(s.occurrences, k), e.at, policy.lead)
            case None => |next.pendingAuthWarnings| < |s.pendingAuthWarnings|
  {
    if e.payload.Notice? && e.payload.notification.Delivered? && e.payload.notification.account != "" {
      WarningLightens(s, index, e, policy);
      lighter := None;
    } else {
      CompletionTouchesNoOtherWarnings(s, index, e, policy);
      AcceptedTransition(s, index, e, policy);
      var k := CompletionLightens(s, index, e, policy);
      NextNotHeavier(s, index, e, policy, k);
      lighter := Some(k);
    }
  }

  // Each completion that finds ready work strictly lowers the work left.
  lemma CompletionProgress(keys: set<Key>, s: State, index: Index, e: Event, policy: Policy)
    requires Sound(s, e.at, policy.lead) && Completes(s, e, e.at, policy.lead)
    requires s.occurrences.Keys <= keys
    requires Reduce(s, index, e, policy).Ok?
    ensures var next := Reduce(s, index, e, policy).value.state;
            && WorkLeft(keys, next, e.at, policy.lead) < WorkLeft(keys, s, e.at, policy.lead)
            && next.occurrences.Keys <= keys
            && Sound(next, e.at, policy.lead)
  {
    SoundStep(s, e.at, index, e, policy);
    NothingHeavier(s, index, e, policy);
    var lighter := SomethingLighter(s, index, e, policy);
    LessWork(keys, s, Reduce(s, index, e, policy).value.state, e.at, policy.lead, lighter);
  }

  // ---- draining ---------------------------------------------------------------

  ghost predicate Drains(s: State, e: Event, next: State, t: Time, policy: Policy) {
    && Completes(s, e, t, policy.lead)
    && Accepts(s, Handled(e), policy, next)
  }

  ghost predicate DrainsAt(states: seq<State>, events: seq<Event>, t: Time, policy: Policy, i: nat)
    requires i < |events| && i + 1 < |states|
  {
    Drains(states[i], events[i], states[i + 1], t, policy)
  }

  ghost predicate IsDrain(states: seq<State>, events: seq<Event>, t: Time, policy: Policy) {
    && |states| == |events| + 1
    && forall i: nat | i < |events| :: DrainsAt(states, events, t, policy, i)
  }

  lemma DrainStep(keys: set<Key>, s: State, e: Event, next: State, t: Time, policy: Policy)
    requires Drains(s, e, next, t, policy) && Sound(s, t, policy.lead) && s.occurrences.Keys <= keys
    ensures Sound(next, t, policy.lead) && next.occurrences.Keys <= keys
    ensures WorkLeft(keys, next, t, policy.lead) < WorkLeft(keys, s, t, policy.lead)
  {
    CompletionProgress(keys, s, IndexOf(s.occurrences), e, policy);
  }

  lemma DrainStepAt(states: seq<State>, events: seq<Event>, t: Time, policy: Policy, keys: set<Key>, i: nat)
    requires IsDrain(states, events, t, policy) && i < |events|
    requires Sound(states[i], t, policy.lead) && states[i].occurrences.Keys <= keys
    ensures Sound(states[i + 1], t, policy.lead) && states[i + 1].occurrences.Keys <= keys
    ensures WorkLeft(keys, states[i + 1], t, policy.lead) < WorkLeft(keys, states[i], t, policy.lead)
  {
    assert DrainsAt(states, events, t, policy, i);
    DrainStep(keys, states[i], events[i], states[i + 1], t, policy);
  }

  lemma {:induction false} DrainSound(states: seq<State>, events: seq<Event>, t: Time, policy: Policy, i: nat)
    requires IsDrain(states, events, t, policy) && i <= |events|
    requires Sound(states[0], t, policy.lead)
    ensures Sound(states[i], t, policy.lead) && states[i].occurrences.Keys <= states[0].occurrences.Keys
  {
    if i > 0 {
      DrainSound(states, events, t, policy, i - 1);
      DrainStepAt(states, events, t, policy, states[0].occurrences.Keys, i - 1);
    }
  }

  lemma DrainLowers(states: seq<State>, events: seq<Event>, t: Time, policy: Policy, i: nat)
    requires IsDrain(states, events, t, policy) && i < |events|
    requires Sound(states[0], t, policy.lead)
    ensures var keys := states[0].occurrences.Keys;
            WorkLeft(keys, states[i + 1], t, policy.lead) < WorkLeft(keys, states[i], t, policy.lead)
  {
    DrainSound(states, events, t, policy, i);
    DrainStepAt(states, events, t, policy, states[0].occurrences.Keys, i);
  }

  lemma {:induction false} FallingIsShort(work: seq<nat>)
    requires work != [] && forall i | 0 <= i < |work| - 1 :: work[i + 1] < work[i]
    ensures |work| <= work[0] + 1
  {
    if |work| > 1 {
      FallingIsShort(work[1..]);
    }
  }

  lemma DrainBound(states: seq<State>, events: seq<Event>, t: Time, policy: Policy)
    requires IsDrain(states, events, t, policy) && Sound(states[0], t, policy.lead)
    ensures |events| <= WorkLeft(states[0].occurrences.Keys, states[0], t, policy.lead)
  {
    var keys := states[0].occurrences.Keys;
    var work: seq<nat> := seq(|states|, i requires 0 <= i < |states| => WorkLeft(keys, states[i], t, policy.lead));
    forall i | 0 <= i < |work| - 1
      ensures work[i + 1] < work[i]
    {
      DrainLowers(states, events, t, policy, i);
    }
    FallingIsShort(work);
  }

  // A drain takes at most four steps per occurrence and one per pending warning.
  lemma DrainTerminates(states: seq<State>, events: seq<Event>, t: Time, policy: Policy)
    requires IsDrain(states, events, t, policy) && Sound(states[0], t, policy.lead)
    ensures |events| <= 4 * |states[0].occurrences| + |states[0].pendingAuthWarnings|
  {
    DrainBound(states, events, t, policy);
    WorkBounded(states[0], t, policy.lead);
  }

  lemma WorkBounded(s: State, t: Time, lead: nat)
    ensures WorkLeft(s.occurrences.Keys, s, t, lead) <= 4 * |s.occurrences| + |s.pendingAuthWarnings|
  {
    BurdenBounded(s.occurrences.Keys, s.occurrences, t, lead);
    assert |s.occurrences| == |s.occurrences.Keys|;
  }

  lemma CompletionAtHand(s: State, t: Time, policy: Policy, id: NotificationId) returns (e: Event)
    requires Sound(s, t, policy.lead) && t != 0 && HasReadyWork(s, t, policy.lead)
    requires PromotionsLeft(s.occurrences)
    requires id != 0 && forall k | k in s.occurrences :: s.occurrences[k].notificationId != id
    ensures Completes(s, e, t, policy.lead) && e.at == t
    ensures WellFormedEvent(s, e)
  {
    var notification := OldestNotification(s.occurrences, t, policy.lead);
    if AnyDue(s.occurrences, t, policy.lead) {
      e := Event(t, ActivityDone(true, false, false));
    } else if notification.Some? {
      EffectsNameReadyWork(s.occurrences, t, policy.lead, notification.value);
      var c := notification.value.command;
      e := Event(t, Notice(if c.NotifyCommand? then Delivered(c.key, "", c.revision, id)
                           else CommandCompleted(c.key, c.id)));
    } else if OldestLaunch(s.occurrences).Some? {
      var l := OldestLaunch(s.occurrences).value;
      e := Event(t, LaunchDone(l.key, l.account, l.joinRevision, false));
    } else {
      var a := Least(ReadyWarnings(s.pendingAuthWarnings, t)).name;
      assert a in s.pendingAuthWarnings && ValidWarning(s, a);
      e := Event(t, Notice(Delivered("", a, s.pendingAuthWarnings[a].revision, id)));
    }
  }

  // And it never stops short: while work is ready, a completion of it exists
  // and is accepted.
  lemma ReadyWorkCompletes(s: State, t: Time, policy: Policy, id: NotificationId) returns (e: Event)
    requires Sound(s, t, policy.lead) && t != 0 && HasReadyWork(s, t, policy.lead)
    requires PromotionsLeft(s.occurrences)
    requires id != 0 && forall k | k in s.occurrences :: s.occurrences[k].notificationId != id
    ensures Completes(s, e, t, policy.lead)
    ensures Reduce(s, IndexOf(s.occurrences), e, policy).Ok?
  {
    SoundIsNormal(s, t, policy.lead);
    e := CompletionAtHand(s, t, policy, id);
    ReducerClosure(s, IndexOf(s.occurrences), e, policy);
  }

  // ---- the end of a drain --------------------------------------------------------

  // Every occurrence that may yet be notified can be: it is scheduled, or a close
  // will schedule it again. Nothing else becomes so while draining, and nothing is
  // notified twice.
  predicate PromotableOne(o: Occurrence) {
    o.phase == Scheduled || (o.phase == ClosePending && o.resumePhase != NoPhase) ==> o.notifyRevision < MAX_REVISION
  }

  ghost predicate Promotable(occurrences: map<Key, Occurrence>) {
    forall k | k in occurrences :: PromotableOne(occurrences[k])
  }

  lemma StaysPromotable(s: State, index: Index, e: Event, policy: Policy, k: Key)
    requires Sound(s, e.at, policy.lead) && Completes(s, e, e.at, policy.lead) && k in s.occurrences
    requires PromotableOne(s.occurrences[k])
    ensures var next := NextOne(s, index, e, policy, k); next.Some? ==> PromotableOne(next.value)
  {
    var o := s.occurrences[k];
    assert ValidOccurrence(o) && SoundOne(o, e.at, policy.lead);
    if e.payload.Notice? {
      NoticePromotable(o, e.payload.notification, e.at, policy);
    }
  }

  lemma NoticePromotable(o: Occurrence, n: Notification, at: Time, policy: Policy)
    requires n.Delivered? || n.CommandCompleted?
    requires PromotableOne(o)
    ensures var next := SettledOne(NotificationOne(o, n, at, policy), at); next.Some? ==> PromotableOne(next.value)
    ensures var next := SettledOne(Some(o), at); next.Some? ==> PromotableOne(next.value)
  {
  }

  lemma PromotableStep(s: State, e: Event, next: State, t: Time, policy: Policy)
    requires Drains(s, e, next, t, policy) && Sound(s, t, policy.lead) && Promotable(s.occurrences)
    ensures Promotable(next.occurrences)
  {
    forall k | k in next.occurrences
      ensures PromotableOne(next.occurrences[k])
    {
      NextNotHeavier(s, IndexOf(s.occurrences), e, policy, k);
      StaysPromotable(s, IndexOf(s.occurrences), e, policy, k);
    }
  }

  lemma PromotableStepAt(states: seq<State>, events: seq<Event>, t: Time, policy: Policy, i: nat)
    requires IsDrain(states, events, t, policy) && i < |events|
    requires Sound(states[i], t, policy.lead) && Promotable(states[i].occurrences)
    ensures Promotable(states[i + 1].occurrences)
  {
    assert DrainsAt(states, events, t, policy, i);
    PromotableStep(states[i], events[i], states[i + 1], t, policy);
  }

  lemma {:induction false} DrainPromotable(states: seq<State>, events: seq<Event>, t: Time, policy: Policy, i: nat)
    requires IsDrain(states, events, t, policy) && i <= |events|
    requires Sound(states[0], t, policy.lead) && Promotable(states[0].occurrences)
    ensures Promotable(states[i].occurrences)
  {
    if i > 0 {
      DrainPromotable(states, events, t, policy, i - 1);
      DrainSound(states, events, t, policy, i - 1);
      PromotableStepAt(states, events, t, policy, i - 1);
    }
  }

  // ---- an id is always to be had ---------------------------------------------------

  lemma {:induction false} FreeNumber(used: set<nat>, n: nat) returns (free: nat)
    requires |used| <= n
    ensures 0 < free <= n + 1 && free !in used
  {
    if n + 1 !in used {
      free := n + 1;
    } else {
      free := FreeNumber(used - {n + 1}, n - 1);
    }
  }

  function UsedIds(keys: set<Key>, occurrences: map<Key, Occurrence>): set<nat>
    requires keys <= occurrences.Keys
  {
    set k | k in keys :: occurrences[k].notificationId as nat
  }

  lemma {:induction false} UsedIdsFew(keys: set<Key>, occurrences: map<Key, Occurrence>)
    requires keys <= occurrences.Keys
    ensures |UsedIds(keys, occurrences)| <= |keys|
  {
    if keys != {} {
      var k :| k in keys;
      UsedIdsFew(keys - {k}, occurrences);
      assert UsedIds(keys, occurrences) == UsedIds(keys - {k}, occurrences) + {occurrences[k].notificationId as nat};
    }
  }

  lemma FreeId(occurrences: map<Key, Occurrence>) returns (id: NotificationId)
    requires |occurrences| < 0xFFFF_FFFF
    ensures id != 0 && forall k | k in occurrences :: occurrences[k].notificationId != id
  {
    UsedIdsFew(occurrences.Keys, occurrences);
    assert |occurrences.Keys| == |occurrences|;
    var free := FreeNumber(UsedIds(occurrences.Keys, occurrences), |occurrences|);
    id := free;
    forall k | k in occurrences
      ensures occurrences[k].notificationId != id
    {
      assert occurrences[k].notificationId as nat in UsedIds(occurrences.Keys, occurrences);
    }
  }

  // A completion drains exactly while some work is ready.
  lemma DrainsWhileReady(s: State, t: Time, policy: Policy)
    requires Sound(s, t, policy.lead) && t != 0 && Promotable(s.occurrences) && |s.occurrences| < 0xFFFF_FFFF
    ensures (exists e, next :: Drains(s, e, next, t, policy)) <==> HasReadyWork(s, t, policy.lead)
  {
    if HasReadyWork(s, t, policy.lead) {
      var id := FreeId(s.occurrences);
      var e := ReadyWorkCompletes(s, t, policy, id);
      assert Drains(s, e, Reduce(s, IndexOf(s.occurrences), e, policy).value.state, t, policy);
    }
    forall e, next | Drains(s, e, next, t, policy)
      ensures HasReadyWork(s, t, policy.lead)
    {
      CompletionNeedsWork(s, e, t, policy.lead);
    }
  }

  lemma CompletionNeedsWork(s: State, e: Event, t: Time, lead: nat)
    requires Completes(s, e, t, lead)
    ensures HasReadyWork(s, t, lead)
  {
  }

  // A drain stops exactly when no work is ready. What it needs of revisions is asked
  // of its first state only, and the server finds an id while there are fewer than
  // 2^32 - 1 occurrences to give ids to.
  lemma DrainEndsIdle(states: seq<State>, events: seq<Event>, t: Time, policy: Policy)
    requires IsDrain(states, events, t, policy) && Sound(states[0], t, policy.lead) && t != 0
    requires Promotable(states[0].occurrences) && |states[0].occurrences| < 0xFFFF_FFFF
    ensures (forall e, next :: !Drains(states[|events|], e, next, t, policy))
       <==> !HasReadyWork(states[|events|], t, policy.lead)
    ensures |events| <= 4 * |states[0].occurrences| + |states[0].pendingAuthWarnings|
  {
    DrainTerminates(states, events, t, policy);
    DrainSound(states, events, t, policy, |events|);
    DrainPromotable(states, events, t, policy, |events|);
    FewKeys(states[|events|].occurrences, states[0].occurrences.Keys);
    assert |states[0].occurrences.Keys| == |states[0].occurrences|;
    DrainsWhileReady(states[|events|], t, policy);
  }

  lemma FewKeys(a: map<Key, Occurrence>, keys: set<Key>)
    requires a.Keys <= keys
    ensures |a| <= |keys|
  {
    assert keys == a.Keys + (keys - a.Keys);
    assert |keys| == |a.Keys| + |keys - a.Keys|;
    assert |a| == |a.Keys|;
  }

  // So from every sound state some drain reaches a state with no ready work.
  lemma {:induction false} DrainReachesIdle(s: State, t: Time, policy: Policy, keys: set<Key>)
    returns (states: seq<State>, events: seq<Event>)
    requires Sound(s, t, policy.lead) && t != 0 && Promotable(s.occurrences)
    requires s.occurrences.Keys <= keys && |keys| < 0xFFFF_FFFF
    ensures IsDrain(states, events, t, policy) && states[0] == s
    ensures !HasReadyWork(states[|events|], t, policy.lead)
    decreases WorkLeft(keys, s, t, policy.lead)
  {
    if !HasReadyWork(s, t, policy.lead) {
      states, events := [s], [];
    } else {
      FewKeys(s.occurrences, keys);
      var id := FreeId(s.occurrences);
      var e := ReadyWorkCompletes(s, t, policy, id);
      var next := Reduce(s, IndexOf(s.occurrences), e, policy).value.state;
      assert Drains(s, e, next, t, policy);
      DrainStep(keys, s, e, next, t, policy);
      PromotableStep(s, e, next, t, policy);
      var rest, done := DrainReachesIdle(next, t, policy, keys);
      states, events := [s] + rest, [e] + done;
      DrainExtends(s, e, rest, done, t, policy);
    }
  }

  lemma DrainExtends(s: State, e: Event, rest: seq<State>, done: seq<Event>, t: Time, policy: Policy)
    requires IsDrain(rest, done, t, policy) && Drains(s, e, rest[0], t, policy)
    ensures IsDrain([s] + rest, [e] + done, t, policy)
  {
    var states, events := [s] + rest, [e] + done;
    forall i: nat | i < |events|
      ensures DrainsAt(states, events, t, policy, i)
    {
      if i > 0 {
        Shifted(s, rest, i);
        SameStep(states, events, rest, done, t, policy, i);
      }
    }
  }

  lemma Shifted(s: State, rest: seq<State>, i: nat)
    requires 0 < i < |rest|
    ensures ([s] + rest)[i] == rest[i - 1] && ([s] + rest)[i + 1] == rest[i]
  {
  }

  lemma SameStep(states: seq<State>, events: seq<Event>, rest: seq<State>, done: seq<Event>, t: Time, policy: Policy,
                 i: nat)
    requires 0 < i < |events| && |states| == |events| + 1 && i <= |done| && |rest| == |done| + 1
    requires states[i] == rest[i - 1] && states[i + 1] == rest[i] && events[i] == done[i - 1]
    requires DrainsAt(rest, done, t, policy, i - 1)
    ensures DrainsAt(states, events, t, policy, i)
  {
  }
}

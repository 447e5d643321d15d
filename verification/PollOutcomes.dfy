// What a poll leaves under every key and of every account, told field by field.
module PollOutcomes {
  import opened Wrappers
  import opened Meetings
  import opened Storage
  import opened Events
  import opened Expiry
  import opened Reconcile
  import opened PollHealth
  import opened Reducer
  import opened Pointwise
  import opened Closure
  import opened Lifetimes
  import opened Runs
  import opened TickOutcomes

  // ---- what the poll says, read off its lists -----------------------------------------

  // The last meeting listed under the key, if any is.
  ghost predicate LastListed(meetings: seq<Meeting>, k: Key, m: Option<Meeting>) {
    match m
    case None => forall i | 0 <= i < |meetings| :: meetings[i].key != k
    case Some(last) => exists i | 0 <= i < |meetings| :: LastAt(meetings, i, k) && meetings[i] == last
  }

  predicate LastAt(meetings: seq<Meeting>, i: nat, k: Key)
    requires i < |meetings|
  {
    meetings[i].key == k && forall j | i < j < |meetings| :: meetings[j].key != k
  }

  // An observation removes its key when it says so, or excludes a key that is known.
  predicate Removes(o: Observation, k: Key, known: bool) {
    o.key == k && (o.reason != NotRemoved || known)
  }

  ghost predicate LastRemoved(observations: seq<Observation>, k: Key, known: bool, o: Option<Observation>) {
    match o
    case None => forall i | 0 <= i < |observations| :: !Removes(observations[i], k, known)
    case Some(last) =>
      exists i | 0 <= i < |observations| :: LastRemoval(observations, i, k, known) && observations[i] == last
  }

  predicate LastRemoval(observations: seq<Observation>, i: nat, k: Key, known: bool)
    requires i < |observations|
  {
    Removes(observations[i], k, known) && forall j | i < j < |observations| :: !Removes(observations[j], k, known)
  }

  function ReasonFor(o: Observation): CloseReason {
    match o.reason
    case RemovedCancelled => CloseCancelled
    case RemovedDeclined => CloseDeclined
    case RemovedURL => CloseURLRemoved
    case RemovedNonActionable => CloseNonActionable
    case _ =>
      if o.exclusion == ExcludedAllDay || o.exclusion == ExcludedMissingStart then CloseNonActionable
      else CloseURLRemoved
  }

  ghost predicate WasListed(s: State, account: Label, k: Key) {
    account in s.snapshots
    && exists i | 0 <= i < |s.snapshots[account].meetings| :: s.snapshots[account].meetings[i].key == k
  }

  // An observation can be read when it names its key and either why the meeting was
  // removed or why it is left out.
  predicate IsClear(o: Observation) {
    && o.key != ""
    && if o.reason == NotRemoved then
         o.exclusion in {ExcludedAllDay, ExcludedMissingStart, ExcludedMalformedURL, ExcludedMissingURL,
                         ExcludedUnsupportedURL}
       else
         o.reason in {RemovedCancelled, RemovedDeclined, RemovedURL, RemovedNonActionable} && o.exclusion == NotExcluded
  }

  // The poll can be read: every meeting has a key, and every observation is clear.
  predicate Readable(poll: PollResult) {
    && (forall i | 0 <= i < |poll.meetings| :: poll.meetings[i].key != "")
    && (forall i | 0 <= i < |poll.observations| :: IsClear(poll.observations[i]))
  }

  lemma ClearIsAccepted(o: Observation)
    ensures IsClear(o) <==> ObservationError(o).None?
  {
  }

  // Only a poll that can be read is accepted, and one that can be read is refused only
  // for a revision counter that is exhausted.
  lemma AcceptedIsReadable(s: State, poll: PollResult, at: Time, lead: nat)
    ensures Readable(poll) <==> WellFormedPoll(poll)
    ensures Reconciled(s, poll, at, lead).Ok? ==> Readable(poll)
    ensures Readable(poll) && Reconciled(s, poll, at, lead).Err? ==>
              Reconciled(s, poll, at, lead).error == RevisionExhausted
  {
    if FirstObservationError(poll.observations).None? {
      forall i | 0 <= i < |poll.observations|
        ensures IsClear(poll.observations[i])
      {
        ObservationsValid(poll.observations, i);
        ClearIsAccepted(poll.observations[i]);
      }
    } else {
      var i := FirstBadObservation(poll.observations);
      ClearIsAccepted(poll.observations[i]);
    }
  }

  lemma {:induction false} FirstBadObservation(observations: seq<Observation>) returns (i: nat)
    requires FirstObservationError(observations).Some?
    ensures i < |observations| && ObservationError(observations[i]).Some?
  {
    if ObservationError(observations[0]).Some? {
      i := 0;
    } else {
      i := FirstBadObservation(observations[1..]);
      i := i + 1;
    }
  }

  lemma ListedIs(meetings: seq<Meeting>, k: Key, m: Option<Meeting>)
    requires LastListed(meetings, k, m)
    ensures Lookup(CurrentMeetings(meetings), k) == m
  {
    CurrentKeys(meetings);
    if m.Some? {
      var i :| 0 <= i < |meetings| && LastAt(meetings, i, k) && meetings[i] == m.value;
      LastMeetingWins(meetings, i);
    }
  }

  lemma ClassifiedReason(o: Observation, known: bool)
    requires ObservationError(o).None?
    ensures RemovalOf(o, known).Some? <==> Removes(o, o.key, known)
    ensures RemovalOf(o, known).Some? ==> CloseReasonOf(RemovalOf(o, known).value) == Some(ReasonFor(o))
  {
  }

  lemma {:induction false} RemovedIs(observations: seq<Observation>, known: set<Key>, k: Key, o: Option<Observation>)
    requires forall i | 0 <= i < |observations| :: ObservationError(observations[i]).None?
    requires LastRemoved(observations, k, k in known, o)
    ensures var removal := Lookup(Removals(observations, known), k);
            if o.None? then removal == None
            else removal.Some? && CloseReasonOf(removal.value) == Some(ReasonFor(o.value))
    decreases |observations|
  {
    if observations != [] {
      var n := |observations| - 1;
      var last, rest := observations[n], observations[..n];
      ClassifiedReason(last, last.key in known);
      if !Removes(last, k, k in known) {
        RestRemoved(observations, k, k in known, o);
        RemovedIs(rest, known, k, o);
      } else {
        LastIsLast(observations, k, k in known, o);
      }
    }
  }

  lemma RestRemoved(observations: seq<Observation>, k: Key, known: bool, o: Option<Observation>)
    requires observations != [] && LastRemoved(observations, k, known, o)
    requires !Removes(observations[|observations| - 1], k, known)
    ensures LastRemoved(observations[..|observations| - 1], k, known, o)
  {
    var rest := observations[..|observations| - 1];
    if o.Some? {
      var i :| 0 <= i < |observations| && LastRemoval(observations, i, k, known) && observations[i] == o.value;
      assert LastRemoval(rest, i, k, known) && rest[i] == o.value;
    }
  }

  lemma LastIsLast(observations: seq<Observation>, k: Key, known: bool, o: Option<Observation>)
    requires observations != [] && LastRemoved(observations, k, known, o)
    requires Removes(observations[|observations| - 1], k, known)
    ensures o == Some(observations[|observations| - 1])
  {
    if o.Some? {
      var i :| 0 <= i < |observations| && LastRemoval(observations, i, k, known) && observations[i] == o.value;
      assert i == |observations| - 1;
    }
  }

  // ---- what a listed key becomes -----------------------------------------------------------

  predicate SameContent(m: Meeting, n: Meeting) {
    m.summary == n.summary && m.start == n.start && m.end == n.end && m.url == n.url && m.accountLabel == n.accountLabel
  }

  // The notification of the new content is pending under the next revision, at once;
  // an id means that it replaces what is shown.
  function Renotified(o: Occurrence, m: Meeting, at: Time, revision: Revision): Occurrence {
    Occurrence(m, NotifyPending, o.notificationId, 0, 0, at, 0, 0, 0, NoReason, NoPhase, revision, o.joinRevision)
  }

  predicate IsShown(o: Occurrence) {
    o.phase == Notified || o.phase == ActionableHistory || o.phase == JoinPending
  }

  // A listed key carries the listed meeting. Changed content that is due is announced
  // under the next revision; changed content that is not due takes the announcement
  // back, and the meeting waits again, after a close when something is shown.
  predicate ListedTo(prior: Slot, m: Meeting, at: Time, lead: nat, next: Slot) {
    if prior.None? then next == Some(Occurrence(m, Scheduled, 0, 0, 0, 0, 0, 0, 0, NoReason, NoPhase, 0, 0))
    else
      var o := prior.value;
      if SameContent(o.meeting, m) || !(o.phase == NotifyPending || IsShown(o)) then next == Some(o.(meeting := m))
      else if DueSoon(m, at, lead) then
        && o.notifyRevision < MAX_REVISION
        && next == Some(Renotified(o, m, at, o.notifyRevision + 1))
      else if IsShown(o) then next == Some(ClosedAs(o.(meeting := m), CloseRescheduled, Scheduled))
      else
        && o.notifyRevision < MAX_REVISION
        && var later := o.(meeting := m, notifyRevision := o.notifyRevision + 1);
           next == Some(if o.notificationId != 0 then ClosedAs(later, CloseRescheduled, Scheduled)
                        else later.(phase := Scheduled, notBefore := 0, attempt := 0))
  }

  // A removed key goes when nothing is shown; what is shown is closed for good, and
  // a replacement still pending is withdrawn under the next revision.
  predicate RemovedTo(prior: Slot, reason: CloseReason, next: Slot) {
    if prior.None? then next == None
    else
      var o := prior.value;
      if o.phase == Scheduled || (o.phase == NotifyPending && o.notificationId == 0) then next == None
      else if o.phase == NotifyPending then
        && o.notifyRevision < MAX_REVISION
        && next == Some(ClosedAs(o.(notifyRevision := o.notifyRevision + 1), reason, NoPhase))
      else if IsShown(o) then next == Some(ClosedAs(o, reason, NoPhase))
      else next == prior
  }

  lemma CurrentIsListed(prior: Slot, m: Meeting, at: Time, lead: nat)
    requires prior.Some? ==> ValidOccurrence(prior.value)
    requires CurrentOne(prior, m, at, lead).Ok?
    ensures ListedTo(prior, m, at, lead, Some(CurrentOne(prior, m, at, lead).value))
  {
  }

  lemma RemoveIsRemoved(prior: Slot, reason: CloseReason)
    requires RemoveOne(prior, reason).Ok?
    requires prior.Some? ==> !prior.value.phase.OtherPhase?
    ensures RemovedTo(prior, reason, RemoveOne(prior, reason).value)
  {
  }

  // The whole poll at one key: listed, then removed or found missing, then aged.
  ghost predicate PolledTo(prior: Slot, m: Option<Meeting>, reason: Option<CloseReason>, at: Time, lead: nat,
                           next: Slot) {
    exists listed: Slot, removed: Slot :: PolledBy(prior, m, reason, at, lead, listed, removed, next)
  }

  predicate PolledBy(prior: Slot, m: Option<Meeting>, reason: Option<CloseReason>, at: Time, lead: nat,
                     listed: Slot, removed: Slot, next: Slot) {
    && (if m.Some? then ListedTo(prior, m.value, at, lead, listed) else listed == prior)
    && (if reason.Some? then RemovedTo(listed, reason.value, removed) else removed == listed)
    && AgesTo(removed, at, next)
  }

  lemma ReconciledTo(prior: Slot, v: Verdict, reason: Option<CloseReason>, at: Time, lead: nat)
    requires prior.Some? ==> ValidOccurrence(prior.value)
    requires v.vanished ==> v.current.None? && v.removal.None?
    requires if v.vanished then reason == Some(CloseDeleted)
             else if v.removal.Some? then reason.Some? && CloseReasonOf(v.removal.value) == reason
             else reason.None?
    requires ReconcileOne(prior, v, at, lead).Ok?
    ensures PolledTo(prior, v.current, reason, at, lead, SettledOne(ReconcileOne(prior, v, at, lead).value, at))
  {
    var removed := ReconcileOne(prior, v, at, lead).value;
    SettlingAges(removed, at);
    if v.vanished {
      RemoveIsRemoved(prior, CloseDeleted);
      assert PolledBy(prior, v.current, reason, at, lead, prior, removed, SettledOne(removed, at));
    } else {
      var listed := AfterCurrent(prior, v, at, lead).value;
      if v.current.Some? {
        CurrentIsListed(prior, v.current.value, at, lead);
      }
      if v.removal.Some? {
        RemoveIsRemoved(listed, reason.value);
      }
      assert PolledBy(prior, v.current, reason, at, lead, listed, removed, SettledOne(removed, at));
    }
  }

  // The reason an accepted poll has to remove the key: what its last removing
  // observation says, or that the key was listed before and is not mentioned now.
  ghost predicate RemovedFor(s: State, poll: PollResult, k: Key, reason: Option<CloseReason>) {
    exists o: Option<Observation> ::
      && LastRemoved(poll.observations, k, k in s.occurrences || WasListed(s, poll.account, k), o)
      && reason == (if o.Some? then Some(ReasonFor(o.value))
                    else if WasListed(s, poll.account, k) && LastListed(poll.meetings, k, None)
                            && (forall i | 0 <= i < |poll.observations| :: poll.observations[i].key != k)
                    then Some(CloseDeleted)
                    else None)
  }

  lemma KnownIs(s: State, account: Label, k: Key)
    ensures k in KnownKeys(s, account) <==> k in s.occurrences || WasListed(s, account, k)
    ensures k in SnapshotKeys(PreviousMeetings(s, account)) <==> WasListed(s, account, k)
  {
  }

  lemma VanishedIs(s: State, poll: PollResult, k: Key, m: Option<Meeting>)
    requires LastListed(poll.meetings, k, m)
    ensures VerdictOf(s, poll, k).vanished
       <==> WasListed(s, poll.account, k) && LastListed(poll.meetings, k, None)
            && (forall i | 0 <= i < |poll.observations| :: poll.observations[i].key != k)
  {
    KnownIs(s, poll.account, k);
    ListedIs(poll.meetings, k, m);
    CurrentKeys(poll.meetings);
    assert k in ObservedKeys(poll.observations) <==>
        exists i | 0 <= i < |poll.observations| :: poll.observations[i].key == k;
  }

  lemma VerdictIsTold(s: State, poll: PollResult, k: Key, m: Option<Meeting>, reason: Option<CloseReason>)
    requires WellFormedPoll(poll) && LastListed(poll.meetings, k, m) && RemovedFor(s, poll, k, reason)
    ensures var v := VerdictOf(s, poll, k);
            && v.current == m
            && if v.vanished then v.current.None? && v.removal.None? && reason == Some(CloseDeleted)
               else if v.removal.Some? then reason.Some? && CloseReasonOf(v.removal.value) == reason
               else reason.None?
  {
    ListedIs(poll.meetings, k, m);
    KnownIs(s, poll.account, k);
    VanishedIs(s, poll, k, m);
    VerdictShape(s, poll, k);
    var known := k in s.occurrences || WasListed(s, poll.account, k);
    var o :| LastRemoved(poll.observations, k, known, o)
             && reason == (if o.Some? then Some(ReasonFor(o.value))
                           else if WasListed(s, poll.account, k) && LastListed(poll.meetings, k, None)
                                   && (forall i | 0 <= i < |poll.observations| :: poll.observations[i].key != k)
                           then Some(CloseDeleted)
                           else None);
    forall i | 0 <= i < |poll.observations|
      ensures ObservationError(poll.observations[i]).None?
    {
      ObservationsValid(poll.observations, i);
    }
    RemovedIs(poll.observations, KnownKeys(s, poll.account), k, o);
  }

  // After an accepted successful poll the occurrence of every key is what the poll
  // says of it, read off its lists, makes of the old one.
  lemma PollLeaves(s: State, index: Index, e: Event, policy: Policy, k: Key, m: Option<Meeting>,
                   reason: Option<CloseReason>)
    requires Valid(s) && IsNormal(s) && e.payload.PollDone? && e.payload.poll.error.None?
    requires Reduce(s, index, e, policy).Ok?
    requires LastListed(e.payload.poll.meetings, k, m) && RemovedFor(s, e.payload.poll, k, reason)
    ensures PolledTo(Lookup(s.occurrences, k), m, reason, e.at, policy.lead,
                     Lookup(Reduce(s, index, e, policy).value.state.occurrences, k))
  {
    var poll := e.payload.poll;
    NormalNextAt(s, index, e, policy, k);
    MovedPollAt(s, poll, e.at, policy.lead, k);
    VerdictIsTold(s, poll, k, m, reason);
    NextIsReconciled(s, index, e, policy, k);
    ReconciledTo(Lookup(s.occurrences, k), VerdictOf(s, poll, k), reason, e.at, policy.lead);
  }

  lemma NextIsReconciled(s: State, index: Index, e: Event, policy: Policy, k: Key)
    requires e.payload.PollDone? && e.payload.poll.error.None?
    requires OutcomeAt(s, e.payload.poll, e.at, policy.lead, k).Ok?
    ensures NextOne(s, index, e, policy, k)
         == SettledOne(ReconcileOne(Lookup(s.occurrences, k), VerdictOf(s, e.payload.poll, k), e.at, policy.lead).value,
                       e.at)
  {
  }

  // In particular: whatever stands under a listed key afterwards is the listed
  // meeting, and a key that is listed and not removed is gone only when it starts.
  lemma ListedMeetingStands(s: State, index: Index, e: Event, policy: Policy, k: Key, m: Meeting)
    requires Valid(s) && IsNormal(s) && e.payload.PollDone? && e.payload.poll.error.None?
    requires Reduce(s, index, e, policy).Ok? && LastListed(e.payload.poll.meetings, k, Some(m))
    ensures var next := Reduce(s, index, e, policy).value.state.occurrences;
            && (k in next ==> next[k].meeting == m)
            && (RemovedFor(s, e.payload.poll, k, None) && e.at < m.start ==> k in next)
  {
    var next := Reduce(s, index, e, policy).value.state.occurrences;
    var reason := ReasonAt(s, e.payload.poll, k);
    PollLeaves(s, index, e, policy, k, Some(m), reason);
    PolledMeeting(Lookup(s.occurrences, k), m, reason, e.at, policy.lead, Lookup(next, k));
    if RemovedFor(s, e.payload.poll, k, None) {
      PollLeaves(s, index, e, policy, k, Some(m), None);
      PolledMeeting(Lookup(s.occurrences, k), m, None, e.at, policy.lead, Lookup(next, k));
    }
  }

  lemma PolledMeeting(prior: Slot, m: Meeting, reason: Option<CloseReason>, at: Time, lead: nat, next: Slot)
    requires PolledTo(prior, Some(m), reason, at, lead, next)
    ensures next.Some? ==> next.value.meeting == m
    ensures reason.None? && at < m.start ==> next.Some?
  {
  }

  // Every poll has something to say about every key.
  lemma ReasonAt(s: State, poll: PollResult, k: Key) returns (reason: Option<CloseReason>)
    ensures RemovedFor(s, poll, k, reason)
  {
    var known := k in s.occurrences || WasListed(s, poll.account, k);
    var o := LastRemovalOf(poll.observations, k, known);
    reason := if o.Some? then Some(ReasonFor(o.value))
              else if WasListed(s, poll.account, k) && LastListed(poll.meetings, k, None)
                      && (forall i | 0 <= i < |poll.observations| :: poll.observations[i].key != k)
              then Some(CloseDeleted)
              else None;
  }

  lemma LastRemovalOf(observations: seq<Observation>, k: Key, known: bool) returns (o: Option<Observation>)
    ensures LastRemoved(observations, k, known, o)
  {
    o := None;
    var i := |observations|;
    while i > 0
      invariant 0 <= i <= |observations| && o == None
      invariant forall j | i <= j < |observations| :: !Removes(observations[j], k, known)
    {
      i := i - 1;
      if Removes(observations[i], k, known) {
        o := Some(observations[i]);
        assert LastRemoval(observations, i, k, known);
        return;
      }
    }
  }

  // ---- a failed poll ----------------------------------------------------------------------------

  // The account's health names the failure and asks for authorization when that is
  // what failed; every other account's is left alone.
  ghost predicate SickAs(s: State, poll: PollResult, next: State) {
    && poll.error.Some?
    && next.health == s.health[poll.account := Health(
         if poll.account in s.health then s.health[poll.account].lastSuccess else 0,
         poll.error,
         poll.error == Some(Authentication),
         if poll.error == Some(Authentication) then poll.generation else "")]
    && next.snapshots == s.snapshots
  }

  // A warning is raised when authorization failed, none is pending, and none was
  // shown in the last 24 hours; it has the account's next revision and is due at once.
  ghost predicate WarnedAs(s: State, poll: PollResult, at: Time, next: State) {
    if poll.error == Some(Authentication) && poll.account !in s.pendingAuthWarnings
       && (poll.account in s.authWarnings ==> s.authWarnings[poll.account] + 86400 * 1_000_000_000 <= at) then
      var before := if poll.account in s.authWarningRevisions then s.authWarningRevisions[poll.account] else 0;
      && before < MAX_REVISION
      && next.authWarningRevisions == s.authWarningRevisions[poll.account := before + 1]
      && next.pendingAuthWarnings == s.pendingAuthWarnings[poll.account := AuthWarning(before + 1, at, at, 0)]
      && next.authWarnings == s.authWarnings
    else
      && next.authWarningRevisions == s.authWarningRevisions
      && next.pendingAuthWarnings == s.pendingAuthWarnings
      && next.authWarnings == s.authWarnings
  }

  lemma FailedPollLeaves(s: State, index: Index, e: Event, policy: Policy)
    requires IsNormal(s) && e.payload.PollDone? && e.payload.poll.error.Some? && Reduce(s, index, e, policy).Ok?
    ensures var next := Reduce(s, index, e, policy).value.state;
            SickAs(s, e.payload.poll, next) && WarnedAs(s, e.payload.poll, e.at, next)
  {
    NormalTransition(s, index, e, policy);
    assert Transition(s, index, e, policy) == FailedPoll(s, e.payload.poll, e.payload.poll.error.value, e.at);
    FailedPollSickens(s, e.payload.poll, e.at);
    FailedPollWarns(s, e.payload.poll, e.at);
  }

  lemma FailedPollSickens(s: State, poll: PollResult, at: Time)
    requires poll.error.Some? && FailedPoll(s, poll, poll.error.value, at).Ok?
    ensures SickAs(s, poll, FailedPoll(s, poll, poll.error.value, at).value)
  {
    assert FailedPoll(s, poll, poll.error.value, at).value.health == Unhealthy(s, poll, poll.error.value).health;
  }

  lemma FailedPollWarns(s: State, poll: PollResult, at: Time)
    requires poll.error.Some? && FailedPoll(s, poll, poll.error.value, at).Ok?
    ensures WarnedAs(s, poll, at, FailedPoll(s, poll, poll.error.value, at).value)
  {
  }

  // No other key, and no meeting, changes in a failed poll but by age.
  lemma FailedPollAges(s: State, index: Index, e: Event, policy: Policy, k: Key)
    requires IsNormal(s) && e.payload.PollDone? && e.payload.poll.error.Some? && Reduce(s, index, e, policy).Ok?
    ensures AgesTo(Lookup(s.occurrences, k), e.at, Lookup(Reduce(s, index, e, policy).value.state.occurrences, k))
  {
    NormalNextAt(s, index, e, policy, k);
    SettlingAges(Lookup(s.occurrences, k), e.at);
  }

  // A successful poll makes the account healthy, remembers what it listed, and
  // leaves the warnings alone.
  lemma SuccessfulPollHeals(s: State, index: Index, e: Event, policy: Policy)
    requires IsNormal(s) && e.payload.PollDone? && e.payload.poll.error.None? && Reduce(s, index, e, policy).Ok?
    ensures var (poll, next) := (e.payload.poll, Reduce(s, index, e, policy).value.state);
            && next.health == s.health[poll.account := Health(poll.fetchedAt, None, false, "")]
            && next.snapshots == s.snapshots[poll.account := Snapshot(poll.fetchedAt, poll.meetings)]
            && next.authWarnings == s.authWarnings && next.pendingAuthWarnings == s.pendingAuthWarnings
            && next.authWarningRevisions == s.authWarningRevisions
  {
    NormalTransition(s, index, e, policy);
    assert Transition(s, index, e, policy) == Reconciled(s, e.payload.poll, e.at, policy.lead);
  }
}

// A successful poll against the previous snapshot (daemon/reconcile.go).
module Reconcile {
  import opened Wrappers
  import opened Meetings
  import opened Storage
  import opened Drafts
  import opened Events
  import opened Expiry

  // ---- what the poll says about each key -------------------------------

  function ObservationError(o: Observation): Option<Error> {
    if o.key == "" then Some(InvalidPoll("observations.key"))
    else if o.reason != NotRemoved then
      if o.exclusion != NotExcluded then Some(InvalidPoll("observations.exclusion"))
      else if o.reason == RemovedUnknown then Some(InvalidPoll("observations.reason"))
      else None
    else if o.exclusion == NotExcluded || o.exclusion == ExcludedUnknown
    then Some(InvalidPoll("observations.exclusion"))
    else None
  }

  // The first malformed observation decides the error.
  function FirstObservationError(observations: seq<Observation>): Option<Error> {
    if observations == [] then None
    else if ObservationError(observations[0]).Some? then ObservationError(observations[0])
    else FirstObservationError(observations[1..])
  }

  // The last meeting listed under a key wins.
  function CurrentMeetings(meetings: seq<Meeting>): map<Key, Meeting> {
    if meetings == [] then map[]
    else
      var last := meetings[|meetings| - 1];
      CurrentMeetings(meetings[..|meetings| - 1])[last.key := last]
  }

  function RemovalOf(o: Observation, known: bool): Option<RemovedReason> {
    if o.reason != NotRemoved then Some(o.reason)
    else if !known then None
    else match o.exclusion
         case ExcludedMissingURL => Some(RemovedURL)
         case ExcludedUnsupportedURL => Some(RemovedURL)
         case ExcludedMalformedURL => Some(RemovedURL)
         case ExcludedAllDay => Some(RemovedNonActionable)
         case ExcludedMissingStart => Some(RemovedNonActionable)
         case NotExcluded => None
         case ExcludedUnknown => None
  }

  // The last observation that removes a key decides the reason.
  function Removals(observations: seq<Observation>, known: set<Key>): map<Key, RemovedReason> {
    if observations == [] then map[]
    else
      var last := observations[|observations| - 1];
      var rest := Removals(observations[..|observations| - 1], known);
      match RemovalOf(last, last.key in known)
      case Some(reason) => rest[last.key := reason]
      case None => rest
  }

  function ObservedKeys(observations: seq<Observation>): set<Key> {
    set i | 0 <= i < |observations| :: observations[i].key
  }

  function SnapshotKeys(meetings: seq<Meeting>): set<Key> {
    set i | 0 <= i < |meetings| :: meetings[i].key
  }

  function PreviousMeetings(s: State, account: Label): seq<Meeting> {
    if account in s.snapshots then s.snapshots[account].meetings else []
  }

  function KnownKeys(s: State, account: Label): set<Key> {
    s.occurrences.Keys + SnapshotKeys(PreviousMeetings(s, account))
  }

  function CloseReasonOf(reason: RemovedReason): Option<CloseReason> {
    match reason
    case RemovedCancelled => Some(CloseCancelled)
    case RemovedDeclined => Some(CloseDeclined)
    case RemovedURL => Some(CloseURLRemoved)
    case RemovedNonActionable => Some(CloseNonActionable)
    case NotRemoved => None
    case RemovedUnknown => None
  }

  // ---- the pointwise specification -------------------------------------

  // An occurrence after a step: gone, or there with a value.
  type Slot = Option<Occurrence>

  function NewOccurrence(m: Meeting): Occurrence {
    Occurrence(m, Scheduled, 0, 0, 0, 0, 0, 0, 0, NoReason, NoPhase, 0, 0)
  }

  function Replacement(o: Occurrence, m: Meeting, at: Time, revision: Revision): Occurrence {
    o.(notifyRevision := revision, meeting := m, phase := NotifyPending,
       notifiedAt := 0, actionExpiresAt := 0, notBefore := at, attempt := 0,
       joinRequestedAt := 0, joinedAt := 0, closeReason := NoReason, resumePhase := NoPhase)
  }

  function CurrentOne(prior: Slot, m: Meeting, at: Time, lead: nat): Result<Occurrence, Error> {
    if prior.None? then Ok(NewOccurrence(m))
    else
      var o := prior.value;
      if o.phase == Joined || ContentOf(o.meeting) == ContentOf(m) then Ok(o.(meeting := m))
      else match o.phase
           case NotifyPending =>
             (match NextRevision(o.notifyRevision)
              case None => Err(RevisionExhausted)
              case Some(revision) =>
                var next := o.(notifyRevision := revision);
                if Due(m, at, lead) then Ok(next.(meeting := m, notBefore := at, attempt := 0))
                else if o.notificationId != 0 then Ok(BeginClose(next, CloseRescheduled, Scheduled).(meeting := m))
                else Ok(next.(meeting := m, phase := Scheduled, notBefore := 0, attempt := 0)))
           case Notified => ReplaceOrClose(o, m, at, lead)
           case ActionableHistory => ReplaceOrClose(o, m, at, lead)
           case JoinPending => ReplaceOrClose(o, m, at, lead)
           case _ => Ok(o.(meeting := m))
  }

  function ReplaceOrClose(o: Occurrence, m: Meeting, at: Time, lead: nat): Result<Occurrence, Error> {
    if Due(m, at, lead) then
      match NextRevision(o.notifyRevision)
      case None => Err(RevisionExhausted)
      case Some(revision) => Ok(Replacement(o, m, at, revision))
    else Ok(BeginClose(o, CloseRescheduled, Scheduled).(meeting := m))
  }

  function RemoveOne(prior: Slot, reason: CloseReason): Result<Slot, Error> {
    if prior.None? || prior.value.phase == Joined then Ok(prior)
    else
      var o := prior.value;
      match o.phase
      case Scheduled => Ok(None)
      case NotifyPending =>
        if o.notificationId == 0 then Ok(None)
        else (match NextRevision(o.notifyRevision)
              case None => Err(RevisionExhausted)
              case Some(revision) => Ok(Some(BeginClose(o.(notifyRevision := revision), reason, NoPhase))))
      case Notified => Ok(Some(BeginClose(o, reason, NoPhase)))
      case ActionableHistory => Ok(Some(BeginClose(o, reason, NoPhase)))
      case JoinPending => Ok(Some(BeginClose(o, reason, NoPhase)))
      case _ => Ok(prior)
  }

  // What the poll says about one key.
  datatype Verdict = Verdict(vanished: bool, current: Option<Meeting>, removal: Option<RemovedReason>)

  function VerdictOf(s: State, poll: PollResult, k: Key): Verdict {
    var current := CurrentMeetings(poll.meetings);
    Verdict(
      k in SnapshotKeys(PreviousMeetings(s, poll.account)) && k !in current && k !in ObservedKeys(poll.observations),
      Lookup(current, k),
      Lookup(Removals(poll.observations, KnownKeys(s, poll.account)), k))
  }

  // The three loops as they act on one key: vanished, then current, then removed.
  function ReconcileOne(prior: Slot, v: Verdict, at: Time, lead: nat): Result<Slot, Error> {
    var first := AfterVanish(prior, v);
    if first.Err? then first
    else
      var second := AfterCurrent(first.value, v, at, lead);
      if second.Err? then second
      else AfterRemoval(second.value, v)
  }

  function AfterVanish(prior: Slot, v: Verdict): Result<Slot, Error> {
    if v.vanished then RemoveOne(prior, CloseDeleted) else Ok(prior)
  }

  function AfterCurrent(prior: Slot, v: Verdict, at: Time, lead: nat): Result<Slot, Error> {
    match v.current
    case None => Ok(prior)
    case Some(m) =>
      match CurrentOne(prior, m, at, lead)
      case Err(e) => Err(e)
      case Ok(o) => Ok(Some(o))
  }

  function AfterRemoval(prior: Slot, v: Verdict): Result<Slot, Error> {
    match v.removal
    case None => Ok(prior)
    case Some(reason) =>
      match CloseReasonOf(reason)
      case None => Err(InvalidPoll("observations.reason"))
      case Some(close) => RemoveOne(prior, close)
  }

  function OutcomeAt(s: State, poll: PollResult, at: Time, lead: nat, k: Key): Result<Slot, Error> {
    ReconcileOne(Lookup(s.occurrences, k), VerdictOf(s, poll, k), at, lead)
  }

  // Every key a poll may touch.
  function TouchedKeys(s: State, poll: PollResult): set<Key> {
    s.occurrences.Keys + CurrentMeetings(poll.meetings).Keys
  }

  ghost function Reconciled(s: State, poll: PollResult, at: Time, lead: nat): Result<State, Error> {
    if FirstObservationError(poll.observations).Some? then Err(FirstObservationError(poll.observations).value)
    else if exists i :: 0 <= i < |poll.meetings| && poll.meetings[i].key == "" then Err(MeetingWithoutKey)
    else if exists k :: k in TouchedKeys(s, poll) && OutcomeAt(s, poll, at, lead, k).Err? then Err(RevisionExhausted)
    else Ok(s.(
      occurrences := map k | k in TouchedKeys(s, poll)
                             && OutcomeAt(s, poll, at, lead, k).Ok? && OutcomeAt(s, poll, at, lead, k).value.Some?
                         :: OutcomeAt(s, poll, at, lead, k).value.value,
      snapshots := s.snapshots[poll.account := Snapshot(poll.fetchedAt, poll.meetings)],
      health := s.health[poll.account := Health(poll.fetchedAt, None, false, "")]))
  }

  // Removing twice is removing once: a snapshot may list a key more than once.
  lemma RemoveOneIdempotent(prior: Slot, reason: CloseReason)
    requires RemoveOne(prior, reason).Ok?
    ensures RemoveOne(RemoveOne(prior, reason).value, reason) == RemoveOne(prior, reason)
  {
  }

  lemma {:induction false} CurrentKeys(meetings: seq<Meeting>)
    ensures CurrentMeetings(meetings).Keys == SnapshotKeys(meetings)
    ensures forall k | k in CurrentMeetings(meetings) :: CurrentMeetings(meetings)[k].key == k
  {
    if meetings != [] {
      var n := |meetings| - 1;
      CurrentKeys(meetings[..n]);
      SnapshotKeysAppend(meetings[..n], meetings[n]);
      assert meetings == meetings[..n] + [meetings[n]];
    }
  }

  lemma SnapshotKeysAppend(meetings: seq<Meeting>, m: Meeting)
    ensures SnapshotKeys(meetings + [m]) == SnapshotKeys(meetings) + {m.key}
  {
    forall k | k in SnapshotKeys(meetings) + {m.key}
      ensures k in SnapshotKeys(meetings + [m])
    {
      if k == m.key {
        assert (meetings + [m])[|meetings|].key == k;
      } else {
        var i :| 0 <= i < |meetings| && meetings[i].key == k;
        assert (meetings + [m])[i].key == k;
      }
    }
  }

  // A meeting whose key no later meeting repeats is the current one.
  lemma {:induction false} LastMeetingWins(meetings: seq<Meeting>, i: nat)
    requires i < |meetings|
    requires forall j | i < j < |meetings| :: meetings[j].key != meetings[i].key
    ensures Lookup(CurrentMeetings(meetings), meetings[i].key) == Some(meetings[i])
  {
    var n := |meetings| - 1;
    if i < n {
      assert meetings[..n][i] == meetings[i];
      LastMeetingWins(meetings[..n], i);
    }
  }

  lemma {:induction false} ObservationsValid(observations: seq<Observation>, i: nat)
    requires FirstObservationError(observations).None?
    requires i < |observations|
    ensures ObservationError(observations[i]).None?
  {
    if i > 0 {
      ObservationsValid(observations[1..], i - 1);
    }
  }

  // A removal reason recorded for a valid poll always has a close reason.
  lemma {:induction false} RemovalsClassified(observations: seq<Observation>, known: set<Key>)
    requires forall i | 0 <= i < |observations| :: ObservationError(observations[i]).None?
    ensures forall k | k in Removals(observations, known) ::
              CloseReasonOf(Removals(observations, known)[k]).Some? && k in ObservedKeys(observations)
  {
    if observations != [] {
      var n := |observations| - 1;
      var rest := observations[..n];
      assert forall i | 0 <= i < n :: rest[i] == observations[i];
      RemovalsClassified(rest, known);
      forall k | k in ObservedKeys(rest)
        ensures k in ObservedKeys(observations)
      {
        var i :| 0 <= i < n && rest[i].key == k;
        assert observations[i].key == k;
      }
      assert observations[n].key in ObservedKeys(observations);
    }
  }

  // ---- the loops --------------------------------------------------------

  method ReconcileCurrent(draft: Draft, key: Key, item: Meeting, at: Time, policy: Policy) returns (err: Option<Error>)
    modifies draft`occurrences
    ensures match CurrentOne(Lookup(old(draft.occurrences), key), item, at, policy.lead)
            case Err(e) => err == Some(e)
            case Ok(o) => err == None && draft.occurrences == old(draft.occurrences)[key := o]
  {
    if key !in draft.occurrences {
      draft.occurrences := draft.occurrences[key := NewOccurrence(item)];
      return None;
    }
    var o := draft.occurrences[key];
    if o.phase == Joined {
      o := o.(meeting := item);
      draft.occurrences := draft.occurrences[key := o];
      return None;
    }
    if ContentOf(o.meeting) == ContentOf(item) {
      o := o.(meeting := item);
      draft.occurrences := draft.occurrences[key := o];
      return None;
    }
    match o.phase {
      case NotifyPending =>
        var revision := NextRevision(o.notifyRevision);
        if revision == None {
          return Some(RevisionExhausted);
        }
        o := o.(notifyRevision := revision.value);
        if Due(item, at, policy.lead) {
          o := o.(meeting := item, notBefore := at, attempt := 0);
        } else if o.notificationId != 0 {
          o := BeginClose(o, CloseRescheduled, Scheduled);
          o := o.(meeting := item);
        } else {
          o := o.(meeting := item, phase := Scheduled, notBefore := 0, attempt := 0);
        }
      case Notified | ActionableHistory | JoinPending =>
        if Due(item, at, policy.lead) {
          var revision := NextRevision(o.notifyRevision);
          if revision == None {
            return Some(RevisionExhausted);
          }
          o := Replacement(o, item, at, revision.value);
        } else {
          o := BeginClose(o, CloseRescheduled, Scheduled);
          o := o.(meeting := item);
        }
      case _ =>
        o := o.(meeting := item);
    }
    draft.occurrences := draft.occurrences[key := o];
    return None;
  }

  method ReconcileRemoved(draft: Draft, key: Key, reason: CloseReason) returns (err: Option<Error>)
    modifies draft`occurrences
    ensures match RemoveOne(Lookup(old(draft.occurrences), key), reason)
            case Err(e) => err == Some(e)
            case Ok(slot) => err == None && draft.occurrences == Assign(old(draft.occurrences), key, slot)
  {
    if key !in draft.occurrences || draft.occurrences[key].phase == Joined {
      return None;
    }
    var o := draft.occurrences[key];
    match o.phase {
      case Scheduled =>
        draft.occurrences := draft.occurrences - {key};
      case NotifyPending =>
        if o.notificationId == 0 {
          draft.occurrences := draft.occurrences - {key};
          return None;
        }
        var revision := NextRevision(o.notifyRevision);
        if revision == None {
          return Some(RevisionExhausted);
        }
        o := o.(notifyRevision := revision.value);
        o := BeginClose(o, reason, NoPhase);
        draft.occurrences := draft.occurrences[key := o];
      case Notified | ActionableHistory | JoinPending =>
        o := BeginClose(o, reason, NoPhase);
        draft.occurrences := draft.occurrences[key := o];
      case _ =>
    }
    return None;
  }

  method KnownMeeting(s: State, previous: seq<Meeting>, key: Key) returns (known: bool)
    ensures known <==> key in s.occurrences.Keys + SnapshotKeys(previous)
  {
    if key in s.occurrences {
      return true;
    }
    for i := 0 to |previous|
      invariant forall j | 0 <= j < i :: previous[j].key != key
    {
      if previous[i].key == key {
        return true;
      }
    }
    return false;
  }

  // The current meetings by key; a meeting without a key rejects the poll.
  method CollectCurrent(meetings: seq<Meeting>) returns (current: map<Key, Meeting>, ok: bool)
    ensures ok <==> !exists i :: 0 <= i < |meetings| && meetings[i].key == ""
    ensures ok ==> current == CurrentMeetings(meetings)
  {
    current := map[];
    for i := 0 to |meetings|
      invariant forall j | 0 <= j < i :: meetings[j].key != ""
      invariant current == CurrentMeetings(meetings[..i])
    {
      if meetings[i].key == "" {
        return current, false;
      }
      assert meetings[..i + 1][..i] == meetings[..i];
      current := current[meetings[i].key := meetings[i]];
    }
    assert meetings[..|meetings|] == meetings;
    ok := true;
  }

  // Removal reasons by key, and every key the poll mentions.
  method CollectRemoved(s: State, previous: seq<Meeting>, observations: seq<Observation>, current: map<Key, Meeting>)
    returns (removed: map<Key, RemovedReason>, present: set<Key>)
    requires forall i | 0 <= i < |observations| :: ObservationError(observations[i]).None?
    ensures removed == Removals(observations, s.occurrences.Keys + SnapshotKeys(previous))
    ensures present == current.Keys + ObservedKeys(observations)
  {
    ghost var knownKeys := s.occurrences.Keys + SnapshotKeys(previous);
    removed := map[];
    present := current.Keys;
    for i := 0 to |observations|
      invariant removed == Removals(observations[..i], knownKeys)
      invariant forall k :: k in present <==> k in current || exists j :: 0 <= j < i && observations[j].key == k
    {
      var observation := observations[i];
      assert observations[..i + 1][..i] == observations[..i];
      present := present + {observation.key};
      if observation.reason != NotRemoved {
        removed := removed[observation.key := observation.reason];
        continue;
      }
      var known := KnownMeeting(s, previous, observation.key);
      if !known {
        continue;
      }
      match observation.exclusion {
        case ExcludedMissingURL | ExcludedUnsupportedURL | ExcludedMalformedURL =>
          removed := removed[observation.key := RemovedURL];
        case ExcludedAllDay | ExcludedMissingStart =>
          removed := removed[observation.key := RemovedNonActionable];
        case _ =>
          assert false;
      }
    }
    assert observations[..|observations|] == observations;
  }

  method ValidateObservations(observations: seq<Observation>) returns (err: Option<Error>)
    ensures err == FirstObservationError(observations)
    ensures err == None ==> forall i | 0 <= i < |observations| :: ObservationError(observations[i]).None?
  {
    for i := 0 to |observations|
      invariant forall j | 0 <= j < i :: ObservationError(observations[j]).None?
      invariant FirstObservationError(observations) == FirstObservationError(observations[i..])
    {
      err := ObservationError(observations[i]);
      assert observations[i..][0] == observations[i];
      assert observations[i..][1..] == observations[i + 1..];
      if err != None {
        return err;
      }
    }
    return None;
  }

  // First loop: keys of the previous snapshot the poll no longer mentions.
  method RemoveVanished(draft: Draft, previous: seq<Meeting>, present: set<Key>) returns (err: Option<Error>)
    modifies draft`occurrences
    ensures err == None ==> forall k ::
              (var vanished := k in SnapshotKeys(previous) && k !in present;
               && (vanished ==> RemoveOne(Lookup(old(draft.occurrences), k), CloseDeleted).Ok?)
               && Lookup(draft.occurrences, k)
                    == if vanished then RemoveOne(Lookup(old(draft.occurrences), k), CloseDeleted).value
                       else Lookup(old(draft.occurrences), k))
    ensures err != None ==>
              && err == Some(RevisionExhausted)
              && exists k :: k in SnapshotKeys(previous) && k !in present && k in old(draft.occurrences)
                             && RemoveOne(Lookup(old(draft.occurrences), k), CloseDeleted).Err?
  {
    ghost var before := draft.occurrences;
    ghost var done: set<Key> := {};
    for i := 0 to |previous|
      invariant forall k :: k in done <==> exists j :: 0 <= j < i && previous[j].key == k && k !in present
      invariant forall k | k in done :: RemoveOne(Lookup(before, k), CloseDeleted).Ok?
      invariant forall k :: Lookup(draft.occurrences, k)
                  == if k in done then RemoveOne(Lookup(before, k), CloseDeleted).value else Lookup(before, k)
    {
      var key := previous[i].key;
      if key !in present {
        ghost var was := draft.occurrences;
        assert Lookup(was, key)
            == if key in done then RemoveOne(Lookup(before, key), CloseDeleted).value else Lookup(before, key);
        if key in done {
          RemoveOneIdempotent(Lookup(before, key), CloseDeleted);
        }
        err := ReconcileRemoved(draft, key, CloseDeleted);
        if err != None {
          assert key in SnapshotKeys(previous);
          return err;
        }
        forall k
          ensures Lookup(draft.occurrences, k)
                  == if k in done + {key} then RemoveOne(Lookup(before, k), CloseDeleted).value else Lookup(before, k)
        {
          assert Lookup(was, k)
              == if k in done then RemoveOne(Lookup(before, k), CloseDeleted).value else Lookup(before, k);
        }
        done := done + {key};
      }
    }
    return None;
  }

  // Second loop: current meetings in any order.
  method ReconcileAllCurrent(draft: Draft, current: map<Key, Meeting>, at: Time, policy: Policy)
    returns (err: Option<Error>)
    modifies draft`occurrences
    ensures err == None ==> forall k ::
              && (k in current ==> CurrentOne(Lookup(old(draft.occurrences), k), current[k], at, policy.lead).Ok?)
              && Lookup(draft.occurrences, k)
                   == if k in current
                      then Some(CurrentOne(Lookup(old(draft.occurrences), k), current[k], at, policy.lead).value)
                      else Lookup(old(draft.occurrences), k)
    ensures err != None ==>
              && err == Some(RevisionExhausted)
              && exists k ::
                   k in current && CurrentOne(Lookup(old(draft.occurrences), k), current[k], at, policy.lead).Err?
  {
    ghost var before := draft.occurrences;
    var keys := current.Keys;
    while keys != {}
      invariant keys <= current.Keys
      invariant forall k | k in current && k !in keys :: CurrentOne(Lookup(before, k), current[k], at, policy.lead).Ok?
      invariant forall k :: Lookup(draft.occurrences, k)
                  == if k in current && k !in keys
                     then Some(CurrentOne(Lookup(before, k), current[k], at, policy.lead).value)
                     else Lookup(before, k)
    {
      var key :| key in keys;
      ghost var was := draft.occurrences;
      assert Lookup(was, key) == Lookup(before, key);
      err := ReconcileCurrent(draft, key, current[key], at, policy);
      if err != None {
        return err;
      }
      forall k | k != key
        ensures Lookup(draft.occurrences, k) == Lookup(was, k)
      {
      }
      keys := keys - {key};
    }
    return None;
  }

  // Third loop: removed keys in any order.
  method ReconcileAllRemoved(draft: Draft, removed: map<Key, RemovedReason>) returns (err: Option<Error>)
    requires forall k | k in removed :: CloseReasonOf(removed[k]).Some?
    modifies draft`occurrences
    ensures err == None ==> forall k ::
              && (k in removed ==> RemoveOne(Lookup(old(draft.occurrences), k), CloseReasonOf(removed[k]).value).Ok?)
              && Lookup(draft.occurrences, k)
                   == if k in removed
                      then RemoveOne(Lookup(old(draft.occurrences), k), CloseReasonOf(removed[k]).value).value
                      else Lookup(old(draft.occurrences), k)
    ensures err != None ==>
              && err == Some(RevisionExhausted)
              && exists k :: k in removed && k in old(draft.occurrences)
                             && RemoveOne(Lookup(old(draft.occurrences), k), CloseReasonOf(removed[k]).value).Err?
  {
    ghost var before := draft.occurrences;
    var keys := removed.Keys;
    while keys != {}
      invariant keys <= removed.Keys
      invariant forall k | k in removed && k !in keys ::
                  RemoveOne(Lookup(before, k), CloseReasonOf(removed[k]).value).Ok?
      invariant forall k :: Lookup(draft.occurrences, k)
                  == if k in removed && k !in keys
                     then RemoveOne(Lookup(before, k), CloseReasonOf(removed[k]).value).value
                     else Lookup(before, k)
    {
      var key :| key in keys;
      ghost var was := draft.occurrences;
      assert Lookup(was, key) == Lookup(before, key);
      var reason := CloseReasonOf(removed[key]);
      err := ReconcileRemoved(draft, key, reason.value);
      if err != None {
        return err;
      }
      forall k | k != key
        ensures Lookup(draft.occurrences, k) == Lookup(was, k)
      {
      }
      keys := keys - {key};
    }
    return None;
  }

  // What leaves a key absent leaves nothing to list under it.
  lemma OutcomeTouched(s: State, poll: PollResult, at: Time, lead: nat, k: Key)
    requires k !in TouchedKeys(s, poll)
    ensures OutcomeAt(s, poll, at, lead, k).Ok? ==> OutcomeAt(s, poll, at, lead, k).value.None?
  {
  }

  // The poll itself is well formed: what fails now is a revision counter.
  ghost predicate WellFormedPoll(poll: PollResult) {
    && FirstObservationError(poll.observations).None?
    && !exists i :: 0 <= i < |poll.meetings| && poll.meetings[i].key == ""
  }

  // A successful poll writes one account's snapshot and health and nothing else
  // outside the occurrences.
  lemma ReconciledFrame(s: State, poll: PollResult, at: Time, lead: nat)
    requires Reconciled(s, poll, at, lead).Ok?
    ensures var after := Reconciled(s, poll, at, lead).value;
            && after == s.(occurrences := after.occurrences, snapshots := after.snapshots, health := after.health)
            && Lookup(after.snapshots, poll.account) == Some(Snapshot(poll.fetchedAt, poll.meetings))
            && Lookup(after.health, poll.account) == Some(Health(poll.fetchedAt, None, false, ""))
            && forall account | account != poll.account ::
                 && Lookup(after.snapshots, account) == Lookup(s.snapshots, account)
                 && Lookup(after.health, account) == Lookup(s.health, account)
  {
  }

  lemma FailedKey(s: State, poll: PollResult, at: Time, lead: nat, k: Key)
    requires WellFormedPoll(poll)
    requires k in TouchedKeys(s, poll) && OutcomeAt(s, poll, at, lead, k).Err?
    ensures Reconciled(s, poll, at, lead) == Err(RevisionExhausted)
  {
  }

  lemma AllKeysReconciled(s: State, poll: PollResult, at: Time, lead: nat, final: map<Key, Occurrence>)
    requires WellFormedPoll(poll)
    requires forall k :: OutcomeAt(s, poll, at, lead, k) == Ok(Lookup(final, k))
    ensures Reconciled(s, poll, at, lead).Ok? && Reconciled(s, poll, at, lead).value.occurrences == final
  {
    assert forall k | k in TouchedKeys(s, poll) :: OutcomeAt(s, poll, at, lead, k).Ok?;
    var spec := Reconciled(s, poll, at, lead).value.occurrences;
    forall k
      ensures Lookup(final, k) == Lookup(spec, k)
    {
      assert OutcomeAt(s, poll, at, lead, k) == Ok(Lookup(final, k));
      if k !in TouchedKeys(s, poll) {
        OutcomeTouched(s, poll, at, lead, k);
      }
    }
    SameEntries(final, spec);
  }

  // The state after each loop, key by key.

  ghost predicate VanishedAway(s: State, poll: PollResult, first: map<Key, Occurrence>) {
    forall k :: AfterVanish(Lookup(s.occurrences, k), VerdictOf(s, poll, k)) == Ok(Lookup(first, k))
  }

  ghost predicate CurrentApplied(s: State, poll: PollResult, at: Time, lead: nat,
                                 first: map<Key, Occurrence>, second: map<Key, Occurrence>) {
    forall k :: AfterCurrent(Lookup(first, k), VerdictOf(s, poll, k), at, lead) == Ok(Lookup(second, k))
  }

  lemma VanishStage(s: State, poll: PollResult, present: set<Key>, first: map<Key, Occurrence>)
    requires present == CurrentMeetings(poll.meetings).Keys + ObservedKeys(poll.observations)
    requires forall k ::
               (var vanished := k in SnapshotKeys(PreviousMeetings(s, poll.account)) && k !in present;
                && (vanished ==> RemoveOne(Lookup(s.occurrences, k), CloseDeleted).Ok?)
                && Lookup(first, k) == if vanished then RemoveOne(Lookup(s.occurrences, k), CloseDeleted).value
                                       else Lookup(s.occurrences, k))
    ensures VanishedAway(s, poll, first)
  {
  }

  lemma CurrentStage(s: State, poll: PollResult, at: Time, lead: nat, first: map<Key, Occurrence>,
                     second: map<Key, Occurrence>)
    requires var current := CurrentMeetings(poll.meetings);
             forall k ::
               && (k in current ==> CurrentOne(Lookup(first, k), current[k], at, lead).Ok?)
               && Lookup(second, k) == if k in current
                                       then Some(CurrentOne(Lookup(first, k), current[k], at, lead).value)
                                       else Lookup(first, k)
    ensures CurrentApplied(s, poll, at, lead, first, second)
  {
  }

  lemma VanishFails(s: State, poll: PollResult, at: Time, lead: nat, k: Key)
    requires WellFormedPoll(poll)
    requires VerdictOf(s, poll, k).vanished && RemoveOne(Lookup(s.occurrences, k), CloseDeleted).Err?
    ensures Reconciled(s, poll, at, lead) == Err(RevisionExhausted)
  {
    FailedKey(s, poll, at, lead, k);
  }

  lemma CurrentFails(s: State, poll: PollResult, at: Time, lead: nat, first: map<Key, Occurrence>, k: Key)
    requires WellFormedPoll(poll) && VanishedAway(s, poll, first)
    requires k in CurrentMeetings(poll.meetings)
    requires CurrentOne(Lookup(first, k), CurrentMeetings(poll.meetings)[k], at, lead).Err?
    ensures Reconciled(s, poll, at, lead) == Err(RevisionExhausted)
  {
    assert AfterVanish(Lookup(s.occurrences, k), VerdictOf(s, poll, k)) == Ok(Lookup(first, k));
    FailedKey(s, poll, at, lead, k);
  }

  lemma RemovalFails(s: State, poll: PollResult, at: Time, lead: nat,
                     first: map<Key, Occurrence>, second: map<Key, Occurrence>, k: Key)
    requires WellFormedPoll(poll) && VanishedAway(s, poll, first) && CurrentApplied(s, poll, at, lead, first, second)
    requires k in second && AfterRemoval(Lookup(second, k), VerdictOf(s, poll, k)).Err?
    ensures Reconciled(s, poll, at, lead) == Err(RevisionExhausted)
  {
    assert AfterVanish(Lookup(s.occurrences, k), VerdictOf(s, poll, k)) == Ok(Lookup(first, k));
    assert AfterCurrent(Lookup(first, k), VerdictOf(s, poll, k), at, lead) == Ok(Lookup(second, k));
    FailedKey(s, poll, at, lead, k);
  }

  lemma AllStages(s: State, poll: PollResult, at: Time, lead: nat,
                  first: map<Key, Occurrence>, second: map<Key, Occurrence>, third: map<Key, Occurrence>)
    requires WellFormedPoll(poll) && VanishedAway(s, poll, first) && CurrentApplied(s, poll, at, lead, first, second)
    requires forall k :: AfterRemoval(Lookup(second, k), VerdictOf(s, poll, k)) == Ok(Lookup(third, k))
    ensures Reconciled(s, poll, at, lead).Ok? && Reconciled(s, poll, at, lead).value.occurrences == third
  {
    forall k
      ensures OutcomeAt(s, poll, at, lead, k) == Ok(Lookup(third, k))
    {
      assert AfterVanish(Lookup(s.occurrences, k), VerdictOf(s, poll, k)) == Ok(Lookup(first, k));
      assert AfterCurrent(Lookup(first, k), VerdictOf(s, poll, k), at, lead) == Ok(Lookup(second, k));
      assert AfterRemoval(Lookup(second, k), VerdictOf(s, poll, k)) == Ok(Lookup(third, k));
    }
    AllKeysReconciled(s, poll, at, lead, third);
  }

  // Whatever order the runtime walks the maps in, the outcome is the pointwise one.
  method Reconcile(draft: Draft, poll: PollResult, at: Time, policy: Policy) returns (err: Option<Error>)
    modifies draft
    ensures match Reconciled(old(draft.View()), poll, at, policy.lead)
            case Err(e) => err == Some(e)
            case Ok(s) => err == None && draft.View() == s
  {
    ghost var s := draft.View();
    err := ValidateObservations(poll.observations);
    if err != None {
      return err;
    }
    var current, keyed := CollectCurrent(poll.meetings);
    if !keyed {
      return Some(MeetingWithoutKey);
    }
    var previous := PreviousMeetings(draft.View(), poll.account);
    var removed, present := CollectRemoved(draft.View(), previous, poll.observations, current);
    RemovalsClassified(poll.observations, KnownKeys(s, poll.account));
    err := ReconcileKeys(draft, s, poll, previous, present, current, removed, at, policy);
    if err != None {
      return err;
    }
    draft.snapshots := draft.snapshots[poll.account := Snapshot(poll.fetchedAt, poll.meetings)];
    draft.health := draft.health[poll.account := Health(poll.fetchedAt, None, false, "")];
    return None;
  }

  method ReconcileKeys(draft: Draft, ghost s: State, poll: PollResult, previous: seq<Meeting>, present: set<Key>,
                       current: map<Key, Meeting>, removed: map<Key, RemovedReason>, at: Time, policy: Policy)
    returns (err: Option<Error>)
    requires draft.View() == s && WellFormedPoll(poll)
    requires previous == PreviousMeetings(s, poll.account)
    requires current == CurrentMeetings(poll.meetings)
    requires present == current.Keys + ObservedKeys(poll.observations)
    requires removed == Removals(poll.observations, KnownKeys(s, poll.account))
    requires forall k | k in removed :: CloseReasonOf(removed[k]).Some?
    modifies draft`occurrences
    ensures match Reconciled(s, poll, at, policy.lead)
            case Err(e) => err == Some(e)
            case Ok(after) => err == None && draft.occurrences == after.occurrences
  {
    err := RemoveVanished(draft, previous, present);
    ghost var first := draft.occurrences;
    if err != None {
      ghost var k :| k in SnapshotKeys(previous) && k !in present && k in s.occurrences
                     && RemoveOne(Lookup(s.occurrences, k), CloseDeleted).Err?;
      VanishFails(s, poll, at, policy.lead, k);
      return err;
    }
    VanishStage(s, poll, present, first);
    err := ReconcileAllCurrent(draft, current, at, policy);
    ghost var second := draft.occurrences;
    if err != None {
      ghost var k :| k in current && CurrentOne(Lookup(first, k), current[k], at, policy.lead).Err?;
      CurrentFails(s, poll, at, policy.lead, first, k);
      return err;
    }
    CurrentStage(s, poll, at, policy.lead, first, second);
    err := ReconcileAllRemoved(draft, removed);
    if err != None {
      ghost var k :| k in removed && k in second && RemoveOne(Lookup(second, k), CloseReasonOf(removed[k]).value).Err?;
      RemovalFails(s, poll, at, policy.lead, first, second, k);
      return err;
    }
    AllStages(s, poll, at, policy.lead, first, second, draft.occurrences);
    return None;
  }
}

// The durable state and its field rules (internal/storage).
module Storage {
  import opened Wrappers
  import opened Meetings

  const STATE_VERSION := 1
  const MAX_REVISION: nat := 0xFFFF_FFFF_FFFF_FFFF

  type Revision = n: nat | n <= MAX_REVISION
  type NotificationId = n: nat | n <= 0xFFFF_FFFF

  datatype Phase =
    | NoPhase               // the empty string
    | Scheduled
    | NotifyPending
    | Notified
    | ActionableHistory
    | JoinPending
    | Joined
    | ClosePending
    | OtherPhase(text: string)   // any other text a stored file may hold

  datatype CloseReason =
    | NoReason              // the empty string
    | CloseCancelled
    | CloseDeleted
    | CloseDeclined
    | CloseURLRemoved
    | CloseRescheduled
    | CloseNonActionable
    | CloseExpired
    | OtherReason(text: string)  // any other text

  datatype Occurrence = Occurrence(
    meeting: Meeting,
    phase: Phase,
    notificationId: NotificationId,
    notifiedAt: Time,
    actionExpiresAt: Time,
    notBefore: Time,
    attempt: int,
    joinRequestedAt: Time,
    joinedAt: Time,
    closeReason: CloseReason,
    resumePhase: Phase,
    notifyRevision: Revision,
    joinRevision: Revision)

  datatype Snapshot = Snapshot(fetchedAt: Time, meetings: seq<Meeting>)

  // lastError holds the poll error kind; None is no error.
  datatype PollErrorKind = Authentication | RateLimit | Transient | Permanent

  datatype Health = Health(lastSuccess: Time, lastError: Option<PollErrorKind>,
                           needsAuth: bool, authorizationGeneration: string)

  datatype AuthWarning = AuthWarning(revision: Revision, createdAt: Time, notBefore: Time, attempt: int)

  datatype State = State(
    version: int,
    snapshots: map<Label, Snapshot>,
    occurrences: map<Key, Occurrence>,
    authWarnings: map<Label, Time>,
    authWarningRevisions: map<Label, Revision>,
    pendingAuthWarnings: map<Label, AuthWarning>,
    health: map<Label, Health>)

  const EMPTY := State(STATE_VERSION, map[], map[], map[], map[], map[], map[])

  type Index = map<NotificationId, Key>

  predicate NoAction(o: Occurrence) {
    o.notificationId == 0 && o.notifiedAt == 0 && o.actionExpiresAt == 0
  }

  predicate HasAction(o: Occurrence) {
    o.notificationId != 0 && o.notifiedAt != 0 && o.actionExpiresAt != 0
  }

  predicate NoRetry(o: Occurrence) {
    o.notBefore == 0 && o.attempt == 0
  }

  predicate NoJoin(o: Occurrence) {
    o.joinRequestedAt == 0 && o.joinedAt == 0
  }

  predicate NoClose(o: Occurrence) {
    o.closeReason == NoReason && o.resumePhase == NoPhase
  }

  predicate ValidReason(r: CloseReason) {
    r != NoReason && !r.OtherReason?
  }

  predicate ValidOccurrence(o: Occurrence) {
    && o.meeting.key != "" && o.meeting.accountLabel != ""
    && o.attempt >= 0
    && match o.phase
       case NoPhase => false
       case OtherPhase(_) => false
       case Scheduled => NoAction(o) && NoRetry(o) && NoJoin(o) && NoClose(o)
       case NotifyPending => o.notifiedAt == 0 && o.actionExpiresAt == 0 && NoJoin(o) && NoClose(o)
       case Notified => HasAction(o) && NoRetry(o) && NoJoin(o) && NoClose(o)
       case ActionableHistory => HasAction(o) && NoRetry(o) && NoJoin(o) && NoClose(o)
       case JoinPending =>
         && HasAction(o) && o.joinRequestedAt != 0 && o.joinRevision != 0
         && (o.resumePhase == Notified || o.resumePhase == ActionableHistory)
         && NoRetry(o) && o.joinedAt == 0 && o.closeReason == NoReason
       case Joined =>
         && o.joinedAt != 0 && o.joinRevision != 0
         && NoAction(o) && NoRetry(o) && o.joinRequestedAt == 0 && NoClose(o)
       case ClosePending =>
         && o.notificationId != 0 && ValidReason(o.closeReason)
         && o.notifiedAt == 0 && o.actionExpiresAt == 0 && NoJoin(o)
         && (o.attempt == 0 <==> o.notBefore == 0)
         && (o.resumePhase != NoPhase ==>
               && o.closeReason == CloseRescheduled
               && (o.resumePhase == Scheduled || o.resumePhase == NotifyPending))
  }

  predicate Shows(p: Phase) {
    p == Notified || p == ActionableHistory || p == JoinPending
  }

  // The same rules read field by field: each field tells which phases it belongs to.
  ghost predicate FieldsFit(o: Occurrence) {
    && o.meeting.key != "" && o.meeting.accountLabel != "" && o.attempt >= 0
    && o.phase in {Scheduled, NotifyPending, Notified, ActionableHistory, JoinPending, Joined, ClosePending}
    && (Shows(o.phase) || o.phase == ClosePending ==> o.notificationId != 0)
    && (o.phase == Scheduled || o.phase == Joined ==> o.notificationId == 0)
    && (o.notifiedAt != 0 <==> Shows(o.phase)) && (o.actionExpiresAt != 0 <==> Shows(o.phase))
    && (o.notBefore != 0 || o.attempt != 0 ==> o.phase == NotifyPending || o.phase == ClosePending)
    && (o.phase == ClosePending ==> (o.attempt == 0 <==> o.notBefore == 0))
    && (o.joinRequestedAt != 0 <==> o.phase == JoinPending) && (o.joinedAt != 0 <==> o.phase == Joined)
    && (o.phase == JoinPending || o.phase == Joined ==> o.joinRevision != 0)
    && (o.closeReason != NoReason <==> o.phase == ClosePending) && !o.closeReason.OtherReason?
    && (o.resumePhase != NoPhase ==>
          || (o.phase == JoinPending && (o.resumePhase == Notified || o.resumePhase == ActionableHistory))
          || (o.phase == ClosePending && o.closeReason == CloseRescheduled
              && (o.resumePhase == Scheduled || o.resumePhase == NotifyPending)))
    && (o.phase == JoinPending ==> o.resumePhase != NoPhase)
  }

  // An occurrence is valid exactly when every field fits its phase.
  lemma ValidIffFieldsFit(o: Occurrence)
    ensures ValidOccurrence(o) <==> FieldsFit(o)
  {
  }

  predicate ValidWarning(s: State, account: Label)
    requires account in s.pendingAuthWarnings
  {
    var w := s.pendingAuthWarnings[account];
    && account != "" && w.revision != 0 && w.createdAt != 0 && w.notBefore != 0 && w.attempt >= 0
    && account in s.authWarningRevisions && s.authWarningRevisions[account] == w.revision
  }

  ghost predicate ValidOccurrences(occurrences: map<Key, Occurrence>) {
    && (forall k | k in occurrences :: occurrences[k].meeting.key == k && ValidOccurrence(occurrences[k]))
    && UniqueIds(occurrences)
  }

  ghost predicate UniqueIds(occurrences: map<Key, Occurrence>) {
    forall j, k | j in occurrences && k in occurrences && j != k && occurrences[j].notificationId != 0 ::
      occurrences[j].notificationId != occurrences[k].notificationId
  }

  ghost predicate ValidWarnings(s: State) {
    forall account | account in s.pendingAuthWarnings :: ValidWarning(s, account)
  }

  ghost predicate Valid(s: State) {
    && s.version == STATE_VERSION
    && ValidWarnings(s)
    && ValidOccurrences(s.occurrences)
  }

  // State.Validate walks both maps in whatever order the runtime gives and
  // collects the ids it has seen.
  method Validate(s: State) returns (ok: bool)
    ensures ok <==> Valid(s)
  {
    if s.version != STATE_VERSION {
      return false;
    }
    var labels := s.pendingAuthWarnings.Keys;
    while labels != {}
      invariant labels <= s.pendingAuthWarnings.Keys
      invariant forall l | l in s.pendingAuthWarnings && l !in labels :: ValidWarning(s, l)
    {
      var account :| account in labels;
      if !ValidWarning(s, account) {
        return false;
      }
      labels := labels - {account};
    }
    var keys := s.occurrences.Keys;
    var seen: Index := map[];
    while keys != {}
      invariant keys <= s.occurrences.Keys
      invariant forall k | k in s.occurrences && k !in keys ::
                  s.occurrences[k].meeting.key == k && ValidOccurrence(s.occurrences[k])
      invariant forall id | id in seen ::
                  seen[id] in s.occurrences && seen[id] !in keys && s.occurrences[seen[id]].notificationId == id
      invariant forall k | k in s.occurrences && k !in keys && s.occurrences[k].notificationId != 0 ::
                  s.occurrences[k].notificationId in seen && seen[s.occurrences[k].notificationId] == k
    {
      var key :| key in keys;
      var o := s.occurrences[key];
      if key != o.meeting.key || !ValidOccurrence(o) {
        return false;
      }
      if o.notificationId != 0 {
        if o.notificationId in seen {
          assert seen[o.notificationId] != key;
          return false;
        }
        seen := seen[o.notificationId := key];
      }
      keys := keys - {key};
    }
    return true;
  }

  // What the index of a state is: the id field read backwards.
  ghost predicate IsIndexOf(index: Index, occurrences: map<Key, Occurrence>) {
    && (forall id | id in index ::
          id != 0 && index[id] in occurrences && occurrences[index[id]].notificationId == id)
    && (forall k | k in occurrences && occurrences[k].notificationId != 0 ::
          occurrences[k].notificationId in index && index[occurrences[k].notificationId] == k)
  }

  method NotificationIndex(s: State) returns (index: Option<Index>)
    ensures index.Some? <==> Valid(s)
    ensures index.Some? ==> IsIndexOf(index.value, s.occurrences)
  {
    var ok := Validate(s);
    if !ok {
      return None;
    }
    var keys := s.occurrences.Keys;
    var built: Index := map[];
    while keys != {}
      invariant keys <= s.occurrences.Keys
      invariant forall id | id in built ::
                  id != 0 && built[id] in s.occurrences && s.occurrences[built[id]].notificationId == id
      invariant forall k | k in s.occurrences && k !in keys && s.occurrences[k].notificationId != 0 ::
                  s.occurrences[k].notificationId in built && built[s.occurrences[k].notificationId] == k
    {
      var key :| key in keys;
      if s.occurrences[key].notificationId != 0 {
        built := built[s.occurrences[key].notificationId := key];
      }
      keys := keys - {key};
    }
    return Some(built);
  }

  // A state has one index only, so the published index can be compared with ==.
  lemma IndexUnique(a: Index, b: Index, occurrences: map<Key, Occurrence>)
    requires IsIndexOf(a, occurrences) && IsIndexOf(b, occurrences)
    ensures a == b
  {
    forall id
      ensures Lookup(a, id) == Lookup(b, id)
    {
      if id in a {
        assert occurrences[a[id]].notificationId == id;
      }
      if id in b {
        assert occurrences[b[id]].notificationId == id;
      }
    }
    SameEntries(a, b);
  }

  ghost function IndexOf(occurrences: map<Key, Occurrence>): (index: Index)
    requires UniqueIds(occurrences)
    ensures IsIndexOf(index, occurrences)
  {
    var index: Index := map k | k in occurrences && occurrences[k].notificationId != 0 ::
      occurrences[k].notificationId := k;
    assert forall k | k in occurrences && occurrences[k].notificationId != 0 ::
        occurrences[k].notificationId in index
          && occurrences[index[occurrences[k].notificationId]].notificationId == occurrences[k].notificationId;
    index
  }

  // Ids are unique exactly when the id field can be read backwards.
  lemma UniqueIffIndexed(occurrences: map<Key, Occurrence>)
    ensures UniqueIds(occurrences) <==> exists index :: IsIndexOf(index, occurrences)
  {
    if UniqueIds(occurrences) {
      assert IsIndexOf(IndexOf(occurrences), occurrences);
    }
  }

  function NextRevision(current: Revision): (r: Option<Revision>) {
    if current == MAX_REVISION then None else Some(current + 1)
  }

  // Legacy states carry zero revisions where a revision is now required.
  function NormalizeOne(o: Occurrence): Occurrence {
    var notify := if o.notifyRevision == 0 && o.phase != Scheduled && o.phase != Joined then 1 else o.notifyRevision;
    var join := if o.joinRevision == 0 && (o.phase == JoinPending || o.phase == Joined) then 1 else o.joinRevision;
    o.(notifyRevision := notify, joinRevision := join)
  }

  function NormalOccurrences(occurrences: map<Key, Occurrence>): map<Key, Occurrence> {
    map k | k in occurrences :: NormalizeOne(occurrences[k])
  }

  ghost predicate AllNormal(occurrences: map<Key, Occurrence>) {
    forall k | k in occurrences :: NormalizeOne(occurrences[k]) == occurrences[k]
  }

  // What copyState and NormalizeLegacy make of a state: a copy is of the current
  // version, whatever version the original names.
  function Normalized(s: State): State {
    s.(version := STATE_VERSION, occurrences := NormalOccurrences(s.occurrences))
  }

  ghost predicate IsNormal(s: State) {
    s.version == STATE_VERSION && AllNormal(s.occurrences)
  }

  // Normalizing twice is normalizing once, and a normal state is left alone.
  lemma NormalizedIdempotent(s: State)
    ensures IsNormal(Normalized(s))
    ensures IsNormal(s) <==> Normalized(s) == s
    ensures Normalized(Normalized(s)) == Normalized(s)
  {
    var n := Normalized(s);
    assert Normalized(n).occurrences == n.occurrences;
    if AllNormal(s.occurrences) {
      assert n.occurrences == s.occurrences;
    } else {
      var k :| k in s.occurrences && NormalizeOne(s.occurrences[k]) != s.occurrences[k];
      assert n.occurrences[k] != s.occurrences[k];
    }
  }
}

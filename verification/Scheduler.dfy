// Which durable work is ready, and which item goes first (daemon/scheduler.go).
module Scheduler {
  import opened Wrappers
  import opened Order
  import opened Meetings
  import opened Storage
  import opened Events

  function RankOf(occurrences: map<Key, Occurrence>, k: Key): Rank
    requires k in occurrences
  {
    Rank(occurrences[k].meeting.start, k)
  }

  predicate NotificationReady(o: Occurrence, at: Time, lead: nat) {
    || (o.phase == NotifyPending && Due(o.meeting, at, lead) && o.notBefore <= at)
    || (o.phase == ClosePending && o.notBefore <= at)
  }

  function NotificationEffectOf(k: Key, o: Occurrence): Effect {
    if o.phase == NotifyPending then
      NotifyEffect(k, NotifyCommand(k, "", o.notifyRevision,
        Request(o.notificationId, o.meeting.summary, MeetingBody(o.meeting.accountLabel, o.meeting.start),
                ["join", "Join"])))
    else
      CloseEffect(k, CloseCommand(k, o.notificationId))
  }

  function LaunchEffectOf(k: Key, o: Occurrence): Effect {
    LaunchEffect(k, o.meeting.url, o.meeting.accountLabel, o.joinRevision)
  }

  function WarningEffectOf(account: Label, revision: Revision): Effect {
    AuthWarningEffect(account, NotifyCommand("", account, revision,
      Request(0, "Meeting notifier authorization required", WarningBody(account), [])))
  }

  // The specification of each selector: the least ready item, if any is ready.

  function ReadyNotifications(occurrences: map<Key, Occurrence>, at: Time, lead: nat): set<Rank> {
    set k | k in occurrences && NotificationReady(occurrences[k], at, lead) :: RankOf(occurrences, k)
  }

  function ReadyLaunches(occurrences: map<Key, Occurrence>): set<Rank> {
    set k | k in occurrences && occurrences[k].phase == JoinPending :: RankOf(occurrences, k)
  }

  function ReadyWarnings(pending: map<Label, AuthWarning>, at: Time): set<Rank> {
    set l | l in pending && pending[l].notBefore <= at :: Rank(pending[l].createdAt, l)
  }

  lemma LeastExistsAuto(s: set<Rank>)
    requires s != {}
    ensures exists r :: IsLeast(r, s)
  {
    var r := LeastExists(s);
  }

  ghost function Least(s: set<Rank>): (r: Rank)
    requires s != {}
    ensures IsLeast(r, s)
  {
    LeastExistsAuto(s);
    var r :| IsLeast(r, s);
    r
  }

  ghost function OldestNotification(occurrences: map<Key, Occurrence>, at: Time, lead: nat): Option<Effect> {
    var ready := ReadyNotifications(occurrences, at, lead);
    if ready == {} then None
    else var k := Least(ready).name; Some(NotificationEffectOf(k, occurrences[k]))
  }

  ghost function OldestLaunch(occurrences: map<Key, Occurrence>): Option<Effect> {
    var ready := ReadyLaunches(occurrences);
    if ready == {} then None
    else var k := Least(ready).name; Some(LaunchEffectOf(k, occurrences[k]))
  }

  ghost function OldestWarning(pending: map<Label, AuthWarning>, at: Time): Option<Effect> {
    var ready := ReadyWarnings(pending, at);
    if ready == {} then None
    else var l := Least(ready).name; Some(WarningEffectOf(l, pending[l].revision))
  }

  ghost predicate AnyDue(occurrences: map<Key, Occurrence>, at: Time, lead: nat) {
    exists k | k in occurrences :: occurrences[k].phase == Scheduled && Due(occurrences[k].meeting, at, lead)
  }

  ghost function OptionSeq(e: Option<Effect>): seq<Effect> {
    if e.Some? then [e.value] else []
  }

  ghost function PendingEffects(occurrences: map<Key, Occurrence>, at: Time, lead: nat): seq<Effect> {
    OptionSeq(OldestNotification(occurrences, at, lead)) + OptionSeq(OldestLaunch(occurrences))
  }

  // The slices of the source are filled in map order and then sorted.

  ghost predicate Sorted(ranks: seq<Rank>) {
    forall i, j | 0 <= i < j < |ranks| :: Before(ranks[i], ranks[j])
  }

  method InsertRank(sorted: seq<Rank>, r: Rank) returns (out: seq<Rank>)
    requires Sorted(sorted) && r !in sorted
    ensures Sorted(out)
    ensures forall q :: q in out <==> q in sorted || q == r
  {
    var i := 0;
    while i < |sorted| && Before(sorted[i], r)
      invariant 0 <= i <= |sorted|
      invariant forall j | 0 <= j < i :: Before(sorted[j], r)
    {
      i := i + 1;
    }
    forall j | i <= j < |sorted|
      ensures Before(r, sorted[j])
    {
      BeforeStrict(r, sorted[i], sorted[j]);
    }
    out := sorted[..i] + [r] + sorted[i..];
    forall q
      ensures q in out <==> q in sorted || q == r
    {
      assert sorted == sorted[..i] + sorted[i..];
    }
  }

  method SortRanks(ranks: set<Rank>) returns (sorted: seq<Rank>)
    ensures Sorted(sorted)
    ensures forall q :: q in sorted <==> q in ranks
  {
    sorted := [];
    var todo := ranks;
    while todo != {}
      invariant todo <= ranks
      invariant Sorted(sorted)
      invariant forall q :: q in sorted <==> q in ranks && q !in todo
    {
      var r :| r in todo;
      sorted := InsertRank(sorted, r);
      todo := todo - {r};
    }
  }

  lemma SortedTail(a: seq<Rank>)
    requires Sorted(a) && a != []
    ensures forall q :: q in a[1..] <==> q in a && q != a[0]
  {
    forall q
      ensures q in a[1..] <==> q in a && q != a[0]
    {
      assert a == [a[0]] + a[1..];
      BeforeStrict(q, q, q);
      if q in a[1..] {
        var i :| 0 <= i < |a[1..]| && a[1..][i] == q;
        assert Before(a[0], a[i + 1]);
      }
    }
  }

  // There is one sorted permutation, so neither the map order nor the sorting
  // algorithm can show in the result.
  lemma {:induction false} SortedUnique(a: seq<Rank>, b: seq<Rank>)
    requires Sorted(a) && Sorted(b)
    requires forall q :: q in a <==> q in b
    ensures a == b
  {
    assert a != [] ==> a[0] in b;
    assert b != [] ==> b[0] in a;
    if a != [] {
      if a[0] != b[0] {
        var i :| 0 <= i < |a| && a[i] == b[0];
        var j :| 0 <= j < |b| && b[j] == a[0];
        BeforeStrict(a[0], b[0], a[0]);
      }
      SortedTail(a);
      SortedTail(b);
      SortedUnique(a[1..], b[1..]);
    }
  }

  ghost predicate OrderedKeys(keys: seq<Key>, occurrences: map<Key, Occurrence>) {
    && (forall k :: k in keys <==> k in occurrences)
    && (forall i, j | 0 <= i < j < |keys| ::
          Before(RankOf(occurrences, keys[i]), RankOf(occurrences, keys[j])))
  }

  method OrderedOccurrenceKeys(occurrences: map<Key, Occurrence>) returns (keys: seq<Key>)
    ensures OrderedKeys(keys, occurrences)
  {
    var ranks := set k | k in occurrences :: RankOf(occurrences, k);
    var sorted := SortRanks(ranks);
    keys := [];
    for i := 0 to |sorted|
      invariant |keys| == i
      invariant forall j | 0 <= j < i :: keys[j] == sorted[j].name
    {
      keys := keys + [sorted[i].name];
    }
    forall i | 0 <= i < |keys|
      ensures keys[i] in occurrences && RankOf(occurrences, keys[i]) == sorted[i]
    {
      assert sorted[i] in ranks;
    }
    forall k | k in occurrences
      ensures k in keys
    {
      assert RankOf(occurrences, k) in sorted;
      var i :| 0 <= i < |sorted| && sorted[i] == RankOf(occurrences, k);
      assert keys[i] == k;
    }
  }

  lemma OccursOnce(keys: seq<Key>, i: nat)
    requires i < |keys| && forall j | 0 <= j < |keys| && j != i :: keys[j] != keys[i]
    ensures multiset(keys)[keys[i]] == 1
  {
    assert keys == keys[..i] + [keys[i]] + keys[i + 1..];
    assert keys[i] !in multiset(keys[..i]) && keys[i] !in multiset(keys[i + 1..]);
  }

  // An ordered key list is a permutation of the map's keys without repeats.
  lemma OrderedKeysIsPermutation(keys: seq<Key>, occurrences: map<Key, Occurrence>)
    requires OrderedKeys(keys, occurrences)
    ensures multiset(keys) == multiset(occurrences.Keys)
  {
    forall i, j | 0 <= i < j < |keys|
      ensures keys[i] != keys[j]
    {
      BeforeStrict(RankOf(occurrences, keys[i]), RankOf(occurrences, keys[j]), RankOf(occurrences, keys[i]));
    }
    forall k | k in occurrences
      ensures multiset(keys)[k] == 1
    {
      assert k in keys;
      var i :| 0 <= i < |keys| && keys[i] == k;
      OccursOnce(keys, i);
    }
    forall k | k !in occurrences
      ensures multiset(keys)[k] == 0
    {
      assert k !in keys;
    }
  }

  method OldestNotificationEffect(occurrences: map<Key, Occurrence>, keys: seq<Key>, at: Time, policy: Policy)
    returns (effect: Option<Effect>)
    requires OrderedKeys(keys, occurrences)
    ensures effect == OldestNotification(occurrences, at, policy.lead)
  {
    ghost var ready := ReadyNotifications(occurrences, at, policy.lead);
    for i := 0 to |keys|
      invariant forall j | 0 <= j < i :: !NotificationReady(occurrences[keys[j]], at, policy.lead)
    {
      var o := occurrences[keys[i]];
      if o.phase == NotifyPending {
        if Due(o.meeting, at, policy.lead) && o.notBefore <= at {
          FirstIsLeast(occurrences, keys, i, ready);
          return Some(NotificationEffectOf(keys[i], o));
        }
      } else if o.phase == ClosePending {
        if o.notBefore <= at {
          FirstIsLeast(occurrences, keys, i, ready);
          return Some(NotificationEffectOf(keys[i], o));
        }
      }
    }
    return None;
  }

  method OldestLaunchEffect(occurrences: map<Key, Occurrence>, keys: seq<Key>) returns (effect: Option<Effect>)
    requires OrderedKeys(keys, occurrences)
    ensures effect == OldestLaunch(occurrences)
  {
    ghost var ready := ReadyLaunches(occurrences);
    for i := 0 to |keys|
      invariant forall j | 0 <= j < i :: occurrences[keys[j]].phase != JoinPending
    {
      var o := occurrences[keys[i]];
      if o.phase == JoinPending {
        FirstIsLeast(occurrences, keys, i, ready);
        return Some(LaunchEffectOf(keys[i], o));
      }
    }
    return None;
  }

  // The first ready key of an ordered list carries the least ready rank.
  lemma FirstIsLeast(occurrences: map<Key, Occurrence>, keys: seq<Key>, i: nat, ready: set<Rank>)
    requires OrderedKeys(keys, occurrences) && i < |keys|
    requires forall r | r in ready :: r.name in occurrences && r == RankOf(occurrences, r.name)
    requires RankOf(occurrences, keys[i]) in ready
    requires forall j | 0 <= j < i :: RankOf(occurrences, keys[j]) !in ready
    ensures Least(ready) == RankOf(occurrences, keys[i])
  {
    var r := RankOf(occurrences, keys[i]);
    forall q | q in ready
      ensures q == r || Before(r, q)
    {
      assert q.name in keys;
      var j :| 0 <= j < |keys| && keys[j] == q.name;
    }
    LeastUnique(r, Least(ready), ready);
  }

  method PendingEffectsOf(occurrences: map<Key, Occurrence>, at: Time, policy: Policy) returns (effects: seq<Effect>)
    ensures effects == PendingEffects(occurrences, at, policy.lead)
  {
    var keys := OrderedOccurrenceKeys(occurrences);
    effects := [];
    var notification := OldestNotificationEffect(occurrences, keys, at, policy);
    if notification != None {
      effects := effects + [notification.value];
    }
    var launch := OldestLaunchEffect(occurrences, keys);
    if launch != None {
      effects := effects + [launch.value];
    }
  }

  method OldestAuthWarningEffect(pending: map<Label, AuthWarning>, at: Time) returns (effect: Option<Effect>)
    ensures effect == OldestWarning(pending, at)
  {
    var ranks := set l | l in pending :: Rank(pending[l].createdAt, l);
    var sorted := SortRanks(ranks);
    ghost var ready := ReadyWarnings(pending, at);
    for i := 0 to |sorted|
      invariant forall j | 0 <= j < i :: sorted[j] !in ready
    {
      assert sorted[i] in ranks;
      var account := sorted[i].name;
      var warning := pending[account];
      if warning.notBefore <= at {
        forall q | q in ready
          ensures q == sorted[i] || Before(sorted[i], q)
        {
          assert q in ranks;
          var j :| 0 <= j < |sorted| && sorted[j] == q;
        }
        assert sorted[i] in ready;
        LeastUnique(sorted[i], Least(ready), ready);
        return Some(WarningEffectOf(account, warning.revision));
      }
    }
    forall q
      ensures q !in ready
    {
      if q in ranks {
        var j :| 0 <= j < |sorted| && sorted[j] == q;
      }
    }
    return None;
  }

  method HasDue(occurrences: map<Key, Occurrence>, at: Time, policy: Policy) returns (due: bool)
    ensures due <==> AnyDue(occurrences, at, policy.lead)
  {
    var keys := occurrences.Keys;
    while keys != {}
      invariant keys <= occurrences.Keys
      invariant forall k | k in occurrences && k !in keys ::
                  !(occurrences[k].phase == Scheduled && Due(occurrences[k].meeting, at, policy.lead))
    {
      var k :| k in keys;
      if occurrences[k].phase == Scheduled && Due(occurrences[k].meeting, at, policy.lead) {
        return true;
      }
      keys := keys - {k};
    }
    return false;
  }

  // A backed-off item never blocks a ready one: the selector offers work exactly
  // when some item is ready, and what it offers is ready and comes before every
  // other ready item.
  lemma SelectionIsLeastReady(occurrences: map<Key, Occurrence>, at: Time, lead: nat)
    ensures OldestNotification(occurrences, at, lead).Some?
            <==> exists k | k in occurrences :: NotificationReady(occurrences[k], at, lead)
    ensures OldestNotification(occurrences, at, lead).Some? ==>
              exists k | k in occurrences ::
                && NotificationReady(occurrences[k], at, lead)
                && OldestNotification(occurrences, at, lead).value == NotificationEffectOf(k, occurrences[k])
                && (forall j | j in occurrences && j != k && NotificationReady(occurrences[j], at, lead) ::
                      Before(RankOf(occurrences, k), RankOf(occurrences, j)))
  {
    var ready := ReadyNotifications(occurrences, at, lead);
    forall k | k in occurrences && NotificationReady(occurrences[k], at, lead)
      ensures ready != {}
    {
      assert RankOf(occurrences, k) in ready;
    }
    if ready != {} {
      var k := Least(ready).name;
      assert k in occurrences && NotificationReady(occurrences[k], at, lead);
      forall j | j in occurrences && j != k && NotificationReady(occurrences[j], at, lead)
        ensures Before(RankOf(occurrences, k), RankOf(occurrences, j))
      {
        assert RankOf(occurrences, j) in ready;
      }
    }
  }
}

// The working copy a reduction mutates: Go's *storage.State made by copyState.
module Drafts {
  import opened Wrappers
  import opened Meetings
  import opened Storage

  class Draft {
    var version: int
    var snapshots: map<Label, Snapshot>
    var occurrences: map<Key, Occurrence>
    var authWarnings: map<Label, Time>
    var authWarningRevisions: map<Label, Revision>
    var pendingAuthWarnings: map<Label, AuthWarning>
    var health: map<Label, Health>

    function View(): (s: State)
      reads this
    {
      State(version, snapshots, occurrences, authWarnings, authWarningRevisions, pendingAuthWarnings, health)
    }

    // copyState starts from a new state of the current version.
    constructor (s: State)
      ensures View() == s.(version := STATE_VERSION)
    {
      version := STATE_VERSION;
      snapshots := s.snapshots;
      occurrences := s.occurrences;
      authWarnings := s.authWarnings;
      authWarningRevisions := s.authWarningRevisions;
      pendingAuthWarnings := s.pendingAuthWarnings;
      health := s.health;
    }

    // NormalizeLegacy rewrites occurrences one at a time and reports whether
    // anything changed.
    method NormalizeLegacy() returns (changed: bool)
      modifies this`occurrences
      ensures occurrences == NormalOccurrences(old(occurrences))
      ensures changed <==> !AllNormal(old(occurrences))
    {
      ghost var before := occurrences;
      ghost var target := NormalOccurrences(occurrences);
      var keys := occurrences.Keys;
      changed := false;
      while keys != {}
        invariant keys <= before.Keys == occurrences.Keys == target.Keys
        invariant forall k | k in before :: occurrences[k] == if k in keys then before[k] else target[k]
        invariant changed <==> exists k :: k in before && k !in keys && target[k] != before[k]
      {
        var k :| k in keys;
        var o := NormalizeOne(occurrences[k]);
        if o != occurrences[k] {
          occurrences := occurrences[k := o];
          changed := true;
        }
        keys := keys - {k};
      }
      assert occurrences == target;
    }
  }
}

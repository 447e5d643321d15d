// What time alone does to occurrences (daemon/expiry.go).
module Expiry {
  import opened Wrappers
  import opened Meetings
  import opened Storage
  import opened Drafts

  const FALLBACK_LIFETIME: nat := 2 * HOUR

  predicate MeetingExpired(o: Occurrence, at: Time) {
    var expires := if o.meeting.end == 0 then o.meeting.start + FALLBACK_LIFETIME else o.meeting.end;
    expires <= at
  }

  // reconcile.go, beginClose: every field that belongs to another phase is cleared.
  function BeginClose(o: Occurrence, reason: CloseReason, resume: Phase): Occurrence {
    o.(phase := ClosePending, closeReason := reason, resumePhase := resume,
       notifiedAt := 0, actionExpiresAt := 0, notBefore := 0, attempt := 0,
       joinRequestedAt := 0, joinedAt := 0)
  }

  function PruneOne(o: Occurrence, at: Time): Option<Occurrence> {
    match o.phase
    case Scheduled => if MeetingExpired(o, at) then None else Some(o)
    case NotifyPending => if MeetingExpired(o, at) then None else Some(o)
    case Notified =>
      if MeetingExpired(o, at) || o.actionExpiresAt <= at then Some(BeginClose(o, CloseExpired, NoPhase)) else Some(o)
    case ActionableHistory => if o.actionExpiresAt <= at then None else Some(o)
    case JoinPending =>
      if MeetingExpired(o, at) || o.actionExpiresAt <= at then Some(BeginClose(o, CloseExpired, NoPhase)) else Some(o)
    case Joined => if MeetingExpired(o, at) then None else Some(o)
    case _ => Some(o)
  }

  function PruneAll(occurrences: map<Key, Occurrence>, at: Time): map<Key, Occurrence> {
    map k | k in occurrences && PruneOne(occurrences[k], at).Some? :: PruneOne(occurrences[k], at).value
  }

  method Prune(draft: Draft, at: Time)
    modifies draft`occurrences
    ensures draft.occurrences == PruneAll(old(draft.occurrences), at)
  {
    ghost var before := draft.occurrences;
    var keys := draft.occurrences.Keys;
    while keys != {}
      invariant keys <= before.Keys
      invariant forall k :: k in draft.occurrences <==> k in before && (k in keys || PruneOne(before[k], at).Some?)
      invariant forall k | k in draft.occurrences ::
                  draft.occurrences[k] == if k in keys then before[k] else PruneOne(before[k], at).value
    {
      var k :| k in keys;
      var o := draft.occurrences[k];
      match o.phase {
        case Scheduled =>
          if MeetingExpired(o, at) {
            draft.occurrences := draft.occurrences - {k};
          }
        case NotifyPending =>
          if MeetingExpired(o, at) {
            draft.occurrences := draft.occurrences - {k};
          }
        case Notified =>
          if MeetingExpired(o, at) || o.actionExpiresAt <= at {
            draft.occurrences := draft.occurrences[k := BeginClose(o, CloseExpired, NoPhase)];
          }
        case ActionableHistory =>
          if o.actionExpiresAt <= at {
            draft.occurrences := draft.occurrences - {k};
          }
        case JoinPending =>
          if MeetingExpired(o, at) || o.actionExpiresAt <= at {
            draft.occurrences := draft.occurrences[k := BeginClose(o, CloseExpired, NoPhase)];
          }
        case Joined =>
          if MeetingExpired(o, at) {
            draft.occurrences := draft.occurrences - {k};
          }
        case _ =>
      }
      keys := keys - {k};
    }
  }

  function ExpireOne(o: Occurrence, at: Time): Option<Occurrence> {
    if o.phase != NotifyPending || o.meeting.start > at then Some(o)
    else if o.notificationId == 0 then None
    else Some(BeginClose(o, CloseExpired, NoPhase))
  }

  function ExpireAll(occurrences: map<Key, Occurrence>, at: Time): map<Key, Occurrence> {
    map k | k in occurrences && ExpireOne(occurrences[k], at).Some? :: ExpireOne(occurrences[k], at).value
  }

  method ExpireNotifyPending(draft: Draft, at: Time)
    modifies draft`occurrences
    ensures draft.occurrences == ExpireAll(old(draft.occurrences), at)
  {
    ghost var before := draft.occurrences;
    var keys := draft.occurrences.Keys;
    while keys != {}
      invariant keys <= before.Keys
      invariant forall k :: k in draft.occurrences <==> k in before && (k in keys || ExpireOne(before[k], at).Some?)
      invariant forall k | k in draft.occurrences ::
                  draft.occurrences[k] == if k in keys then before[k] else ExpireOne(before[k], at).value
    {
      var k :| k in keys;
      var o := draft.occurrences[k];
      keys := keys - {k};
      if o.phase != NotifyPending || o.meeting.start > at {
        continue;
      }
      if o.notificationId == 0 {
        draft.occurrences := draft.occurrences - {k};
        continue;
      }
      draft.occurrences := draft.occurrences[k := BeginClose(o, CloseExpired, NoPhase)];
    }
  }
}

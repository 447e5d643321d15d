// A failed poll: health, and at most one authorization warning a day
// (daemon/poll_health.go).
module PollHealth {
  import opened Wrappers
  import opened Meetings
  import opened Storage
  import opened Drafts
  import opened Events

  const WARNING_INTERVAL: nat := 24 * HOUR

  function HealthOf(s: State, account: Label): Health {
    if account in s.health then s.health[account] else Health(0, None, false, "")
  }

  function RevisionOf(s: State, account: Label): Revision {
    if account in s.authWarningRevisions then s.authWarningRevisions[account] else 0
  }

  // A warning is raised: authentication failed, none is pending, and the last
  // delivered one is a day old.
  predicate RaisesWarning(s: State, account: Label, kind: PollErrorKind, at: Time) {
    && kind == Authentication
    && account !in s.pendingAuthWarnings
    && (account in s.authWarnings ==> s.authWarnings[account] + WARNING_INTERVAL <= at)
  }

  function Unhealthy(s: State, poll: PollResult, kind: PollErrorKind): State {
    s.(health := s.health[poll.account := HealthOf(s, poll.account).(
      lastError := Some(kind),
      needsAuth := kind == Authentication,
      authorizationGeneration := if kind == Authentication then poll.generation else "")])
  }

  function FailedPoll(s: State, poll: PollResult, kind: PollErrorKind, at: Time): Result<State, Error> {
    var sick := Unhealthy(s, poll, kind);
    if !RaisesWarning(s, poll.account, kind, at) then Ok(sick)
    else match NextRevision(RevisionOf(s, poll.account))
         case None => Err(RevisionExhausted)
         case Some(revision) =>
           Ok(sick.(
             authWarningRevisions := s.authWarningRevisions[poll.account := revision],
             pendingAuthWarnings := s.pendingAuthWarnings[poll.account := AuthWarning(revision, at, at, 0)]))
  }

  method ApplyPollFailure(draft: Draft, poll: PollResult, kind: PollErrorKind, at: Time)
    returns (warned: bool, err: Option<Error>)
    modifies draft
    ensures match FailedPoll(old(draft.View()), poll, kind, at)
            case Err(e) => err == Some(e)
            case Ok(s) => err == None && draft.View() == s
                          && warned == RaisesWarning(old(draft.View()), poll.account, kind, at)
  {
    var health := HealthOf(draft.View(), poll.account);
    health := health.(lastError := Some(kind), needsAuth := kind == Authentication);
    if health.needsAuth {
      health := health.(authorizationGeneration := poll.generation);
    } else {
      health := health.(authorizationGeneration := "");
    }
    draft.health := draft.health[poll.account := health];
    if kind != Authentication {
      return false, None;
    }
    if poll.account in draft.pendingAuthWarnings {
      return false, None;
    }
    if poll.account in draft.authWarnings && draft.authWarnings[poll.account] + WARNING_INTERVAL > at {
      return false, None;
    }
    var revision := NextRevision(RevisionOf(draft.View(), poll.account));
    if revision == None {
      return false, Some(RevisionExhausted);
    }
    draft.authWarningRevisions := draft.authWarningRevisions[poll.account := revision.value];
    draft.pendingAuthWarnings := draft.pendingAuthWarnings[poll.account := AuthWarning(revision.value, at, at, 0)];
    return true, None;
  }
}

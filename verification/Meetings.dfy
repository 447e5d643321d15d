// Meetings, observations and the lead-time rule (internal/meeting).
module Meetings {
  import opened Wrappers

  // Nanoseconds; 0 is Go's zero time.
  type Time = nat

  const SECOND: nat := 1_000_000_000
  const MINUTE: nat := 60 * SECOND
  const HOUR: nat := 60 * MINUTE

  // "" is the empty key or label, which no stored item may carry.
  type Key = string
  type Label = string

  // The calendar coordinates of a meeting, which the owner only copies.
  datatype Origin = Origin(calendarId: string, calendarName: string, eventId: string,
                           recurringEventId: string, originalStart: Time)

  datatype Meeting = Meeting(key: Key, accountLabel: Label, summary: string,
                             start: Time, end: Time, url: string, origin: Origin)

  datatype RemovedReason =
    | NotRemoved            // the empty string: present, judged by the exclusion
    | RemovedCancelled
    | RemovedDeclined
    | RemovedURL
    | RemovedNonActionable
    | RemovedUnknown        // any other text

  datatype ExclusionReason =
    | NotExcluded           // the empty string
    | ExcludedAllDay
    | ExcludedMissingStart
    | ExcludedMalformedURL
    | ExcludedMissingURL
    | ExcludedUnsupportedURL
    | ExcludedUnknown       // any other text

  datatype Observation = Observation(key: Key, reason: RemovedReason, exclusion: ExclusionReason)

  // The owner's timing and URL rules. `keyHash` stands for the 64-bit FNV hash
  // that spreads close retries; nothing about it is assumed.
  datatype Policy = Policy(lead: nat, validActionURL: string -> bool, keyHash: Key -> nat)

  predicate Due(m: Meeting, now: Time, lead: nat) {
    0 < m.start - now <= lead
  }

  // The fields whose change makes an already issued notification stale.
  datatype Content = Content(summary: string, start: Time, end: Time, url: string, accountLabel: Label)

  function ContentOf(m: Meeting): Content {
    Content(m.summary, m.start, m.end, m.url, m.accountLabel)
  }
}

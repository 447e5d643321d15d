// The loop's commit rule: reduce, save, publish, acknowledge, then dispatch
// (daemon/daemon.go).
module Owner {
  import opened Wrappers
  import opened Meetings
  import opened Storage
  import opened Events
  import opened Reducer
  import opened Control

  // A save can fail before the new file is in place or after the rename.
  datatype SaveResult = Saved | FailedBefore | FailedAfter

  // `disk` is the durable state. `todo` holds the stages of the current event
  // that have not run yet; between events it is empty.
  datatype Owner = Owner(
    state: State,
    disk: State,
    index: Index,
    published: Index,
    processed: nat,
    control: Control,
    todo: seq<Stage>,
    now: Time,
    running: bool)

  // What an event comes to, and the acknowledgement a delivery gets for it.
  datatype Commit =
    | Rejected(error: Error)                  // the reducer failed: no acknowledgement
    | Refused(disk: State)                    // stale delivery or failed save: negative
    | Committed(state: State, index: Index, disk: State, effects: seq<Effect>, changed: bool)

  // The reducer's outcome is saved when it changed something; a delivery that
  // changes nothing is stale.
  ghost function Decided(o: Owner, out: Outcome, delivery: bool, save: SaveResult): Commit
    requires UniqueIds(out.state.occurrences)
  {
    if out.state == o.state then
      if delivery then Refused(o.disk) else Committed(o.state, o.index, o.disk, out.effects, false)
    else
      match save
      case FailedBefore => Refused(o.disk)
      case FailedAfter => Refused(out.state)
      case Saved => Committed(out.state, IndexOf(out.state.occurrences), out.state, out.effects, true)
  }

  ghost function CommitOf(o: Owner, e: Event, save: SaveResult, policy: Policy): Commit {
    match Reduce(o.state, o.index, e, policy)
    case Err(error) => Rejected(error)
    case Ok(out) => Decided(o, out, IsDelivery(e), save)
  }

  predicate IsDeliveredEvent(e: Event) {
    e.payload.Notice? && e.payload.notification.Delivered?
  }

  ghost function AckOf(commit: Commit, e: Event): Option<bool> {
    if !IsDeliveredEvent(e) || commit.Rejected? then None else Some(commit.Committed?)
  }

  // What a commit does to the owner.
  function Applied(o: Owner, commit: Commit, e: Event, config: Config): Owner {
    match commit
    case Rejected(_) => o.(running := false)
    case Refused(disk) => o.(disk := disk, running := false)
    case Committed(state, index, disk, effects, changed) =>
      o.(state := state, index := index, disk := disk,
         published := if changed then index else o.published,
         processed := o.processed + 1,
         control := AfterReport(o.control, e, config),
         todo := DispatchStages(effects) + CommitStages(e, changed, config),
         now := e.at)
  }

  // The atomic part of processing an event: everything up to the first effect.
  ghost function Received(o: Owner, e: Event, save: SaveResult, config: Config): Owner {
    Applied(o, CommitOf(o, e, save, config.policy), e, config)
  }

  // One stage; an error ends the run.
  ghost function Advanced(o: Owner, config: Config): Owner
    requires o.todo != []
  {
    match StageRun(o.control, o.todo[0], o.state, o.now, config)
    case Err(_) => o.(running := false)
    case Ok(c) => o.(control := c, todo := o.todo[1..])
  }

  // All remaining stages in one go, as the loop runs them.
  ghost function Finished(o: Owner, config: Config): Owner
    decreases |o.todo|
  {
    if o.todo == [] || !o.running then o
    else if Advanced(o, config).running then Finished(Advanced(o, config), config)
    else Advanced(o, config)
  }

  // Starting over from a stored state (Loop.Run up to its select, and Runtime.start).
  ghost function Started(stored: State, now: Time, config: Config): Result<Owner, Error> {
    match Startup(stored, now)
    case Err(error) => Err(error)
    case Ok(s) =>
      if !Valid(s) then Err(InvalidState)
      else
        var index := IndexOf(s.occurrences);
        Ok(Owner(s, s, index, index, 0, IDLE.(generation := 1), PollStages(config.accounts) + DURABLE, now, true))
  }

  // What the disk holds after a save that failed.
  function FailedDisk(stored: State, next: State, save: SaveResult): State {
    if save == FailedAfter then next else stored
  }

  // The stages run to the end exactly as the folded stages do.
  lemma {:induction false} FinishedIsFold(o: Owner, config: Config)
    requires o.running && StagesRun(o.control, o.todo, o.state, o.now, config).Ok?
    ensures Finished(o, config) == o.(control := StagesRun(o.control, o.todo, o.state, o.now, config).value, todo := [])
    decreases |o.todo|
  {
    if o.todo != [] {
      FinishedIsFold(Advanced(o, config), config);
    }
  }
}

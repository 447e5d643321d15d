// Setups and token refreshes of one account in any interleaving. Every writer
// holds the account lock from before its read until after its write, may fail
// or die at any point, and replaces the file by renaming a temporary one of its
// own (storage/authorization.go, storage/atomic.go).
module AuthorizationRuns {
  import opened Wrappers
  import opened Authorization

  datatype Job = SetupJob(bundle: Bundle) | RefreshJob(generation: string, token: Token)

  datatype Progress =
    | Waiting                   // not holding the lock yet
    | Holding                   // locked, nothing read
    | HasRead(bundle: Bundle)
    | Writing(bundle: Bundle)   // the temporary file exists
    | Written(bundle: Bundle)   // and has been written, synced and closed
    | Replaced
    | Done

  datatype Worker = Worker(job: Job, progress: Progress)

  datatype Write = First(content: Content) | Put(job: Job, content: Content)

  // `temps` are the temporary files, by the process that made them. `log` is
  // history: every content the file has had, oldest first.
  datatype World = World(file: Option<Content>, temps: map<nat, Content>, lock: Option<nat>, workers: map<nat, Worker>,
                         log: seq<Write>)

  datatype Action =
    | Arrives(pid: nat, job: Job)
    | Locks(pid: nat)
    | Reads(pid: nat)
    | Creates(pid: nat)
    | Fills(pid: nat)
    | Renames(pid: nat)
    | Releases(pid: nat, removes: bool)    // normal end, any failed stage, or death of the process

  function ProgressOf(w: World, pid: nat): Progress {
    if pid in w.workers then w.workers[pid].progress else Done
  }

  predicate Holds(p: Progress) {
    p.Holding? || p.HasRead? || p.Writing? || p.Written? || p.Replaced?
  }

  // The bundle this worker is about to write.
  function Intended(w: Worker): Option<Bundle> {
    match w.job
    case SetupJob(b) => if w.progress.Holding? && ValidBundle(b) then Some(b) else None
    case RefreshJob(_, token) => if w.progress.HasRead? then Some(Refreshed(w.progress.bundle, token)) else None
  }

  predicate Enabled(w: World, a: Action) {
    match a
    case Arrives(pid, _) => pid !in w.workers
    case Locks(pid) => ProgressOf(w, pid).Waiting? && w.lock.None?
    case Reads(pid) =>
      && ProgressOf(w, pid).Holding? && w.workers[pid].job.RefreshJob?
      && Loaded(w.file, None).Ok?
      && Loaded(w.file, None).value.generation == w.workers[pid].job.generation
    case Creates(pid) => pid in w.workers && Intended(w.workers[pid]).Some?
    case Fills(pid) => ProgressOf(w, pid).Writing?
    case Renames(pid) => ProgressOf(w, pid).Written? && pid in w.temps
    case Releases(pid, _) => Holds(ProgressOf(w, pid))
  }

  function Moved(w: World, pid: nat, p: Progress): map<nat, Worker>
    requires pid in w.workers
  {
    w.workers[pid := w.workers[pid].(progress := p)]
  }

  function After(w: World, a: Action): World
    requires Enabled(w, a)
  {
    match a
    case Arrives(pid, job) => w.(workers := w.workers[pid := Worker(job, Waiting)])
    case Locks(pid) => w.(lock := Some(pid), workers := Moved(w, pid, Holding))
    case Reads(pid) => w.(workers := Moved(w, pid, HasRead(Loaded(w.file, None).value)))
    case Creates(pid) =>
      w.(temps := w.temps[pid := Partial], workers := Moved(w, pid, Writing(Intended(w.workers[pid]).value)))
    case Fills(pid) =>
      var b := w.workers[pid].progress.bundle;
      w.(temps := w.temps[pid := Whole(b)], workers := Moved(w, pid, Written(b)))
    case Renames(pid) =>
      w.(file := Some(w.temps[pid]), temps := w.temps - {pid}, workers := Moved(w, pid, Replaced),
         log := w.log + [Put(w.workers[pid].job, w.temps[pid])])
    case Releases(pid, removes) =>
      w.(lock := None, temps := if removes then w.temps - {pid} else w.temps, workers := Moved(w, pid, Done))
  }

  ghost predicate Initial(w: World) {
    && w.lock.None? && w.workers == map[]
    && match w.file
       case None => w.log == []
       case Some(content) => content.Whole? && ValidBundle(content.bundle) && w.log == [First(content)]
  }

  // ---- what the log says -------------------------------------------------------

  // Each content is a whole valid bundle and comes from the one before: a setup's
  // own bundle, or a refresh of the previous one by a worker that loaded that
  // generation.
  ghost predicate ExplainedAt(log: seq<Write>, i: nat)
    requires i < |log|
  {
    && log[i].content.Whole? && ValidBundle(log[i].content.bundle)
    && match log[i]
       case First(_) => i == 0
       case Put(SetupJob(b), content) => content == Whole(b)
       case Put(RefreshJob(generation, token), content) =>
         && i > 0 && log[i - 1].content.Whole? && log[i - 1].content.bundle.generation == generation
         && content == Whole(Refreshed(log[i - 1].content.bundle, token))
  }

  ghost predicate Explained(log: seq<Write>) {
    forall i | 0 <= i < |log| :: ExplainedAt(log, i)
  }

  // What a setup (or the past) put in place last.
  function LastSetup(log: seq<Write>): Option<Content> {
    if log == [] then None
    else
      var last := log[|log| - 1];
      if last.Put? && last.job.RefreshJob? then LastSetup(log[..|log| - 1]) else Some(last.content)
  }

  // The latest non-empty refresh token written since then.
  function LatestRefresh(log: seq<Write>): string {
    if log == [] then ""
    else
      var last := log[|log| - 1];
      if last.Put? && last.job.RefreshJob? then
        if last.job.token.refresh != "" then last.job.token.refresh else LatestRefresh(log[..|log| - 1])
      else if last.content.Whole? then last.content.bundle.token.refresh
      else ""
  }

  lemma {:induction false} LogTellsTheFile(log: seq<Write>)
    requires Explained(log) && log != []
    ensures LastSetup(log).Some? && LastSetup(log).value.Whole?
    ensures log[|log| - 1].content.Whole?
    ensures var b := log[|log| - 1].content.bundle;
            && ValidBundle(b)
            && b == LastSetup(log).value.bundle.(token := b.token)
            && b.token.refresh == LatestRefresh(log) != ""
  {
    var n := |log| - 1;
    var last := log[n];
    assert ExplainedAt(log, n);
    if last.Put? && last.job.RefreshJob? {
      var rest := log[..n];
      forall i | 0 <= i < |rest|
        ensures ExplainedAt(rest, i)
      {
        assert ExplainedAt(log, i);
      }
      LogTellsTheFile(rest);
      RefreshedIsValid(log[n - 1].content.bundle, last.job.token);
    }
  }

  // ---- the invariant ---------------------------------------------------------------

  // What the bundle being written is: a setup's own, or a refresh of what the file
  // holds all the while.
  predicate Justified(file: Option<Content>, job: Job, b: Bundle) {
    && ValidBundle(b)
    && match job
       case SetupJob(own) => b == own
       case RefreshJob(generation, token) =>
         && file.Some? && file.value.Whole? && file.value.bundle.generation == generation
         && b == Refreshed(file.value.bundle, token)
  }

  // A finished temporary file is whole; one that is still being written, or was
  // left behind, may be cut short, and nobody renames it.
  predicate WorkerOk(w: World, pid: nat)
    requires pid in w.workers
  {
    var worker := w.workers[pid];
    match worker.progress
    case HasRead(b) =>
      && worker.job.RefreshJob? && w.file == Some(Whole(b)) && ValidBundle(b) && b.generation == worker.job.generation
    case Writing(b) => Justified(w.file, worker.job, b) && pid in w.temps
    case Written(b) => Justified(w.file, worker.job, b) && pid in w.temps && w.temps[pid] == Whole(b)
    case _ => true
  }

  ghost predicate Inv(w: World) {
    && Explained(w.log)
    && w.file == (if w.log == [] then None else Some(w.log[|w.log| - 1].content))
    && (w.lock.Some? ==> w.lock.value in w.workers)
    && (forall pid | pid in w.workers :: Holds(w.workers[pid].progress) <==> w.lock == Some(pid))
    && (forall pid | pid in w.workers :: WorkerOk(w, pid))
  }

  lemma RenameExplained(w: World, pid: nat)
    requires Inv(w) && Enabled(w, Renames(pid))
    ensures Explained(After(w, Renames(pid)).log)
  {
    var worker := w.workers[pid];
    assert WorkerOk(w, pid);
    var log := w.log + [Put(worker.job, w.temps[pid])];
    forall i | 0 <= i < |log|
      ensures ExplainedAt(log, i)
    {
      assert i < |w.log| ==> ExplainedAt(w.log, i);
    }
  }

  lemma WorkerStep(w: World, a: Action, pid: nat)
    requires Inv(w) && Enabled(w, a) && pid in After(w, a).workers
    ensures WorkerOk(After(w, a), pid)
  {
    if pid in w.workers {
      assert WorkerOk(w, pid);
      assert Holds(w.workers[pid].progress) <==> w.lock == Some(pid);
    }
    if !a.Arrives? {
      assert Holds(w.workers[a.pid].progress) <==> w.lock == Some(a.pid);
      assert WorkerOk(w, a.pid);
      if a.Creates? && w.workers[a.pid].progress.HasRead? {
        RefreshedIsValid(w.workers[a.pid].progress.bundle, w.workers[a.pid].job.token);
      }
    }
  }

  lemma InvStep(w: World, a: Action)
    requires Inv(w) && Enabled(w, a)
    ensures Inv(After(w, a))
  {
    if a.Renames? {
      assert Holds(w.workers[a.pid].progress);
      RenameExplained(w, a.pid);
    }
    forall pid | pid in After(w, a).workers
      ensures WorkerOk(After(w, a), pid)
    {
      WorkerStep(w, a, pid);
    }
  }

  ghost predicate IsExecution(worlds: seq<World>, actions: seq<Action>) {
    && |worlds| == |actions| + 1 && Initial(worlds[0])
    && forall i | 0 <= i < |actions| :: Enabled(worlds[i], actions[i]) && worlds[i + 1] == After(worlds[i], actions[i])
  }

  lemma {:induction false} ExecutionInv(worlds: seq<World>, actions: seq<Action>, i: nat)
    requires IsExecution(worlds, actions) && i <= |actions|
    ensures Inv(worlds[i])
  {
    if i > 0 {
      ExecutionInv(worlds, actions, i - 1);
      InvStep(worlds[i - 1], actions[i - 1]);
    }
  }

  // In every interleaving the file is absent or one complete valid bundle: the
  // last setup's, with a token whose refresh part is the latest non-empty one
  // written since. At most one worker holds the lock.
  lemma FileIsLastSetupWithLatestToken(worlds: seq<World>, actions: seq<Action>, i: nat)
    requires IsExecution(worlds, actions) && i <= |actions|
    ensures var w := worlds[i];
            w.file.Some? ==>
              && w.file.value.Whole? && ValidBundle(w.file.value.bundle)
              && LastSetup(w.log).Some? && LastSetup(w.log).value.Whole?
              && w.file.value.bundle == LastSetup(w.log).value.bundle.(token := w.file.value.bundle.token)
              && w.file.value.bundle.token.refresh == LatestRefresh(w.log)
    ensures forall p, q | p in worlds[i].workers && q in worlds[i].workers
                          && Holds(worlds[i].workers[p].progress) && Holds(worlds[i].workers[q].progress) :: p == q
  {
    ExecutionInv(worlds, actions, i);
    if worlds[i].log != [] {
      LogTellsTheFile(worlds[i].log);
    }
  }

  // A refresh replaces the file only while it still holds the generation the
  // refresh loaded, and then changes its token alone.
  lemma RefreshIsCompareAndSwap(worlds: seq<World>, actions: seq<Action>, i: nat)
    requires IsExecution(worlds, actions) && i < |actions|
    requires worlds[i + 1].file != worlds[i].file
    ensures actions[i].Renames? && actions[i].pid in worlds[i].workers
    ensures var job := worlds[i].workers[actions[i].pid].job;
            match job
            case SetupJob(b) => worlds[i + 1].file == Some(Whole(b)) && ValidBundle(b)
            case RefreshJob(generation, token) =>
              && worlds[i].file.Some? && worlds[i].file.value.Whole?
              && worlds[i].file.value.bundle.generation == generation
              && worlds[i + 1].file == Some(Whole(Refreshed(worlds[i].file.value.bundle, token)))
  {
    ExecutionInv(worlds, actions, i);
    assert WorkerOk(worlds[i], actions[i].pid);
  }

  // ---- the store's calls are such steps ----------------------------------------------

  // The world after these steps, if each was possible.
  function Performed(w: World, actions: seq<Action>): Option<World>
    decreases |actions|
  {
    if actions == [] then Some(w)
    else if !Enabled(w, actions[0]) then None
    else Performed(After(w, actions[0]), actions[1..])
  }

  // The part of the write a failing call lets happen, and the end of it.
  function WriteSteps(pid: nat, fault: Option<Stage>, removable: bool): seq<Action> {
    if fault == Some(TempCreate) then [Releases(pid, removable)]
    else if fault == Some(TempChmod) || fault == Some(TempWrite) then [Creates(pid), Releases(pid, removable)]
    else if !Replaces(fault) then [Creates(pid), Fills(pid), Releases(pid, removable)]
    else [Creates(pid), Fills(pid), Renames(pid), Releases(pid, removable)]
  }

  predicate Free(w: World, pid: nat) {
    w.lock == None && pid !in w.workers
  }

  lemma PerformOne(w: World, a: Action, rest: seq<Action>)
    requires Enabled(w, a)
    ensures Performed(w, [a] + rest) == Performed(After(w, a), rest)
  {
    assert ([a] + rest)[1..] == rest;
  }

  lemma WritePerformed(w: World, pid: nat, fault: Option<Stage>, removable: bool)
    requires pid in w.workers && Intended(w.workers[pid]).Some?
    ensures var after := Performed(w, WriteSteps(pid, fault, removable));
            && after.Some? && after.value.lock == None
            && after.value.file == if Replaces(fault) then Some(Whole(Intended(w.workers[pid]).value)) else w.file
  {
    if fault == Some(TempCreate) {
      PerformOne(w, Releases(pid, removable), []);
    } else {
      var created := After(w, Creates(pid));
      if fault == Some(TempChmod) || fault == Some(TempWrite) {
        PerformOne(w, Creates(pid), [Releases(pid, removable)]);
        PerformOne(created, Releases(pid, removable), []);
      } else {
        var filled := After(created, Fills(pid));
        if !Replaces(fault) {
          PerformOne(w, Creates(pid), [Fills(pid), Releases(pid, removable)]);
          PerformOne(created, Fills(pid), [Releases(pid, removable)]);
          PerformOne(filled, Releases(pid, removable), []);
        } else {
          var renamed := After(filled, Renames(pid));
          PerformOne(w, Creates(pid), [Fills(pid), Renames(pid), Releases(pid, removable)]);
          PerformOne(created, Fills(pid), [Renames(pid), Releases(pid, removable)]);
          PerformOne(filled, Renames(pid), [Releases(pid, removable)]);
          PerformOne(renamed, Releases(pid, removable), []);
        }
      }
    }
  }

  // A call of SaveAuthorization that gets the lock, whatever fails in it, leaves the
  // file as these steps leave it.
  lemma SaveIsSteps(w: World, pid: nat, bundle: Bundle, faults: Faults)
    requires Free(w, pid) && ValidBundle(bundle) && Lockable(faults)
    ensures var after := Performed(w, [Arrives(pid, SetupJob(bundle)), Locks(pid)]
                                      + WriteSteps(pid, faults.write, faults.removable));
            after.Some? && after.value.lock == None && after.value.file == SavedFile(w.file, bundle, faults)
  {
    var steps := WriteSteps(pid, faults.write, faults.removable);
    var arrived := After(w, Arrives(pid, SetupJob(bundle)));
    assert [Arrives(pid, SetupJob(bundle)), Locks(pid)] + steps
             == [Arrives(pid, SetupJob(bundle))] + ([Locks(pid)] + steps);
    PerformOne(w, Arrives(pid, SetupJob(bundle)), [Locks(pid)] + steps);
    PerformOne(arrived, Locks(pid), steps);
    WritePerformed(After(arrived, Locks(pid)), pid, faults.write, faults.removable);
  }

  // And so does one of UpdateToken that finds its generation.
  lemma UpdateIsSteps(w: World, pid: nat, generation: string, token: Token, faults: Faults)
    requires Free(w, pid) && Lockable(faults)
    requires Loaded(w.file, faults.read).Ok? && Loaded(w.file, faults.read).value.generation == generation
    ensures var after := Performed(w, [Arrives(pid, RefreshJob(generation, token)), Locks(pid), Reads(pid)]
                                      + WriteSteps(pid, faults.write, faults.removable));
            && after.Some? && after.value.lock == None
            && after.value.file == UpdatedFile(w.file, generation, token, faults)
  {
    var steps := WriteSteps(pid, faults.write, faults.removable);
    var job := RefreshJob(generation, token);
    var arrived := After(w, Arrives(pid, job));
    var locked := After(arrived, Locks(pid));
    assert [Arrives(pid, job), Locks(pid), Reads(pid)] + steps
             == [Arrives(pid, job)] + ([Locks(pid)] + ([Reads(pid)] + steps));
    PerformOne(w, Arrives(pid, job), [Locks(pid)] + ([Reads(pid)] + steps));
    PerformOne(arrived, Locks(pid), [Reads(pid)] + steps);
    PerformOne(locked, Reads(pid), steps);
    WritePerformed(After(locked, Reads(pid)), pid, faults.write, faults.removable);
  }
}

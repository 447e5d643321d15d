// The per-account authorization file: atomic replacement, the lock around every
// write, and the generation compare-and-swap of token refreshes
// (storage/atomic.go, storage/authorization.go, googlecalendar/token_source.go,
// app/app.go).
module Authorization {
  import opened Wrappers

  const AUTHORIZATION_VERSION := 1

  datatype CalendarRef = CalendarRef(id: string, summary: string)

  // expiry 0 is the zero time.
  datatype Token = Token(access: string, refresh: string, expiry: nat, kind: string)

  // `client` is the decoded OAuth client document; None stands for text that is
  // not a JSON object.
  datatype Bundle = Bundle(version: int, generation: string, client: Option<map<string, string>>,
                           token: Token, identity: string, calendars: seq<CalendarRef>)

  predicate IsBlank(s: string) {
    forall i | 0 <= i < |s| :: s[i] in {' ', '\t', '\n', '\r'}
  }

  predicate ValidBundle(b: Bundle) {
    && b.version == AUTHORIZATION_VERSION
    && !IsBlank(b.generation)
    && b.client.Some? && b.client.value != map[]
    && b.token.refresh != ""
    && !IsBlank(b.identity)
    && b.calendars != []
    && (forall i | 0 <= i < |b.calendars| :: !IsBlank(b.calendars[i].id))
    && (forall i, j | 0 <= i < j < |b.calendars| :: b.calendars[i].id != b.calendars[j].id)
  }

  // ---- atomic replacement ---------------------------------------------------

  datatype Stage =
    | Read | ReadClose
    | TempCreate | TempChmod | TempWrite | TempSync | TempClose
    | Rename
    | DirectoryOpen | DirectorySync | DirectoryClose
    | LockOpen | Lock | Unlock

  // A file's bytes: a whole encoded bundle, or what a write cut short leaves.
  datatype Content = Whole(bundle: Bundle) | Partial

  // The account's directory: the authorization file, and how many temporary files
  // earlier writes could not remove. Every write uses a temporary name of its own.
  class Directory {
    var file: Option<Content>
    var leftovers: nat

    constructor (file: Option<Content>)
      ensures this.file == file && leftovers == 0
    {
      this.file := file;
      leftovers := 0;
    }

    // What every exit of atomicWrite does about its temporary file. Removing one
    // that was renamed away, or failing to remove one, is not reported.
    method CleanUp(temp: Option<Content>, removable: bool)
      modifies this`leftovers
      ensures leftovers == old(leftovers) + if temp.Some? && !removable then 1 else 0
    {
      if temp != None && !removable {
        leftovers := leftovers + 1;
      }
    }

    // `fault` is the operating-system call that fails, if any does, and `removable`
    // says whether the temporary file can be removed. The file is replaced as a
    // whole or not at all, exactly when the rename was reached and succeeded; a
    // temporary file stays exactly when one was made, not renamed, and could not
    // be removed.
    method AtomicWrite(bundle: Bundle, fault: Option<Stage>, removable: bool) returns (err: Option<Stage>)
      modifies this
      ensures err == (if fault.Some? && WriteStage(fault.value) then fault else None)
      ensures file == if err == None || AfterRename(err.value) then Some(Whole(bundle)) else old(file)
      ensures leftovers == old(leftovers)
                           + if err.Some? && err.value != TempCreate && !AfterRename(err.value) && !removable
                             then 1 else 0
    {
      if fault == Some(TempCreate) {
        return fault;
      }
      var temp := Some(Partial);
      if fault == Some(TempChmod) || fault == Some(TempWrite) {
        CleanUp(temp, removable);
        return fault;
      }
      temp := Some(Whole(bundle));
      if fault == Some(TempSync) || fault == Some(TempClose) || fault == Some(Rename) {
        CleanUp(temp, removable);
        return fault;
      }
      file, temp := temp, None;
      CleanUp(temp, removable);
      if fault == Some(DirectoryOpen) || fault == Some(DirectorySync) || fault == Some(DirectoryClose) {
        return fault;
      }
      return None;
    }
  }

  predicate WriteStage(s: Stage) {
    s in {TempCreate, TempChmod, TempWrite, TempSync, TempClose, Rename, DirectoryOpen, DirectorySync, DirectoryClose}
  }

  predicate AfterRename(s: Stage) {
    s == DirectoryOpen || s == DirectorySync || s == DirectoryClose
  }

  // Nothing fails before the new file is in place.
  predicate Replaces(fault: Option<Stage>) {
    fault.None? || !WriteStage(fault.value) || AfterRename(fault.value)
  }

  // ---- the store ----------------------------------------------------------------

  datatype Failure =
    | InvalidLabel
    | InvalidBundle
    | Corrupt
    | StaleAuthorization
    | Operation(stage: Stage)

  // Which calls fail: the lock, the read, the write, the unlock; and whether a
  // temporary file can be removed.
  datatype Faults = Faults(lock: Option<Stage>, read: Option<Stage>, write: Option<Stage>, unlock: bool,
                           removable: bool)

  predicate LockStage(s: Stage) {
    s == LockOpen || s == Lock
  }

  // readFile, decode and Validate of what is in the file.
  function Loaded(file: Option<Content>, read: Option<Stage>): Result<Bundle, Failure> {
    if read.Some? && (read.value == Read || read.value == ReadClose) then Err(Operation(read.value))
    else if file.None? then Err(Operation(Read))
    else match file.value
         case Partial => Err(Corrupt)
         case Whole(b) => if ValidBundle(b) then Ok(b) else Err(InvalidBundle)
  }

  // An empty refresh token keeps the stored one.
  function Refreshed(b: Bundle, token: Token): Bundle {
    b.(token := if token.refresh == "" then token.(refresh := b.token.refresh) else token)
  }

  // The error an action under the lock reports: its own first, then the unlock's.
  function Reported(action: Option<Failure>, unlock: bool): Option<Failure> {
    if action.Some? then action else if unlock then Some(Operation(Unlock)) else None
  }

  predicate Lockable(faults: Faults) {
    faults.lock.Some? ==> !LockStage(faults.lock.value)
  }

  // What the two writing calls leave in the file.
  function SavedFile(file: Option<Content>, bundle: Bundle, faults: Faults): Option<Content> {
    if ValidBundle(bundle) && Lockable(faults) && Replaces(faults.write) then Some(Whole(bundle)) else file
  }

  function UpdatedFile(file: Option<Content>, generation: string, token: Token, faults: Faults): Option<Content> {
    var loaded := Loaded(file, faults.read);
    if Lockable(faults) && loaded.Ok? && loaded.value.generation == generation && Replaces(faults.write)
    then Some(Whole(Refreshed(loaded.value, token))) else file
  }

  class Store {
    const directory: Directory
    const safeLabel: bool

    constructor (directory: Directory, safeLabel: bool)
      ensures this.directory == directory && this.safeLabel == safeLabel
    {
      this.directory := directory;
      this.safeLabel := safeLabel;
    }

    method SaveAuthorization(bundle: Bundle, faults: Faults) returns (err: Option<Failure>)
      modifies directory
      ensures directory.file
           == if safeLabel then SavedFile(old(directory.file), bundle, faults) else old(directory.file)
      ensures directory.file == old(directory.file) || directory.file == Some(Whole(bundle))
      ensures directory.file != old(directory.file) ==> ValidBundle(bundle)
      ensures err == None ==> directory.file == Some(Whole(bundle)) && ValidBundle(bundle)
      ensures err.Some? && SetupVerdict(err.value) == Preserved ==> directory.file == old(directory.file)
      ensures err.Some? && err.value.Operation? && SetupVerdict(err.value) == Ambiguous ==>
                directory.file == Some(Whole(bundle))
    {
      if !safeLabel {
        return Some(InvalidLabel);
      }
      if !ValidBundle(bundle) {
        return Some(InvalidBundle);
      }
      if faults.lock.Some? && LockStage(faults.lock.value) {
        return Some(Operation(faults.lock.value));
      }
      var stage := directory.AtomicWrite(bundle, faults.write, faults.removable);
      var action := if stage == None then None else Some(Operation(stage.value));
      return Reported(action, faults.unlock);
    }

    // A refresh of the loaded generation. It changes the token and nothing else,
    // and nothing at all when the stored generation is another one.
    method UpdateToken(generation: string, token: Token, faults: Faults) returns (err: Option<Failure>)
      modifies directory
      ensures directory.file
           == if safeLabel then UpdatedFile(old(directory.file), generation, token, faults) else old(directory.file)
      ensures directory.file != old(directory.file) ==>
                && old(directory.file).Some? && old(directory.file).value.Whole?
                && old(directory.file).value.bundle.generation == generation
                && ValidBundle(old(directory.file).value.bundle)
                && directory.file == Some(Whole(Refreshed(old(directory.file).value.bundle, token)))
      ensures err == None ==>
                && old(directory.file).Some? && old(directory.file).value.Whole?
                && old(directory.file).value.bundle.generation == generation
                && directory.file == Some(Whole(Refreshed(old(directory.file).value.bundle, token)))
      ensures err == Some(StaleAuthorization) ==> directory.file == old(directory.file)
    {
      if !safeLabel {
        return Some(InvalidLabel);
      }
      if faults.lock.Some? && LockStage(faults.lock.value) {
        return Some(Operation(faults.lock.value));
      }
      var loaded := Loaded(directory.file, faults.read);
      if loaded.Err? {
        return Reported(Some(loaded.error), faults.unlock);
      }
      if loaded.value.generation != generation {
        return Reported(Some(StaleAuthorization), faults.unlock);
      }
      var bundle := Refreshed(loaded.value, token);
      if !ValidBundle(bundle) {
        return Reported(Some(InvalidBundle), faults.unlock);
      }
      var stage := directory.AtomicWrite(bundle, faults.write, faults.removable);
      var action := if stage == None then None else Some(Operation(stage.value));
      return Reported(action, faults.unlock);
    }
  }

  // A refresh of a valid bundle is valid, so it is never refused for that, keeps
  // everything but the token, and never loses a refresh token.
  lemma RefreshedIsValid(b: Bundle, token: Token)
    requires ValidBundle(b)
    ensures ValidBundle(Refreshed(b, token))
    ensures Refreshed(b, token).(token := b.token) == b
    ensures Refreshed(b, token).token.refresh == if token.refresh == "" then b.token.refresh else token.refresh
  {
  }

  // ---- what setup says about the file ---------------------------------------------

  datatype Verdict = Preserved | Ambiguous

  // app.go, setupWriteError
  function SetupVerdict(f: Failure): Verdict {
    match f
    case Operation(stage) =>
      if stage == DirectoryOpen || stage == DirectorySync || stage == DirectoryClose || stage == Unlock then Ambiguous
      else Preserved
    case _ => Ambiguous
  }

  // ---- the refreshing token source ---------------------------------------------------

  // The fields whose change is written back.
  predicate PersistedSame(a: Token, b: Token) {
    a.access == b.access && a.refresh == b.refresh && a.expiry == b.expiry
  }

  class TokenSource {
    const store: Store
    const generation: string
    var current: Token

    constructor (store: Store, generation: string, token: Token)
      ensures this.store == store && this.generation == generation && current == token
    {
      this.store := store;
      this.generation := generation;
      current := token;
    }

    // The file holds this source's generation with the token it remembers.
    ghost predicate InSync()
      reads this, store, store.directory
    {
      var f := store.directory.file;
      && f.Some? && f.value.Whole? && ValidBundle(f.value.bundle)
      && f.value.bundle.generation == generation
      && f.value.bundle.token.access == current.access && f.value.bundle.token.refresh == current.refresh
      && f.value.bundle.token.expiry == current.expiry
    }

    // `upstream` is what the OAuth library returns. A token handed to the caller
    // is remembered, and the file agrees with it if it agreed before; a failed
    // write leaves the memory alone.
    method Next(upstream: Option<Token>, faults: Faults) returns (token: Option<Token>)
      modifies this, store.directory
      ensures token.None? ==> current == old(current)
      ensures token.Some? ==> current == token.value && upstream.Some?
      ensures token.Some? ==> token.value == upstream.value.(
                refresh := if upstream.value.refresh == "" then old(current).refresh else upstream.value.refresh)
      ensures token.Some? && old(InSync()) ==> InSync()
      ensures upstream.Some? && upstream.value.access == old(current).access
              && upstream.value.expiry == old(current).expiry
              && (upstream.value.refresh == "" || upstream.value.refresh == old(current).refresh) ==>
                token.Some? && store.directory.file == old(store.directory.file)
      ensures upstream.None? ==> token.None? && store.directory.file == old(store.directory.file)
    {
      if upstream == None {
        return None;
      }
      var candidate := upstream.value;
      var effective := candidate;
      if effective.refresh == "" {
        effective := effective.(refresh := current.refresh);
      }
      if !PersistedSame(current, effective) {
        var err := store.UpdateToken(generation, candidate, faults);
        if err != None {
          return None;
        }
      }
      current := effective;
      return Some(effective);
    }
  }
}

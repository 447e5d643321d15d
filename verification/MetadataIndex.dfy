// The shared metadata index: full refresh, incremental update and removal, and
// the git hook that replays a diff (passff-shared/metadata_index.py,
// passff-shared/metadata_hooks.py).
module MetadataIndex {
  import opened Wrappers

  type Fields = map<string, seq<string>>

  // What `pass show` gives for an entry's file.
  datatype Content = Decrypts(fields: Fields, mtime: nat) | Undecryptable

  // The password store: entry name to file.
  type Store = map<string, Content>

  datatype Entry = Entry(path: string, fields: Fields, mtime: nat)

  // What an index says, modification times and order aside.
  datatype Fact = Fact(path: string, fields: Fields)

  function FactsOf(entries: seq<Entry>): set<Fact> {
    set i | 0 <= i < |entries| :: Fact(entries[i].path, entries[i].fields)
  }

  // A rebuilt index: every entry that decrypts and has some field.
  function Rebuilt(store: Store): set<Fact> {
    set p | p in store && store[p].Decrypts? && store[p].fields != map[] :: Fact(p, store[p].fields)
  }

  // It shows a path exactly when the file decrypts to some field, and then its fields.
  lemma RebuiltExactly(store: Store, path: string, fields: Fields)
    ensures Fact(path, fields) in Rebuilt(store)
       <==> path in store && store[path].Decrypts? && store[path].fields == fields && fields != map[]
  {
  }

  function Requested(names: seq<string>, norm: string -> string): set<string> {
    set i | 0 <= i < |names| :: norm(names[i])
  }

  function UpdatedFacts(facts: set<Fact>, requested: set<string>, store: Store): set<Fact> {
    (set f | f in facts && (f.path !in requested || (f.path in store && store[f.path].Undecryptable?)))
    + (set f | f in Rebuilt(store) && f.path in requested)
  }

  function RemainingFacts(facts: set<Fact>, removed: set<string>): set<Fact> {
    set f | f in facts && f.path !in removed
  }

  lemma FactsAppend(a: seq<Entry>, b: seq<Entry>)
    ensures FactsOf(a + b) == FactsOf(a) + FactsOf(b)
  {
    forall f | f in FactsOf(a) + FactsOf(b)
      ensures f in FactsOf(a + b)
    {
      if f in FactsOf(a) {
        var i :| 0 <= i < |a| && f == Fact(a[i].path, a[i].fields);
        assert (a + b)[i] == a[i];
      } else {
        var i :| 0 <= i < |b| && f == Fact(b[i].path, b[i].fields);
        assert (a + b)[|a| + i] == b[i];
      }
    }
  }

  // The index file. Every operation replaces its whole content.
  class IndexFile {
    var entries: seq<Entry>

    function Facts(): set<Fact>
      reads this
    {
      FactsOf(entries)
    }

    constructor ()
      ensures entries == []
    {
      entries := [];
    }

    // refresh_index: walk the store, in whatever order it lists its files.
    method Refresh(store: Store)
      modifies this
      ensures Facts() == Rebuilt(store)
    {
      var rebuilt: seq<Entry> := [];
      var todo := store.Keys;
      while todo != {}
        invariant todo <= store.Keys
        invariant FactsOf(rebuilt) == set f | f in Rebuilt(store) && f.path !in todo
      {
        var p :| p in todo;
        todo := todo - {p};
        if store[p].Undecryptable? || store[p].fields == map[] {
          continue;
        }
        var entry := Entry(p, store[p].fields, store[p].mtime);
        FactsAppend(rebuilt, [entry]);
        assert FactsOf([entry]) == {Fact(p, store[p].fields)} by {
          assert [entry][0] == entry;
        }
        rebuilt := rebuilt + [entry];
      }
      entries := rebuilt;
    }

    // update_index_entries: drop what was asked for, then read it again. A file
    // that cannot be decrypted keeps what the index had.
    method Update(names: seq<string>, store: Store, norm: string -> string)
      modifies this
      ensures Facts() == UpdatedFacts(old(Facts()), Requested(names, norm), store)
    {
      var requested := Requested(names, norm);
      var loaded := entries;
      var kept := Without(loaded, requested);
      var replacements: seq<Entry> := [];
      ghost var done: set<string> := {};
      for i := 0 to |names|
        invariant forall p :: p in done <==> exists j :: 0 <= j < i && norm(names[j]) == p
        invariant forall f :: f in FactsOf(kept) <==>
                    f in old(Facts()) && (f.path !in requested
                      || (f.path in store && store[f.path].Undecryptable? && f.path in done))
        invariant forall f :: f in FactsOf(replacements) <==> f in Rebuilt(store) && f.path in done
      {
        var name := norm(names[i]);
        assert name in requested;
        done := done + {name};
        if name !in store {
          continue;
        }
        match store[name] {
          case Undecryptable =>
            var again := Only(loaded, name);
            FactsAppend(kept, again);
            kept := kept + again;
          case Decrypts(fields, mtime) =>
            if fields != map[] {
              var entry := Entry(name, fields, mtime);
              FactsAppend(replacements, [entry]);
              assert forall f :: f in FactsOf([entry]) <==> f == Fact(name, fields) by {
                assert [entry][0] == entry;
              }
              replacements := replacements + [entry];
            }
        }
      }
      FactsAppend(kept, replacements);
      assert done == requested;
      entries := kept + replacements;
    }

    // remove_index_entries
    method Remove(names: seq<string>, norm: string -> string)
      modifies this
      ensures Facts() == RemainingFacts(old(Facts()), Requested(names, norm))
    {
      entries := Without(entries, Requested(names, norm));
    }
  }

  method Without(entries: seq<Entry>, paths: set<string>) returns (kept: seq<Entry>)
    ensures forall f :: f in FactsOf(kept) <==> f in FactsOf(entries) && f.path !in paths
  {
    kept := Filtered(entries, p => p !in paths);
  }

  method Only(entries: seq<Entry>, path: string) returns (kept: seq<Entry>)
    ensures forall f :: f in FactsOf(kept) <==> f in FactsOf(entries) && f.path == path
  {
    kept := Filtered(entries, p => p == path);
  }

  method Filtered(entries: seq<Entry>, keep: string -> bool) returns (kept: seq<Entry>)
    ensures forall f :: f in FactsOf(kept) <==> f in FactsOf(entries) && keep(f.path)
  {
    kept := [];
    for i := 0 to |entries|
      invariant forall f :: f in FactsOf(kept) <==> f in FactsOf(entries[..i]) && keep(f.path)
    {
      var entry := entries[i];
      assert entries[..i + 1] == entries[..i] + [entry];
      FactsAppend(entries[..i], [entry]);
      assert forall f :: f in FactsOf([entry]) <==> f == Fact(entry.path, entry.fields) by {
        assert [entry][0] == entry;
      }
      if keep(entry.path) {
        FactsAppend(kept, [entry]);
        kept := kept + [entry];
      }
    }
    assert entries[..|entries|] == entries;
  }

  // ---- the hook --------------------------------------------------------------

  // The name-status records of a diff. Paths that are not .gpg files carry no
  // entry name and are skipped.
  datatype Record =
    | Deleted(name: Option<string>)
    | Renamed(from: Option<string>, to: Option<string>)
    | Copied(to: Option<string>)
    | Touched(name: Option<string>)       // added, modified, type changed, ...

  datatype Operation = RemoveEntry(name: string) | UpdateEntry(name: string)

  function Removal(name: Option<string>): seq<Operation> {
    if name.Some? then [RemoveEntry(name.value)] else []
  }

  function Refreshing(name: Option<string>): seq<Operation> {
    if name.Some? then [UpdateEntry(name.value)] else []
  }

  // Which of a record's index commands fail. The hook reports a failed command and
  // goes on; the command has not replaced the index then.
  datatype Failures = Failures(first: bool, second: bool)

  function Unless(failed: bool, ops: seq<Operation>): seq<Operation> {
    if failed then [] else ops
  }

  function OperationsOf(r: Record, failed: Failures): seq<Operation> {
    match r
    case Deleted(name) => Unless(failed.first, Removal(name))
    case Renamed(from, to) => Unless(failed.first, Removal(from)) + Unless(failed.second, Refreshing(to))
    case Copied(to) => Unless(failed.first, Refreshing(to))
    case Touched(name) => Unless(failed.first, Refreshing(name))
  }

  function AllOperations(records: seq<Record>, failed: seq<Failures>): seq<Operation>
    requires |records| == |failed|
  {
    if records == [] then [] else OperationsOf(records[0], failed[0]) + AllOperations(records[1..], failed[1..])
  }

  function Applied(facts: set<Fact>, op: Operation, store: Store, norm: string -> string): set<Fact> {
    match op
    case RemoveEntry(name) => RemainingFacts(facts, {norm(name)})
    case UpdateEntry(name) => UpdatedFacts(facts, {norm(name)}, store)
  }

  function Replayed(facts: set<Fact>, ops: seq<Operation>, store: Store, norm: string -> string): set<Fact>
    decreases |ops|
  {
    if ops == [] then facts else Replayed(Applied(facts, ops[0], store, norm), ops[1..], store, norm)
  }

  lemma {:induction false} ReplayedConcat(facts: set<Fact>, a: seq<Operation>, b: seq<Operation>, store: Store,
                                          norm: string -> string)
    ensures Replayed(facts, a + b, store, norm) == Replayed(Replayed(facts, a, store, norm), b, store, norm)
    decreases |a|
  {
    if a == [] {
      assert a + b == b;
    } else {
      assert (a + b)[1..] == a[1..] + b;
      ReplayedConcat(Applied(facts, a[0], store, norm), a[1..], b, store, norm);
    }
  }

  // process_diff: one index command per name, each reading the store as it is now. An
  // index that agreed with the old store agrees with the new one when no command
  // fails, the records tell the change from one store to the other, and the entries
  // they put there decrypt.
  method ProcessDiff(index: IndexFile, records: seq<Record>, failed: seq<Failures>, store: Store,
                     norm: string -> string, ghost before: Store)
    requires |records| == |failed|
    modifies index
    ensures index.Facts() == Replayed(old(index.Facts()), AllOperations(records, failed), store, norm)
    ensures NothingFails(failed) && TellChange(records, before, store, norm)
            && old(index.Facts()) == Rebuilt(before) ==>
              index.Facts() == Rebuilt(store)
  {
    ghost var all := AllOperations(records, failed);
    for i := 0 to |records|
      invariant Replayed(old(index.Facts()), all, store, norm)
             == Replayed(index.Facts(), AllOperations(records[i..], failed[i..]), store, norm)
    {
      ghost var before := index.Facts();
      assert records[i..][0] == records[i] && records[i..][1..] == records[i + 1..];
      assert failed[i..][0] == failed[i] && failed[i..][1..] == failed[i + 1..];
      ReplayedConcat(before, OperationsOf(records[i], failed[i]), AllOperations(records[i + 1..], failed[i + 1..]),
                     store, norm);
      match records[i] {
        case Deleted(name) =>
          RemoveEntryCommand(index, name, failed[i].first, store, norm);
        case Renamed(from, to) =>
          RemoveEntryCommand(index, from, failed[i].first, store, norm);
          ReplayedConcat(before, Unless(failed[i].first, Removal(from)), Unless(failed[i].second, Refreshing(to)),
                         store, norm);
          UpdateEntryCommand(index, to, failed[i].second, store, norm);
        case Copied(to) =>
          UpdateEntryCommand(index, to, failed[i].first, store, norm);
        case Touched(name) =>
          UpdateEntryCommand(index, name, failed[i].first, store, norm);
      }
    }
    if NothingFails(failed) && TellChange(records, before, store, norm) && old(index.Facts()) == Rebuilt(before) {
      DiffRefinesRebuild(records, failed, before, store, norm);
    }
  }

  method RemoveEntryCommand(index: IndexFile, name: Option<string>, fails: bool, ghost store: Store,
                            norm: string -> string)
    modifies index
    ensures index.Facts() == Replayed(old(index.Facts()), Unless(fails, Removal(name)), store, norm)
  {
    if name != None && !fails {
      assert Requested([name.value], norm) == {norm(name.value)} by {
        assert [name.value][0] == name.value;
      }
      index.Remove([name.value], norm);
      assert [RemoveEntry(name.value)][1..] == [];
    }
  }

  method UpdateEntryCommand(index: IndexFile, name: Option<string>, fails: bool, store: Store, norm: string -> string)
    modifies index
    ensures index.Facts() == Replayed(old(index.Facts()), Unless(fails, Refreshing(name)), store, norm)
  {
    if name != None && !fails {
      assert Requested([name.value], norm) == {norm(name.value)} by {
        assert [name.value][0] == name.value;
      }
      index.Update([name.value], store, norm);
      assert [UpdateEntry(name.value)][1..] == [];
    }
  }

  // ---- incremental maintenance refines the rebuild ------------------------------

  function At(facts: set<Fact>, path: string): set<Fact> {
    set f | f in facts && f.path == path
  }

  // The operation leaves what a rebuild would hold for its path: an update of a
  // file that decrypts or is gone, a removal of a file that is gone.
  predicate Settles(op: Operation, store: Store) {
    match op
    case RemoveEntry(name) => name in store ==> store[name].Decrypts? && store[name].fields == map[]
    case UpdateEntry(name) => name in store ==> store[name].Decrypts?
  }

  lemma AppliedAt(facts: set<Fact>, op: Operation, store: Store, norm: string -> string, path: string)
    requires norm(op.name) == op.name
    ensures path != op.name ==> At(Applied(facts, op, store, norm), path) == At(facts, path)
    ensures path == op.name && Settles(op, store) ==>
              At(Applied(facts, op, store, norm), path) == At(Rebuilt(store), path)
    ensures path == op.name && op.UpdateEntry? && path in store && store[path].Undecryptable? ==>
              At(Applied(facts, op, store, norm), path) == At(facts, path)
    ensures path == op.name && op.RemoveEntry? ==> At(Applied(facts, op, store, norm), path) == {}
  {
  }

  function Mentioned(ops: seq<Operation>): set<string> {
    set i | 0 <= i < |ops| :: ops[i].name
  }

  // After the operations, a path they mention stands as a rebuild would have it
  // and any other path as it stood before.
  lemma {:induction false} ReplayedAt(facts: set<Fact>, ops: seq<Operation>, store: Store, norm: string -> string,
                                      path: string)
    requires forall i | 0 <= i < |ops| :: norm(ops[i].name) == ops[i].name && Settles(ops[i], store)
    ensures At(Replayed(facts, ops, store, norm), path)
            == if path in Mentioned(ops) then At(Rebuilt(store), path) else At(facts, path)
    decreases |ops|
  {
    if ops != [] {
      var next := Applied(facts, ops[0], store, norm);
      AppliedAt(facts, ops[0], store, norm, path);
      ReplayedAt(next, ops[1..], store, norm, path);
      assert Mentioned(ops) == {ops[0].name} + Mentioned(ops[1..]) by {
        MentionedHead(ops);
      }
    }
  }

  lemma MentionedHead(ops: seq<Operation>)
    requires ops != []
    ensures Mentioned(ops) == {ops[0].name} + Mentioned(ops[1..])
  {
    forall name | name in Mentioned(ops)
      ensures name in {ops[0].name} + Mentioned(ops[1..])
    {
      var i :| 0 <= i < |ops| && ops[i].name == name;
      assert i > 0 ==> ops[1..][i - 1].name == name;
    }
    forall name | name in Mentioned(ops[1..])
      ensures name in Mentioned(ops)
    {
      var i :| 0 <= i < |ops[1..]| && ops[1..][i].name == name;
      assert ops[i + 1].name == name;
    }
  }

  lemma SameAtEveryPath(a: set<Fact>, b: set<Fact>)
    requires forall path :: At(a, path) == At(b, path)
    ensures a == b
  {
    forall f
      ensures f in a <==> f in b
    {
      assert f in At(a, f.path) <==> f in a;
      assert f in At(b, f.path) <==> f in b;
    }
  }

  // The records mention every path whose entry differs between the two stores.
  ghost predicate Covers(ops: seq<Operation>, before: Store, after: Store) {
    forall path :: At(Rebuilt(before), path) != At(Rebuilt(after), path) ==> path in Mentioned(ops)
  }

  // The last operation on a path that does something: an update of a file that
  // cannot be decrypted does nothing.
  function LastEffect(ops: seq<Operation>, store: Store, path: string): Option<Operation> {
    if ops == [] then None
    else
      var later := LastEffect(ops[1..], store, path);
      if later.Some? then later
      else if ops[0].name != path || (ops[0].UpdateEntry? && path in store && store[path].Undecryptable?) then None
      else Some(ops[0])
  }

  // What a replay leaves at a path, whatever decrypts.
  lemma {:induction false} ReplayedExactlyAt(facts: set<Fact>, ops: seq<Operation>, store: Store,
                                             norm: string -> string, path: string)
    requires forall i | 0 <= i < |ops| :: norm(ops[i].name) == ops[i].name
    ensures At(Replayed(facts, ops, store, norm), path)
            == match LastEffect(ops, store, path)
               case None => At(facts, path)
               case Some(RemoveEntry(_)) => {}
               case Some(UpdateEntry(_)) => At(Rebuilt(store), path)
    decreases |ops|
  {
    if ops != [] {
      AppliedAt(facts, ops[0], store, norm, path);
      ReplayedExactlyAt(Applied(facts, ops[0], store, norm), ops[1..], store, norm, path);
    }
  }

  // The replay leaves a path as a rebuild would: it was last updated, or last
  // removed and has nothing to show, or never affected and shows what it showed.
  ghost predicate RebuiltAt(before: Store, after: Store, ops: seq<Operation>, path: string) {
    match LastEffect(ops, after, path)
    case None => At(Rebuilt(before), path) == At(Rebuilt(after), path)
    case Some(RemoveEntry(_)) => At(Rebuilt(after), path) == {}
    case Some(UpdateEntry(_)) => true
  }

  // Replaying a diff over an index that agreed with the old store gives the rebuilt
  // index of the new one exactly when every path is left as a rebuild would have it.
  // Nothing is assumed about what decrypts or about which paths the diff removes.
  lemma ReplayRefinesRebuild(before: Store, after: Store, ops: seq<Operation>, norm: string -> string)
    requires forall i | 0 <= i < |ops| :: norm(ops[i].name) == ops[i].name
    ensures Replayed(Rebuilt(before), ops, after, norm) == Rebuilt(after)
       <==> forall path :: RebuiltAt(before, after, ops, path)
  {
    var replayed := Replayed(Rebuilt(before), ops, after, norm);
    forall path
      ensures RebuiltAt(before, after, ops, path) <==> At(replayed, path) == At(Rebuilt(after), path)
    {
      ReplayedExactlyAt(Rebuilt(before), ops, after, norm, path);
    }
    if forall path :: RebuiltAt(before, after, ops, path) {
      SameAtEveryPath(replayed, Rebuilt(after));
    }
  }

  // When updated files decrypt and removed ones are gone, that comes to the diff
  // mentioning every path that changed, whatever the order of its lines.
  lemma SettledReplayRefines(before: Store, after: Store, ops: seq<Operation>, norm: string -> string)
    requires forall i | 0 <= i < |ops| :: norm(ops[i].name) == ops[i].name && Settles(ops[i], after)
    ensures Replayed(Rebuilt(before), ops, after, norm) == Rebuilt(after) <==> Covers(ops, before, after)
  {
    var replayed := Replayed(Rebuilt(before), ops, after, norm);
    forall path
      ensures At(replayed, path)
              == if path in Mentioned(ops) then At(Rebuilt(after), path) else At(Rebuilt(before), path)
    {
      ReplayedAt(Rebuilt(before), ops, after, norm, path);
    }
    if Covers(ops, before, after) {
      forall path
        ensures At(replayed, path) == At(Rebuilt(after), path)
      {
      }
      SameAtEveryPath(replayed, Rebuilt(after));
    }
  }

  // Two diffs over the same paths leave the same index, in any order and with
  // any repetition.
  lemma ReplayOrderIrrelevant(facts: set<Fact>, a: seq<Operation>, b: seq<Operation>, store: Store,
                              norm: string -> string)
    requires forall i | 0 <= i < |a| :: norm(a[i].name) == a[i].name && Settles(a[i], store)
    requires forall i | 0 <= i < |b| :: norm(b[i].name) == b[i].name && Settles(b[i], store)
    requires Mentioned(a) == Mentioned(b)
    ensures Replayed(facts, a, store, norm) == Replayed(facts, b, store, norm)
  {
    forall path
      ensures At(Replayed(facts, a, store, norm), path) == At(Replayed(facts, b, store, norm), path)
    {
      ReplayedAt(facts, a, store, norm, path);
      ReplayedAt(facts, b, store, norm, path);
    }
    SameAtEveryPath(Replayed(facts, a, store, norm), Replayed(facts, b, store, norm));
  }

  // A failed decryption leaves every entry as it was.
  lemma FailedDecryptionKeeps(facts: set<Fact>, name: string, store: Store, norm: string -> string)
    requires norm(name) == name && name in store && store[name].Undecryptable?
    ensures Applied(facts, UpdateEntry(name), store, norm) == facts
  {
    forall path
      ensures At(Applied(facts, UpdateEntry(name), store, norm), path) == At(facts, path)
    {
      AppliedAt(facts, UpdateEntry(name), store, norm, path);
    }
    SameAtEveryPath(Applied(facts, UpdateEntry(name), store, norm), facts);
  }

  // ---- what records do, record by record ------------------------------------------

  // The record takes the path's entry out: the path was deleted, or renamed away.
  predicate TakesOut(r: Record, f: Failures, path: string) {
    match r
    case Deleted(name) => name == Some(path) && !f.first
    case Renamed(from, _) => from == Some(path) && !f.first
    case Copied(_) => false
    case Touched(_) => false
  }

  // The record has the path's entry read again: it was renamed or copied to, added or
  // changed.
  predicate ReadsAgain(r: Record, f: Failures, path: string) {
    match r
    case Deleted(_) => false
    case Renamed(_, to) => to == Some(path) && !f.second
    case Copied(to) => to == Some(path) && !f.first
    case Touched(name) => name == Some(path) && !f.first
  }

  // The record decides what the index says of the path.
  predicate Decides(r: Record, f: Failures, store: Store, path: string) {
    TakesOut(r, f, path) || (ReadsAgain(r, f, path) && !(path in store && store[path].Undecryptable?))
  }

  predicate NormalName(name: Option<string>, norm: string -> string) {
    name.Some? ==> norm(name.value) == name.value
  }

  predicate NormalRecord(r: Record, norm: string -> string) {
    match r
    case Deleted(name) => NormalName(name, norm)
    case Renamed(from, to) => NormalName(from, norm) && NormalName(to, norm)
    case Copied(to) => NormalName(to, norm)
    case Touched(name) => NormalName(name, norm)
  }

  lemma CommandAt(facts: set<Fact>, ops: seq<Operation>, store: Store, norm: string -> string, path: string)
    requires |ops| <= 1 && forall i | 0 <= i < |ops| :: norm(ops[i].name) == ops[i].name
    ensures At(Replayed(facts, ops, store, norm), path)
            == if ops == [] || ops[0].name != path then At(facts, path)
               else if ops[0].RemoveEntry? then {}
               else if path in store && store[path].Undecryptable? then At(facts, path)
               else At(Rebuilt(store), path)
  {
    if ops != [] {
      AppliedAt(facts, ops[0], store, norm, path);
      assert ops[1..] == [];
      assert Replayed(facts, ops, store, norm) == Applied(facts, ops[0], store, norm);
    }
  }

  // One record: its path is read again, or taken out, or left alone.
  lemma RecordAt(facts: set<Fact>, r: Record, f: Failures, store: Store, norm: string -> string, path: string)
    requires NormalRecord(r, norm)
    ensures At(Replayed(facts, OperationsOf(r, f), store, norm), path)
            == if ReadsAgain(r, f, path) && !(path in store && store[path].Undecryptable?) then At(Rebuilt(store), path)
               else if TakesOut(r, f, path) then {}
               else At(facts, path)
  {
    match r {
      case Deleted(name) => CommandAt(facts, Unless(f.first, Removal(name)), store, norm, path);
      case Copied(to) => CommandAt(facts, Unless(f.first, Refreshing(to)), store, norm, path);
      case Touched(name) => CommandAt(facts, Unless(f.first, Refreshing(name)), store, norm, path);
      case Renamed(from, to) =>
        var first, second := Unless(f.first, Removal(from)), Unless(f.second, Refreshing(to));
        ReplayedConcat(facts, first, second, store, norm);
        CommandAt(facts, first, store, norm, path);
        CommandAt(Replayed(facts, first, store, norm), second, store, norm, path);
    }
  }

  lemma AllOperationsAppend(records: seq<Record>, failed: seq<Failures>, r: Record, f: Failures)
    requires |records| == |failed|
    ensures AllOperations(records + [r], failed + [f]) == AllOperations(records, failed) + OperationsOf(r, f)
  {
    if records == [] {
      assert records + [r] == [r] && failed + [f] == [f];
      assert AllOperations([r][1..], [f][1..]) == [];
    } else {
      assert (records + [r])[1..] == records[1..] + [r] && (failed + [f])[1..] == failed[1..] + [f];
      AllOperationsAppend(records[1..], failed[1..], r, f);
    }
  }

  // The last record that decides a path decides what the whole diff leaves of it:
  // what a rebuild would hold, or nothing. A path that none decides keeps what it had.
  lemma {:induction false} LastRecordDecides(facts: set<Fact>, records: seq<Record>, failed: seq<Failures>,
                                             store: Store, norm: string -> string, path: string, last: Option<nat>)
    requires |records| == |failed| && forall r | r in records :: NormalRecord(r, norm)
    requires last.Some? ==> last.value < |records| && Decides(records[last.value], failed[last.value], store, path)
    requires forall i | (if last.Some? then last.value else -1) < i < |records| ::
               !Decides(records[i], failed[i], store, path)
    ensures At(Replayed(facts, AllOperations(records, failed), store, norm), path)
            == if last.None? then At(facts, path)
               else if ReadsAgain(records[last.value], failed[last.value], path)
                       && !(path in store && store[path].Undecryptable?) then At(Rebuilt(store), path)
               else {}
    decreases |records|
  {
    if records != [] {
      var n := |records| - 1;
      var before := Replayed(facts, AllOperations(records[..n], failed[..n]), store, norm);
      SplitLast(facts, records, failed, store, norm);
      RecordAt(before, records[n], failed[n], store, norm, path);
      if last != Some(n) {
        assert forall r | r in records[..n] :: r in records;
        LastRecordDecides(facts, records[..n], failed[..n], store, norm, path, last);
      }
    }
  }

  lemma SplitLast(facts: set<Fact>, records: seq<Record>, failed: seq<Failures>, store: Store, norm: string -> string)
    requires |records| == |failed| && records != []
    ensures var n := |records| - 1;
            Replayed(facts, AllOperations(records, failed), store, norm)
            == Replayed(Replayed(facts, AllOperations(records[..n], failed[..n]), store, norm),
                        OperationsOf(records[n], failed[n]), store, norm)
  {
    var n := |records| - 1;
    assert records[..n] + [records[n]] == records && failed[..n] + [failed[n]] == failed;
    AllOperationsAppend(records[..n], failed[..n], records[n], failed[n]);
    ReplayedConcat(facts, AllOperations(records[..n], failed[..n]), OperationsOf(records[n], failed[n]), store, norm);
  }

  // ---- a diff that tells the change --------------------------------------------------

  predicate NothingFails(failed: seq<Failures>) {
    forall i | 0 <= i < |failed| :: failed[i] == Failures(false, false)
  }

  // What a record of this kind claims about the new store.
  predicate IsTold(r: Record, after: Store) {
    match r
    case Deleted(name) => name.Some? ==> name.value !in after
    case Renamed(from, to) => (from.Some? ==> from.value !in after) && (to.Some? ==> to.value in after)
    case Copied(to) => to.Some? ==> to.value in after
    case Touched(name) => name.Some? ==> name.value in after
  }

  predicate Names(r: Record, path: string) {
    match r
    case Deleted(name) => name == Some(path)
    case Renamed(from, to) => from == Some(path) || to == Some(path)
    case Copied(to) => to == Some(path)
    case Touched(name) => name == Some(path)
  }

  // Every claim holds, every file that came, went or changed is named, and what is
  // named decrypts.
  ghost predicate TellChange(records: seq<Record>, before: Store, after: Store, norm: string -> string) {
    && (forall r | r in records :: IsTold(r, after) && NormalRecord(r, norm))
    && (forall path | Lookup(before, path) != Lookup(after, path) :: exists r :: r in records && Names(r, path))
    && (forall r, path | r in records && Names(r, path) && path in after :: after[path].Decrypts?)
  }

  lemma LastDecider(records: seq<Record>, failed: seq<Failures>, store: Store, path: string) returns (last: Option<nat>)
    requires |records| == |failed|
    ensures last.Some? ==> last.value < |records| && Decides(records[last.value], failed[last.value], store, path)
    ensures forall i | (if last.Some? then last.value else -1) < i < |records| ::
              !Decides(records[i], failed[i], store, path)
  {
    last := None;
    for i := 0 to |records|
      invariant last.Some? ==> last.value < i && Decides(records[last.value], failed[last.value], store, path)
      invariant forall j | (if last.Some? then last.value else -1) < j < i ::
                  !Decides(records[j], failed[j], store, path)
    {
      if Decides(records[i], failed[i], store, path) {
        last := Some(i);
      }
    }
  }

  lemma ToldDecides(r: Record, after: Store, path: string)
    requires IsTold(r, after) && Names(r, path) && (path in after ==> after[path].Decrypts?)
    ensures Decides(r, Failures(false, false), after, path)
    ensures path in after ==> ReadsAgain(r, Failures(false, false), path)
  {
  }

  lemma UnchangedSame(before: Store, after: Store, path: string)
    requires Lookup(before, path) == Lookup(after, path)
    ensures At(Rebuilt(before), path) == At(Rebuilt(after), path)
  {
    assert path in before <==> path in after;
    assert path in before ==> before[path] == after[path];
  }

  lemma DiffAt(records: seq<Record>, failed: seq<Failures>, before: Store, after: Store, norm: string -> string,
               path: string)
    requires |records| == |failed| && NothingFails(failed) && TellChange(records, before, after, norm)
    ensures At(Replayed(Rebuilt(before), AllOperations(records, failed), after, norm), path) == At(Rebuilt(after), path)
  {
    var last := LastDecider(records, failed, after, path);
    LastRecordDecides(Rebuilt(before), records, failed, after, norm, path, last);
    if last.None? {
      forall r | r in records && Names(r, path)
        ensures false
      {
        var i :| 0 <= i < |records| && records[i] == r;
        ToldDecides(r, after, path);
      }
      UnchangedSame(before, after, path);
    } else {
      var r := records[last.value];
      assert r in records && failed[last.value] == Failures(false, false) && Names(r, path);
      ToldDecides(r, after, path);
      assert path !in after ==> At(Rebuilt(after), path) == {};
    }
  }

  // An index that agreed with the old store agrees with the new one after the diff.
  lemma DiffRefinesRebuild(records: seq<Record>, failed: seq<Failures>, before: Store, after: Store,
                           norm: string -> string)
    requires |records| == |failed| && NothingFails(failed) && TellChange(records, before, after, norm)
    ensures Replayed(Rebuilt(before), AllOperations(records, failed), after, norm) == Rebuilt(after)
  {
    forall path
      ensures At(Replayed(Rebuilt(before), AllOperations(records, failed), after, norm), path)
                == At(Rebuilt(after), path)
    {
      DiffAt(records, failed, before, after, norm, path);
    }
    SameAtEveryPath(Replayed(Rebuilt(before), AllOperations(records, failed), after, norm), Rebuilt(after));
  }
}

// The migration planner: candidate lookup through the indexes, one entry, and a
// whole dry or applying run (scripts/migrate-pass-to-1password.py).
module Migration {
  import opened Wrappers
  import opened PassItems

  datatype Summary = Summary(id: string, title: string, urls: seq<string>)

  // What `op item list` showed by title and by URL, what was added since, and the
  // details fetched or added so far.
  datatype Context = Context(
    titles: map<string, seq<Summary>>, urls: map<string, seq<Summary>>, details: map<string, Item>)

  // Everything outside the planner. `templates` has the item template of each
  // category; `entries` lacks what cannot be decrypted or
  // parsed, `vault` what `op item get` fails on, `created` what `op item create`
  // fails on (by entry path).
  datatype Env = Env(
    norms: Norms, entries: map<string, Entry>, vault: map<string, Item>,
    templates: map<Category, Payload>, created: map<string, string>)

  // One line of output per entry.
  datatype Line =
    | Skip(path: string, ids: set<string>)
    | Ambiguous(path: string, ids: set<string>)
    | Create(path: string)
    | Created(path: string, id: string)
    | Failed(path: string)

  datatype Counts = Counts(
    discovered: nat, skipped: nat, planned: nat, created: nat, ambiguous: nat, failed: nat)

  // ---- dictionaries and indexes ---------------------------------------------------

  function At(index: map<string, seq<Summary>>, k: string): seq<Summary> {
    if k in index then index[k] else []
  }

  predicate HasId(list: seq<Summary>, id: string) {
    exists s | s in list :: s.id == id
  }

  // A dictionary in insertion order: `put` replaces, `default` keeps.
  function Put(list: seq<Summary>, s: Summary): seq<Summary> {
    if list == [] then [s]
    else if list[0].id == s.id then [s] + list[1..]
    else [list[0]] + Put(list[1..], s)
  }

  function PutAll(list: seq<Summary>, more: seq<Summary>): seq<Summary>
    decreases |more|
  {
    if more == [] then list else PutAll(Put(list, more[0]), more[1..])
  }

  function DefaultAll(list: seq<Summary>, more: seq<Summary>): seq<Summary>
    decreases |more|
  {
    if more == [] then list
    else DefaultAll(if HasId(list, more[0].id) then list else list + [more[0]], more[1..])
  }

  function AddToIndex(index: map<string, seq<Summary>>, k: string, s: Summary): map<string, seq<Summary>> {
    index[k := At(index, k) + [s]]
  }

  // Under every one of its URLs; a URL that cannot be parsed adds nothing.
  function AddUrls(n: Norms, index: map<string, seq<Summary>>, urls: seq<string>, s: Summary): map<string, seq<Summary>>
    decreases |urls|
  {
    if urls == [] then index
    else
      var k := n.url(urls[0]);
      AddUrls(n, if k.Some? then AddToIndex(index, k.value, s) else index, urls[1..], s)
  }

  // _index_summaries; None when a listed URL cannot be parsed.
  function Indexed(n: Norms, c: Context, list: seq<Summary>): Option<Context>
    decreases |list|
  {
    if list == [] then Some(c)
    else if !AllUrlsParse(n, list[0].urls) then None
    else Indexed(n, Listed(n, c, list[0]), list[1..])
  }

  function Listed(n: Norms, c: Context, s: Summary): Context {
    c.(titles := AddToIndex(c.titles, n.title(s.title), s), urls := AddUrls(n, c.urls, s.urls, s))
  }

  // ---- one entry ------------------------------------------------------------------

  function UrlCandidates(n: Norms, c: Context, urls: seq<string>, list: seq<Summary>): Option<seq<Summary>>
    decreases |urls|
  {
    if urls == [] then Some(list)
    else
      var k := n.url(urls[0]);
      if k.None? then None
      else UrlCandidates(n, c, urls[1..], DefaultAll(list, At(c.urls, k.value)))
  }

  function TitleCandidates(n: Norms, c: Context, e: Entry): seq<Summary> {
    PutAll([], At(c.titles, n.title(e.title)))
  }

  function Bare(s: Summary): Item {
    Item(s.id, s.title, [], s.urls, [])
  }

  // The details after one candidate is looked at; None when its fetch fails.
  function FetchOne(vault: map<string, Item>, details: map<string, Item>, wanted: bool,
                    id: string): Option<map<string, Item>> {
    if !wanted || id in details then Some(details)
    else if id in vault then Some(details[id := vault[id]])
    else None
  }

  function ItemOf(details: map<string, Item>, s: Summary): Item {
    if s.id in details then details[s.id] else Bare(s)
  }

  // The items of the candidates, fetching what is needed and missing; a fetch that
  // fails stops there, and what was fetched before it stays.
  function Fetch(vault: map<string, Item>, details: map<string, Item>, needed: set<string>, always: bool,
                 list: seq<Summary>): (map<string, Item>, Option<seq<Item>>)
    decreases |list|
  {
    if list == [] then (details, Some([]))
    else
      var s := list[0];
      match FetchOne(vault, details, s.id in needed || always, s.id)
      case None => (details, None)
      case Some(known) =>
        var (last, rest) := Fetch(vault, known, needed, always, list[1..]);
        (last, Joined([ItemOf(known, s)], rest))
  }

  lemma FetchUnrolls(vault: map<string, Item>, details: map<string, Item>, needed: set<string>, always: bool,
                     s: Summary, rest: seq<Summary>)
    ensures Fetch(vault, details, needed, always, [s] + rest)
         == match FetchOne(vault, details, s.id in needed || always, s.id)
            case None => (details, None)
            case Some(known) =>
              (Fetch(vault, known, needed, always, rest).0,
               Joined([ItemOf(known, s)], Fetch(vault, known, needed, always, rest).1))
  {
    assert ([s] + rest)[1..] == rest;
  }

  function Ids(list: seq<Summary>): set<string> {
    set s | s in list :: s.id
  }

  function Candidates(env: Env, c: Context, e: Entry): (Context, Option<seq<Item>>) {
    var titled := TitleCandidates(env.norms, c, e);
    var all := UrlCandidates(env.norms, c, e.urls, titled);
    if all.None? then (c, None)
    else
      var (details, items) := Fetch(env.vault, c.details, Ids(titled), e.usernames != [], all.value);
      (c.(details := details), items)
  }

  // _add_in_memory_item
  function Added(n: Norms, c: Context, e: Entry, id: string): Context {
    var s := Summary(id, e.title, e.urls);
    Listed(n, c, s).(details := c.details[id := SourceAsExisting(e, id)])
  }

  const PLANNED := "planned:"

  // A category without a template fails the entry like a template that lacks a
  // field.
  function PayloadFor(env: Env, e: Entry): Option<Payload> {
    if e.category in env.templates then BuildPayload(env.norms, env.templates[e.category], e) else None
  }

  function Resolved(env: Env, apply: bool, c: Context, e: Entry): (Context, Line) {
    if !apply then (Added(env.norms, c, e, PLANNED + e.path), Create(e.path))
    else if PayloadFor(env, e).None? || e.path !in env.created then (c, Failed(e.path))
    else (Added(env.norms, c, e, env.created[e.path]), Created(e.path, env.created[e.path]))
  }

  function Processed(env: Env, apply: bool, c: Context, path: string): (Context, Line) {
    if path !in env.entries then (c, Failed(path))
    else
      var e := env.entries[path].(path := path);
      var (known, items) := Candidates(env, c, e);
      if items.None? then (known, Failed(path))
      else
        var found := MatchExisting(env.norms, e, items.value);
        if found.None? then (known, Failed(path))
        else if |found.value| == 1 then (known, Skip(path, found.value))
        else if found.value != {} then (known, Ambiguous(path, found.value))
        else Resolved(env, apply, known, e)
  }

  // ---- a run -----------------------------------------------------------------------

  function Run(env: Env, apply: bool, c: Context, paths: seq<string>): (Context, seq<Line>)
    decreases |paths|
  {
    if paths == [] then (c, [])
    else
      var (next, line) := Processed(env, apply, c, paths[0]);
      var (last, lines) := Run(env, apply, next, paths[1..]);
      (last, [line] + lines)
  }

  lemma {:induction false} RunExtends(env: Env, apply: bool, c: Context, paths: seq<string>, path: string)
    ensures var (mid, lines) := Run(env, apply, c, paths);
            var (next, line) := Processed(env, apply, mid, path);
            Run(env, apply, c, paths + [path]) == (next, lines + [line])
    decreases |paths|
  {
    if paths == [] {
      assert (paths + [path])[1..] == [] && paths + [path] == [path];
      var line := Processed(env, apply, c, path).1;
      assert [line] + [] == [] + [line];
    } else {
      var first := Processed(env, apply, c, paths[0]);
      RunExtends(env, apply, first.0, paths[1..], path);
      assert (paths + [path])[1..] == paths[1..] + [path];
      var (mid, lines) := Run(env, apply, first.0, paths[1..]);
      var (next, line) := Processed(env, apply, mid, path);
      assert [first.1] + (lines + [line]) == ([first.1] + lines) + [line];
    }
  }

  function Tally(line: Line, c: Counts): Counts {
    match line
    case Skip(_, _) => c.(skipped := c.skipped + 1)
    case Ambiguous(_, _) => c.(ambiguous := c.ambiguous + 1)
    case Create(_) => c.(planned := c.planned + 1)
    case Created(_, _) => c.(created := c.created + 1)
    case Failed(_) => c.(failed := c.failed + 1)
  }

  function TallyAll(lines: seq<Line>, c: Counts): Counts {
    if lines == [] then c else Tally(lines[|lines| - 1], TallyAll(lines[..|lines| - 1], c))
  }

  predicate Troubled(line: Line) {
    line.Ambiguous? || line.Failed?
  }

  predicate NoneOf(lines: seq<Line>, dry: bool) {
    forall i | 0 <= i < |lines| :: if dry then !lines[i].Create? else !lines[i].Created?
  }

  predicate NoSkips(lines: seq<Line>) {
    forall i | 0 <= i < |lines| :: !lines[i].Skip?
  }

  predicate NoFailures(lines: seq<Line>) {
    forall i | 0 <= i < |lines| :: !lines[i].Failed?
  }

  predicate Untroubled(lines: seq<Line>) {
    forall i | 0 <= i < |lines| :: !Troubled(lines[i])
  }

  // Every line is counted once, under its own kind.
  lemma {:induction false} TallyAccounts(lines: seq<Line>, discovered: nat)
    ensures var c := TallyAll(lines, Counts(discovered, 0, 0, 0, 0, 0));
            && c.discovered == discovered
            && |lines| == c.skipped + c.planned + c.created + c.ambiguous + c.failed
            && (NoneOf(lines, true) <==> c.planned == 0)
            && (NoneOf(lines, false) <==> c.created == 0)
            && (Untroubled(lines) <==> c.ambiguous == 0 && c.failed == 0)
            && (NoSkips(lines) <==> c.skipped == 0) && (NoFailures(lines) <==> c.failed == 0)
  {
    if lines != [] {
      var n := |lines| - 1;
      TallyAccounts(lines[..n], discovered);
      assert NoneOf(lines, true) <==> NoneOf(lines[..n], true) && !lines[n].Create?;
      assert NoneOf(lines, false) <==> NoneOf(lines[..n], false) && !lines[n].Created?;
      assert Untroubled(lines) <==> Untroubled(lines[..n]) && !Troubled(lines[n]);
      assert NoSkips(lines) <==> NoSkips(lines[..n]) && !lines[n].Skip?;
      assert NoFailures(lines) <==> NoFailures(lines[..n]) && !lines[n].Failed?;
    }
  }

  lemma LineIs(env: Env, apply: bool, c: Context, path: string)
    ensures var line := Processed(env, apply, c, path).1;
            line.path == path && if apply then !line.Create? else !line.Created?
  {
  }

  lemma LinesFollow(line: Line, lines: seq<Line>, paths: seq<string>, apply: bool)
    requires paths != [] && line.path == paths[0] && PathsOf(lines) == paths[1..]
    requires NoneOf(lines, apply) && if apply then !line.Create? else !line.Created?
    ensures PathsOf([line] + lines) == paths && NoneOf([line] + lines, apply)
  {
    assert PathsOf([line] + lines) == [line.path] + PathsOf(lines);
  }

  // A run says one thing about each path, in order, and plans or creates by mode.
  lemma {:induction false} RunCovers(env: Env, apply: bool, c: Context, paths: seq<string>)
    ensures var lines := Run(env, apply, c, paths).1;
            && PathsOf(lines) == paths
            && NoneOf(lines, apply)
    decreases |paths|
  {
    if paths != [] {
      var first := Processed(env, apply, c, paths[0]);
      LineIs(env, apply, c, paths[0]);
      RunCovers(env, apply, first.0, paths[1..]);
      LinesFollow(first.1, Run(env, apply, first.0, paths[1..]).1, paths, apply);
    }
  }

  function Joined(found: seq<Item>, rest: Option<seq<Item>>): Option<seq<Item>> {
    if rest.None? then None else Some(found + rest.value)
  }

  function PathsOf(lines: seq<Line>): seq<string> {
    seq(|lines|, i requires 0 <= i < |lines| => lines[i].path)
  }

  class Planner {
    const env: Env
    const apply: bool
    var context: Context
    var counts: Counts
    var output: seq<Line>

    constructor (env: Env, apply: bool, context: Context)
      ensures this.env == env && this.apply == apply && this.context == context
      ensures counts == Counts(0, 0, 0, 0, 0, 0) && output == []
    {
      this.env, this.apply, this.context := env, apply, context;
      counts, output := Counts(0, 0, 0, 0, 0, 0), [];
    }

    method AddInMemoryItem(e: Entry, id: string)
      modifies this`context
      ensures context == Added(env.norms, old(context), e, id)
    {
      var summary := Summary(id, e.title, e.urls);
      var titles := AddToIndex(context.titles, env.norms.title(e.title), summary);
      var urls := context.urls;
      var i := 0;
      while i < |e.urls|
        invariant 0 <= i <= |e.urls|
        invariant AddUrls(env.norms, context.urls, e.urls, summary) == AddUrls(env.norms, urls, e.urls[i..], summary)
      {
        var k := env.norms.url(e.urls[i]);
        if k.Some? {
          urls := AddToIndex(urls, k.value, summary);
        }
        i := i + 1;
      }
      context := Context(titles, urls, context.details[id := SourceAsExisting(e, id)]);
    }

    method CandidateItems(e: Entry) returns (items: Option<seq<Item>>)
      modifies this`context
      ensures (context, items) == Candidates(env, old(context), e)
    {
      var titled := TitleCandidates(env.norms, context, e);
      var all := titled;
      var i := 0;
      while i < |e.urls|
        invariant 0 <= i <= |e.urls| && context == old(context)
        invariant UrlCandidates(env.norms, context, e.urls, titled)
               == UrlCandidates(env.norms, context, e.urls[i..], all)
      {
        var k := env.norms.url(e.urls[i]);
        if k.None? {
          return None;
        }
        all := DefaultAll(all, At(context.urls, k.value));
        i := i + 1;
      }
      items := FetchItems(all, Ids(titled), e.usernames != []);
    }

    // The second loop: look at each candidate once, fetching what is missing.
    method FetchItems(all: seq<Summary>, needed: set<string>, always: bool) returns (items: Option<seq<Item>>)
      modifies this`context
      ensures (context.details, items) == Fetch(env.vault, old(context).details, needed, always, all)
      ensures context == old(context).(details := context.details)
    {
      var details, found := context.details, [];
      var i := 0;
      JoinedOnto(found, [], Fetch(env.vault, details, needed, always, all).1);
      while i < |all|
        invariant 0 <= i <= |all| && context == old(context)
        invariant Leads(Fetch(env.vault, context.details, needed, always, all),
                        Fetch(env.vault, details, needed, always, all[i..]), found)
      {
        var s := all[i];
        LeadsOn(env.vault, details, needed, always, all, i, found);
        if (s.id in needed || always) && s.id !in details {
          if s.id !in env.vault {
            context := context.(details := details);
            return None;
          }
          details := details[s.id := env.vault[s.id]];
        }
        found := found + [ItemOf(details, s)];
        i := i + 1;
      }
      assert all[i..] == [] && found + [] == found;
      context := context.(details := details);
      return Some(found);
    }

    method ProcessEntry(path: string)
      modifies this
      ensures var (after, line) := Processed(env, apply, old(context), path);
              context == after && output == old(output) + [line] && counts == Tally(line, old(counts))
    {
      if path !in env.entries {
        counts := counts.(failed := counts.failed + 1);
        output := output + [Failed(path)];
        return;
      }
      var e := env.entries[path].(path := path);
      var items := CandidateItems(e);
      var found := if items.None? then None else MatchExisting(env.norms, e, items.value);
      if found.None? {
        counts := counts.(failed := counts.failed + 1);
        output := output + [Failed(path)];
        return;
      }
      if |found.value| == 1 {
        counts := counts.(skipped := counts.skipped + 1);
        output := output + [Skip(path, found.value)];
        return;
      }
      if found.value != {} {
        counts := counts.(ambiguous := counts.ambiguous + 1);
        output := output + [Ambiguous(path, found.value)];
        return;
      }
      if !apply {
        counts := counts.(planned := counts.planned + 1);
        AddInMemoryItem(e, PLANNED + e.path);
        output := output + [Create(path)];
        return;
      }
      if PayloadFor(env, e).None? || path !in env.created {
        counts := counts.(failed := counts.failed + 1);
        output := output + [Failed(path)];
        return;
      }
      AddInMemoryItem(e, env.created[path]);
      counts := counts.(created := counts.created + 1);
      output := output + [Created(path, env.created[path])];
    }

    // The run over the discovered paths, after the preflight. The counters say
    // exactly what became of every entry.
    method Execute(paths: seq<string>) returns (code: nat)
      requires output == [] && counts == Counts(0, 0, 0, 0, 0, 0)
      modifies this
      ensures (context, output) == Run(env, apply, old(context), paths)
      ensures PathsOf(output) == paths && counts.discovered == |paths|
      ensures counts.discovered
           == counts.skipped + counts.planned + counts.created + counts.ambiguous + counts.failed
      ensures if apply then counts.planned == 0 else counts.created == 0
      ensures code == 0 <==> Untroubled(output)
    {
      counts := counts.(discovered := |paths|);
      var i := 0;
      while i < |paths|
        invariant 0 <= i <= |paths|
        invariant (context, output) == Run(env, apply, old(context), paths[..i])
        invariant counts == TallyAll(output, Counts(|paths|, 0, 0, 0, 0, 0))
      {
        RunExtends(env, apply, old(context), paths[..i], paths[i]);
        assert paths[..i + 1] == paths[..i] + [paths[i]];
        ghost var before := output;
        ProcessEntry(paths[i]);
        assert output[..|output| - 1] == before;
        i := i + 1;
      }
      assert paths[..i] == paths;
      RunCovers(env, apply, old(context), paths);
      TallyAccounts(output, |paths|);
      code := if counts.ambiguous != 0 || counts.failed != 0 then 1 else 0;
    }
  }

  // The whole fetch comes to what the rest of it comes to, after what was found.
  predicate Leads(whole: (map<string, Item>, Option<seq<Item>>), part: (map<string, Item>, Option<seq<Item>>),
                  found: seq<Item>) {
    whole.0 == part.0 && whole.1 == Joined(found, part.1)
  }

  lemma LeadsOn(vault: map<string, Item>, details: map<string, Item>, needed: set<string>, always: bool,
                all: seq<Summary>, i: nat, found: seq<Item>)
    requires i < |all|
    ensures var s := all[i];
            var part := Fetch(vault, details, needed, always, all[i..]);
            match FetchOne(vault, details, s.id in needed || always, s.id)
            case None => part == (details, None)
            case Some(known) =>
              var rest := Fetch(vault, known, needed, always, all[i + 1..]);
              part.0 == rest.0 && Joined(found, part.1) == Joined(found + [ItemOf(known, s)], rest.1)
  {
    assert all[i..] == [all[i]] + all[i + 1..];
    FetchUnrolls(vault, details, needed, always, all[i], all[i + 1..]);
    var known := FetchOne(vault, details, all[i].id in needed || always, all[i].id);
    if known.Some? {
      JoinedOnto(found, [ItemOf(known.value, all[i])], Fetch(vault, known.value, needed, always, all[i + 1..]).1);
    }
  }

  lemma JoinedOnto(a: seq<Item>, b: seq<Item>, rest: Option<seq<Item>>)
    ensures Joined(a, Joined(b, rest)) == Joined(a + b, rest)
    ensures Joined([], rest) == rest
  {
    if rest.Some? {
      assert a + (b + rest.value) == (a + b) + rest.value;
      assert [] + rest.value == rest.value;
    }
  }
}

// A dry run and an applying run side by side: they differ only in the ids of the
// items they add.
module MigrationRuns {
  import opened Wrappers
  import opened PassItems
  import opened Migration

  // ---- renaming item ids -----------------------------------------------------------

  function Ren(r: map<string, string>, id: string): string {
    if id in r then r[id] else id
  }

  ghost predicate Injective(r: map<string, string>) {
    forall x, y :: Distinguishes(r, x, y)
  }

  predicate Distinguishes(r: map<string, string>, x: string, y: string) {
    Ren(r, x) == Ren(r, y) ==> x == y
  }

  function RenSummary(r: map<string, string>, s: Summary): Summary {
    s.(id := Ren(r, s.id))
  }

  function RenItem(r: map<string, string>, item: Item): Item {
    item.(id := Ren(r, item.id))
  }

  function RenList(r: map<string, string>, list: seq<Summary>): seq<Summary> {
    if list == [] then [] else [RenSummary(r, list[0])] + RenList(r, list[1..])
  }

  function RenIds(r: map<string, string>, ids: set<string>): set<string> {
    set id | id in ids :: Ren(r, id)
  }

  predicate SameItems(r: map<string, string>, a: seq<Item>, b: seq<Item>) {
    |a| == |b| && forall i | 0 <= i < |a| :: b[i] == RenItem(r, a[i])
  }

  lemma {:induction false} RenAt(r: map<string, string>, list: seq<Summary>)
    ensures |RenList(r, list)| == |list|
    ensures forall i | 0 <= i < |list| :: RenList(r, list)[i] == RenSummary(r, list[i])
  {
    if list != [] {
      RenAt(r, list[1..]);
    }
  }

  lemma RenAppend(r: map<string, string>, a: seq<Summary>, b: seq<Summary>)
    ensures RenList(r, a + b) == RenList(r, a) + RenList(r, b)
  {
    RenAt(r, a);
    RenAt(r, b);
    RenAt(r, a + b);
  }

  lemma RenHasId(r: map<string, string>, list: seq<Summary>, id: string)
    requires Injective(r)
    ensures HasId(RenList(r, list), Ren(r, id)) <==> HasId(list, id)
    ensures Ren(r, id) in Ids(RenList(r, list)) <==> id in Ids(list)
  {
    RenAt(r, list);
    if s :| s in list && s.id == id {
      assert RenSummary(r, s) in RenList(r, list);
    }
    if i :| 0 <= i < |list| && RenList(r, list)[i].id == Ren(r, id) {
      Distinct(r, list[i].id, id);
      assert list[i] in list;
    }
  }

  lemma {:induction false} RenPut(r: map<string, string>, list: seq<Summary>, s: Summary)
    requires Injective(r)
    ensures Put(RenList(r, list), RenSummary(r, s)) == RenList(r, Put(list, s))
  {
    if list != [] {
      Distinct(r, list[0].id, s.id);
      if list[0].id != s.id {
        RenPut(r, list[1..], s);
      }
    }
  }

  lemma {:induction false} RenPutAll(r: map<string, string>, list: seq<Summary>, more: seq<Summary>)
    requires Injective(r)
    ensures PutAll(RenList(r, list), RenList(r, more)) == RenList(r, PutAll(list, more))
    decreases |more|
  {
    if more != [] {
      RenPut(r, list, more[0]);
      RenPutAll(r, Put(list, more[0]), more[1..]);
    }
  }

  lemma {:induction false} RenDefaultAll(r: map<string, string>, list: seq<Summary>, more: seq<Summary>)
    requires Injective(r)
    ensures DefaultAll(RenList(r, list), RenList(r, more)) == RenList(r, DefaultAll(list, more))
    decreases |more|
  {
    if more != [] {
      RenHasId(r, list, more[0].id);
      RenAppend(r, list, [more[0]]);
      assert RenList(r, [more[0]]) == [RenSummary(r, more[0])];
      RenDefaultAll(r, if HasId(list, more[0].id) then list else list + [more[0]], more[1..]);
    }
  }

  lemma {:induction false} RenSize(r: map<string, string>, ids: set<string>)
    requires Injective(r)
    ensures |RenIds(r, ids)| == |ids|
    ensures RenIds(r, ids) == {} <==> ids == {}
  {
    if ids != {} {
      var id :| id in ids;
      RenSize(r, ids - {id});
      assert RenIds(r, ids) == RenIds(r, ids - {id}) + {Ren(r, id)};
      forall x | x in ids - {id}
        ensures Ren(r, x) != Ren(r, id)
      {
        Distinct(r, x, id);
      }
    }
  }

  // ---- matching does not look at ids -------------------------------------------------

  lemma RenamedMatch(r: map<string, string>, n: Norms, e: Entry, a: seq<Item>, b: seq<Item>)
    requires SameItems(r, a, b)
    ensures PathMatches(n, e, b) == RenIds(r, PathMatches(n, e, a))
    ensures IdentifierMatches(n, e, b) == RenIds(r, IdentifierMatches(n, e, a))
    ensures (exists item | item in b :: !AllUrlsParse(n, item.urls))
       <==> (exists item | item in a :: !AllUrlsParse(n, item.urls))
  {
    forall i | 0 <= i < |a|
      ensures HasPath(n, e, b[i]) <==> HasPath(n, e, a[i])
      ensures Identifies(n, e, b[i]) <==> Identifies(n, e, a[i])
      ensures b[i].id == Ren(r, a[i].id) && b[i].urls == a[i].urls
      ensures a[i] in a && b[i] in b
    {
      assert SharesUrl(n, e, b[i]) <==> SharesUrl(n, e, a[i]);
      assert SharesUsername(n, e, b[i]) <==> SharesUsername(n, e, a[i]);
    }
    assert forall item | item in a :: exists i :: 0 <= i < |a| && a[i] == item;
    assert forall item | item in b :: exists i :: 0 <= i < |b| && b[i] == item;
  }

  lemma RenamedVerdict(r: map<string, string>, n: Norms, e: Entry, a: seq<Item>, b: seq<Item>)
    requires Injective(r) && SameItems(r, a, b)
    ensures MatchExisting(n, e, a).None? <==> MatchExisting(n, e, b).None?
    ensures MatchExisting(n, e, a).Some? ==>
              var (x, y) := (MatchExisting(n, e, a).value, MatchExisting(n, e, b).value);
              y == RenIds(r, x) && |y| == |x|
  {
    RenamedMatch(r, n, e, a, b);
    RenSize(r, PathMatches(n, e, a));
    RenSize(r, IdentifierMatches(n, e, a));
  }

  // ---- simulation ---------------------------------------------------------------------

  function RenFound(r: map<string, string>, item: Option<Item>): Option<Item> {
    match item
    case None => None
    case Some(x) => Some(RenItem(r, x))
  }

  ghost predicate SameDetails(r: map<string, string>, a: map<string, Item>, b: map<string, Item>) {
    forall id :: SameDetail(r, a, b, id)
  }

  predicate SameDetail(r: map<string, string>, a: map<string, Item>, b: map<string, Item>, id: string) {
    Lookup(b, Ren(r, id)) == RenFound(r, Lookup(a, id))
  }

  ghost predicate SameIndex(r: map<string, string>, a: map<string, seq<Summary>>, b: map<string, seq<Summary>>) {
    forall k :: At(b, k) == RenList(r, At(a, k))
  }

  ghost predicate Simulates(r: map<string, string>, a: Context, b: Context) {
    SameIndex(r, a.titles, b.titles) && SameIndex(r, a.urls, b.urls) && SameDetails(r, a.details, b.details)
  }

  // An id the renaming leaves alone, in the vault too.
  predicate Fixed(r: map<string, string>, vault: map<string, Item>, id: string) {
    Ren(r, id) == id && (id in vault ==> Ren(r, vault[id].id) == vault[id].id)
  }

  predicate GroundedList(r: map<string, string>, vault: map<string, Item>, details: map<string, Item>,
                         list: seq<Summary>) {
    forall s | s in list :: s.id in details || Fixed(r, vault, s.id)
  }

  // Only listed items have to be fetched; added ones have their details.
  ghost predicate Grounded(r: map<string, string>, vault: map<string, Item>, c: Context) {
    && (forall k :: GroundedList(r, vault, c.details, At(c.titles, k)))
    && (forall k :: GroundedList(r, vault, c.details, At(c.urls, k)))
  }

  lemma {:induction false} PutAllFrom(list: seq<Summary>, more: seq<Summary>)
    ensures forall s | s in PutAll(list, more) :: s in list || s in more
    decreases |more|
  {
    if more != [] {
      PutFrom(list, more[0]);
      PutAllFrom(Put(list, more[0]), more[1..]);
    }
  }

  lemma {:induction false} PutFrom(list: seq<Summary>, s: Summary)
    ensures forall x | x in Put(list, s) :: x in list || x == s
  {
    if list != [] && list[0].id != s.id {
      PutFrom(list[1..], s);
    }
  }

  lemma {:induction false} DefaultAllFrom(list: seq<Summary>, more: seq<Summary>)
    ensures forall s | s in DefaultAll(list, more) :: s in list || s in more
    decreases |more|
  {
    if more != [] {
      DefaultAllFrom(if HasId(list, more[0].id) then list else list + [more[0]], more[1..]);
    }
  }

  lemma {:induction false} SameUrlCandidates(r: map<string, string>, env: Env, a: Context, b: Context,
                                             urls: seq<string>, list: seq<Summary>)
    requires Injective(r) && Simulates(r, a, b) && Grounded(r, env.vault, a)
    requires GroundedList(r, env.vault, a.details, list)
    ensures var (x, y) := (UrlCandidates(env.norms, a, urls, list),
                           UrlCandidates(env.norms, b, urls, RenList(r, list)));
            && (x.None? <==> y.None?)
            && (x.Some? ==> y.value == RenList(r, x.value) && GroundedList(r, env.vault, a.details, x.value))
    decreases |urls|
  {
    if urls != [] && env.norms.url(urls[0]).Some? {
      var k := env.norms.url(urls[0]).value;
      RenDefaultAll(r, list, At(a.urls, k));
      DefaultAllFrom(list, At(a.urls, k));
      assert GroundedList(r, env.vault, a.details, At(a.urls, k));
      assert At(b.urls, k) == RenList(r, At(a.urls, k));
      SameUrlCandidates(r, env, a, b, urls[1..], DefaultAll(list, At(a.urls, k)));
    }
  }

  lemma Distinct(r: map<string, string>, x: string, y: string)
    requires Injective(r)
    ensures Ren(r, x) == Ren(r, y) <==> x == y
  {
    assert Distinguishes(r, x, y);
  }

  lemma SameStoredAt(r: map<string, string>, a: map<string, Item>, b: map<string, Item>, id: string, item: Item,
                     x: string)
    requires SameDetail(r, a, b, x) && (Ren(r, x) == Ren(r, id) <==> x == id)
    ensures SameDetail(r, a[id := item], b[Ren(r, id) := RenItem(r, item)], x)
  {
  }

  lemma SameStored(r: map<string, string>, a: map<string, Item>, b: map<string, Item>, id: string, item: Item)
    requires Injective(r) && SameDetails(r, a, b)
    ensures SameDetails(r, a[id := item], b[Ren(r, id) := RenItem(r, item)])
  {
    var (after, renamed) := (a[id := item], b[Ren(r, id) := RenItem(r, item)]);
    forall x
      ensures SameDetail(r, after, renamed, x)
    {
      Distinct(r, x, id);
      SameStoredAt(r, a, b, id, item, x);
    }
  }

  lemma SameFetchOne(r: map<string, string>, vault: map<string, Item>, a: map<string, Item>, b: map<string, Item>,
                     wanted: bool, s: Summary)
    requires Injective(r) && SameDetails(r, a, b)
    requires s.id in a || Fixed(r, vault, s.id)
    ensures var (x, y) := (FetchOne(vault, a, wanted, s.id), FetchOne(vault, b, wanted, Ren(r, s.id)));
            && (x.None? <==> y.None?)
            && (x.Some? ==>
                  && SameDetails(r, x.value, y.value) && a.Keys <= x.value.Keys
                  && ItemOf(y.value, RenSummary(r, s)) == RenItem(r, ItemOf(x.value, s)))
  {
    assert SameDetail(r, a, b, s.id);
    if wanted && s.id !in a && s.id in vault {
      SameStored(r, a, b, s.id, vault[s.id]);
    }
  }

  ghost predicate SameNeeds(r: map<string, string>, needed: set<string>, renamed: set<string>) {
    forall id :: SameNeed(r, needed, renamed, id)
  }

  predicate SameNeed(r: map<string, string>, needed: set<string>, renamed: set<string>, id: string) {
    id in needed <==> Ren(r, id) in renamed
  }

  lemma SameJoined(r: map<string, string>, x: Item, a: Option<seq<Item>>, b: Option<seq<Item>>)
    requires a.None? <==> b.None?
    requires a.Some? ==> SameItems(r, a.value, b.value)
    ensures Joined([x], a).None? <==> Joined([RenItem(r, x)], b).None?
    ensures a.Some? ==> SameItems(r, Joined([x], a).value, Joined([RenItem(r, x)], b).value)
  {
  }

  ghost predicate SameFetched(r: map<string, string>, keys: set<string>,
                              x: (map<string, Item>, Option<seq<Item>>), y: (map<string, Item>, Option<seq<Item>>)) {
    && SameDetails(r, x.0, y.0) && keys <= x.0.Keys
    && (x.1.None? <==> y.1.None?)
    && (x.1.Some? ==> SameItems(r, x.1.value, y.1.value))
  }

  lemma SameFetchedOn(r: map<string, string>, keys: set<string>, item: Item,
                      x: (map<string, Item>, Option<seq<Item>>), y: (map<string, Item>, Option<seq<Item>>))
    requires SameFetched(r, keys, x, y)
    ensures SameFetched(r, keys, (x.0, Joined([item], x.1)), (y.0, Joined([RenItem(r, item)], y.1)))
  {
    SameJoined(r, item, x.1, y.1);
  }

  lemma {:induction false} SameFetch(r: map<string, string>, vault: map<string, Item>,
                                     a: map<string, Item>, b: map<string, Item>, needed: set<string>,
                                     renamed: set<string>, always: bool, list: seq<Summary>)
    requires Injective(r) && SameDetails(r, a, b) && GroundedList(r, vault, a, list)
    requires SameNeeds(r, needed, renamed)
    ensures SameFetched(r, a.Keys, Fetch(vault, a, needed, always, list),
                        Fetch(vault, b, renamed, always, RenList(r, list)))
    decreases |list|
  {
    if list != [] {
      var s, rest := list[0], list[1..];
      assert list == [s] + rest;
      var wanted := s.id in needed || always;
      assert SameNeed(r, needed, renamed, s.id);
      FetchUnrolls(vault, a, needed, always, s, rest);
      FetchUnrolls(vault, b, renamed, always, RenSummary(r, s), RenList(r, rest));
      SameFetchOne(r, vault, a, b, wanted, s);
      var known := FetchOne(vault, a, wanted, s.id);
      if known.Some? {
        var known' := FetchOne(vault, b, wanted, Ren(r, s.id));
        SameFetch(r, vault, known.value, known'.value, needed, renamed, always, rest);
        SameFetchedOn(r, known.value.Keys, ItemOf(known.value, s), Fetch(vault, known.value, needed, always, rest),
                      Fetch(vault, known'.value, renamed, always, RenList(r, rest)));
      }
    }
  }

  lemma SameCandidates(r: map<string, string>, env: Env, a: Context, b: Context, e: Entry)
    requires Injective(r) && Simulates(r, a, b) && Grounded(r, env.vault, a)
    ensures var (x, y) := (Candidates(env, a, e), Candidates(env, b, e));
            && Simulates(r, x.0, y.0) && Grounded(r, env.vault, x.0)
            && (x.1.None? <==> y.1.None?)
            && (x.1.Some? ==> SameItems(r, x.1.value, y.1.value))
  {
    var key := env.norms.title(e.title);
    assert At(b.titles, key) == RenList(r, At(a.titles, key));
    assert GroundedList(r, env.vault, a.details, At(a.titles, key));
    RenPutAll(r, [], At(a.titles, key));
    PutAllFrom([], At(a.titles, key));
    var titled := TitleCandidates(env.norms, a, e);
    SameUrlCandidates(r, env, a, b, e.urls, titled);
    var all := UrlCandidates(env.norms, a, e.urls, titled);
    if all.Some? {
      forall id
        ensures SameNeed(r, Ids(titled), Ids(RenList(r, titled)), id)
      {
        RenHasId(r, titled, id);
      }
      SameFetch(r, env.vault, a.details, b.details, Ids(titled), Ids(RenList(r, titled)), e.usernames != [], all.value);
      GroundedGrows(r, env.vault, a, Candidates(env, a, e).0.details);
    }
  }

  lemma GroundedGrows(r: map<string, string>, vault: map<string, Item>, c: Context, details: map<string, Item>)
    requires Grounded(r, vault, c) && c.details.Keys <= details.Keys
    ensures Grounded(r, vault, c.(details := details))
  {
    forall k
      ensures GroundedList(r, vault, details, At(c.titles, k)) && GroundedList(r, vault, details, At(c.urls, k))
    {
      assert GroundedList(r, vault, c.details, At(c.titles, k)) && GroundedList(r, vault, c.details, At(c.urls, k));
    }
  }

  lemma SameAddToIndex(r: map<string, string>, a: map<string, seq<Summary>>, b: map<string, seq<Summary>>, k: string,
                       s: Summary)
    requires SameIndex(r, a, b)
    ensures SameIndex(r, AddToIndex(a, k, s), AddToIndex(b, k, RenSummary(r, s)))
  {
    RenAppend(r, At(a, k), [s]);
    assert At(b, k) == RenList(r, At(a, k));
    forall j
      ensures At(AddToIndex(b, k, RenSummary(r, s)), j) == RenList(r, At(AddToIndex(a, k, s), j))
    {
      assert At(b, j) == RenList(r, At(a, j));
    }
  }

  lemma {:induction false} SameAddUrls(r: map<string, string>, n: Norms, a: map<string, seq<Summary>>,
                                       b: map<string, seq<Summary>>, urls: seq<string>, s: Summary)
    requires SameIndex(r, a, b)
    ensures SameIndex(r, AddUrls(n, a, urls, s), AddUrls(n, b, urls, RenSummary(r, s)))
    decreases |urls|
  {
    if urls != [] {
      var k := n.url(urls[0]);
      if k.Some? {
        SameAddToIndex(r, a, b, k.value, s);
        SameAddUrls(r, n, AddToIndex(a, k.value, s), AddToIndex(b, k.value, RenSummary(r, s)), urls[1..], s);
      } else {
        SameAddUrls(r, n, a, b, urls[1..], s);
      }
    }
  }

  // What an index holds under a key after adding one summary under some keys.
  lemma {:induction false} AddUrlsAt(n: Norms, index: map<string, seq<Summary>>, urls: seq<string>, s: Summary,
                                     k: string)
    ensures forall x | x in At(AddUrls(n, index, urls, s), k) :: x in At(index, k) || x == s
    ensures forall x | x in At(index, k) :: x in At(AddUrls(n, index, urls, s), k)
    decreases |urls|
  {
    if urls != [] {
      var key := n.url(urls[0]);
      AddUrlsAt(n, if key.Some? then AddToIndex(index, key.value, s) else index, urls[1..], s, k);
    }
  }

  lemma SameAdded(r: map<string, string>, env: Env, a: Context, b: Context, e: Entry, id: string)
    requires Injective(r) && Simulates(r, a, b) && Grounded(r, env.vault, a)
    ensures Simulates(r, Added(env.norms, a, e, id), Added(env.norms, b, e, Ren(r, id)))
    ensures Grounded(r, env.vault, Added(env.norms, a, e, id))
  {
    var s := Summary(id, e.title, e.urls);
    SameAddToIndex(r, a.titles, b.titles, env.norms.title(e.title), s);
    SameAddUrls(r, env.norms, a.urls, b.urls, e.urls, s);
    SameStored(r, a.details, b.details, id, SourceAsExisting(e, id));
    var after := Added(env.norms, a, e, id);
    forall k
      ensures GroundedList(r, env.vault, after.details, At(after.titles, k))
      ensures GroundedList(r, env.vault, after.details, At(after.urls, k))
    {
      assert GroundedList(r, env.vault, a.details, At(a.titles, k));
      assert GroundedList(r, env.vault, a.details, At(a.urls, k));
      AddUrlsAt(env.norms, a.urls, e.urls, s, k);
    }
  }

  // The applying run says what the dry run said, about the renamed ids.
  predicate Predicts(r: map<string, string>, dry: Line, actual: Line) {
    match dry
    case Skip(path, ids) => actual == Skip(path, RenIds(r, ids))
    case Ambiguous(path, ids) => actual == Ambiguous(path, RenIds(r, ids))
    case Create(path) => actual == Created(path, Ren(r, PLANNED + path))
    case Failed(path) => actual == Failed(path)
    case Created(_, _) => false
  }

  // Every entry that parses can be built and created.
  predicate Creatable(env: Env, path: string) {
    path in env.entries ==>
      && path in env.created
      && PayloadFor(env, env.entries[path].(path := path)).Some?
  }

  lemma SameStep(r: map<string, string>, env: Env, a: Context, b: Context, path: string)
    requires Injective(r) && Simulates(r, a, b) && Grounded(r, env.vault, a)
    requires Creatable(env, path) && (path in env.created ==> Ren(r, PLANNED + path) == env.created[path])
    ensures var (x, y) := (Processed(env, false, a, path), Processed(env, true, b, path));
            Simulates(r, x.0, y.0) && Grounded(r, env.vault, x.0) && Predicts(r, x.1, y.1)
  {
    if path in env.entries {
      var e := env.entries[path].(path := path);
      SameCandidates(r, env, a, b, e);
      var (known, items) := Candidates(env, a, e);
      if items.Some? {
        RenamedVerdict(r, env.norms, e, items.value, Candidates(env, b, e).1.value);
        var found := MatchExisting(env.norms, e, items.value);
        if found == Some({}) {
          SameAdded(r, env, known, Candidates(env, b, e).0, e, PLANNED + path);
        }
      }
    }
  }

  predicate PredictsAll(r: map<string, string>, dry: seq<Line>, actual: seq<Line>) {
    |dry| == |actual| && forall i | 0 <= i < |dry| :: Predicts(r, dry[i], actual[i])
  }

  lemma PredictsMore(r: map<string, string>, x: Line, y: Line, dry: seq<Line>, actual: seq<Line>)
    requires Predicts(r, x, y) && PredictsAll(r, dry, actual)
    ensures PredictsAll(r, [x] + dry, [y] + actual)
  {
  }

  lemma {:induction false} SameRun(r: map<string, string>, env: Env, a: Context, b: Context, paths: seq<string>)
    requires Injective(r) && Simulates(r, a, b) && Grounded(r, env.vault, a)
    requires forall p | p in paths :: Creatable(env, p) && (p in env.created ==> Ren(r, PLANNED + p) == env.created[p])
    ensures PredictsAll(r, Run(env, false, a, paths).1, Run(env, true, b, paths).1)
    decreases |paths|
  {
    if paths != [] {
      SameStep(r, env, a, b, paths[0]);
      var x, y := Processed(env, false, a, paths[0]), Processed(env, true, b, paths[0]);
      SameRun(r, env, x.0, y.0, paths[1..]);
      PredictsMore(r, x.1, y.1, Run(env, false, x.0, paths[1..]).1, Run(env, true, y.0, paths[1..]).1);
    }
  }

  // ---- the main statement about a dry run -------------------------------------------

  // `op` gives every created item an id nobody has: not another created item, not
  // a planned one, and (below) not an item the vault already held.
  ghost predicate FreshIds(created: map<string, string>) {
    && (forall p, q | p in created && q in created && created[p] == created[q] :: p == q)
    && (forall p, q | p in created && q in created :: created[p] != PLANNED + q)
  }

  ghost predicate NewId(created: map<string, string>, id: string) {
    forall p | p in created :: id != created[p] && id != PLANNED + p
  }

  predicate IsPlanned(created: map<string, string>, id: string) {
    PLANNED <= id && id[|PLANNED|..] in created
  }

  // Planned ids and created ids exchanged.
  ghost function Exchanged(created: map<string, string>, id: string): string {
    if IsPlanned(created, id) then created[id[|PLANNED|..]]
    else if p :| p in created && created[p] == id then PLANNED + p
    else id
  }

  ghost function Renaming(created: map<string, string>): map<string, string> {
    map id | id in (set p | p in created :: PLANNED + p) + created.Values :: Exchanged(created, id)
  }

  lemma ExchangedPlanned(created: map<string, string>, p: string)
    requires p in created
    ensures Exchanged(created, PLANNED + p) == created[p]
  {
    assert (PLANNED + p)[|PLANNED|..] == p;
  }

  lemma ExchangedCreated(created: map<string, string>, p: string)
    requires FreshIds(created) && p in created
    ensures Exchanged(created, created[p]) == PLANNED + p
  {
    assert forall id | PLANNED <= id :: id == PLANNED + id[|PLANNED|..];
  }

  lemma RenExchanges(created: map<string, string>, id: string)
    ensures Ren(Renaming(created), id) == Exchanged(created, id)
  {
    if IsPlanned(created, id) {
      assert id == PLANNED + id[|PLANNED|..];
    } else if p :| p in created && created[p] == id {
      assert id in created.Values;
    }
  }

  lemma ExchangedOld(created: map<string, string>, id: string)
    requires NewId(created, id)
    ensures Exchanged(created, id) == id
  {
    assert PLANNED <= id ==> id == PLANNED + id[|PLANNED|..];
  }

  lemma ExchangedTwice(created: map<string, string>, id: string)
    requires FreshIds(created)
    ensures Exchanged(created, Exchanged(created, id)) == id
  {
    if IsPlanned(created, id) {
      assert id == PLANNED + id[|PLANNED|..];
      ExchangedCreated(created, id[|PLANNED|..]);
    } else if p :| p in created && created[p] == id {
      ExchangedCreated(created, p);
      ExchangedPlanned(created, p);
    }
  }

  lemma RenamingInjective(created: map<string, string>)
    requires FreshIds(created)
    ensures Injective(Renaming(created))
  {
    forall x, y
      ensures Distinguishes(Renaming(created), x, y)
    {
      RenExchanges(created, x);
      RenExchanges(created, y);
      ExchangedTwice(created, x);
      ExchangedTwice(created, y);
    }
  }

  // Nothing that was there before has a created or a planned id.
  ghost predicate OldIdsKept(env: Env, c: Context) {
    && c.details == map[]
    && (forall k, s | s in At(c.titles, k) || s in At(c.urls, k) ::
          NewId(env.created, s.id) && (s.id in env.vault ==> NewId(env.created, env.vault[s.id].id)))
  }

  lemma {:induction false} RenFixed(r: map<string, string>, list: seq<Summary>)
    requires forall s | s in list :: Ren(r, s.id) == s.id
    ensures RenList(r, list) == list
  {
    if list != [] {
      RenFixed(r, list[1..]);
    }
  }

  lemma OldIdsFixed(env: Env, c: Context, s: Summary, k: string)
    requires OldIdsKept(env, c) && (s in At(c.titles, k) || s in At(c.urls, k))
    ensures Fixed(Renaming(env.created), env.vault, s.id)
  {
    RenExchanges(env.created, s.id);
    ExchangedOld(env.created, s.id);
    if s.id in env.vault {
      RenExchanges(env.created, env.vault[s.id].id);
      ExchangedOld(env.created, env.vault[s.id].id);
    }
  }

  // The preflight's context is the same for both runs.
  lemma SameStart(env: Env, c: Context)
    requires OldIdsKept(env, c)
    ensures Simulates(Renaming(env.created), c, c) && Grounded(Renaming(env.created), env.vault, c)
  {
    var r := Renaming(env.created);
    forall k
      ensures At(c.titles, k) == RenList(r, At(c.titles, k)) && GroundedList(r, env.vault, c.details, At(c.titles, k))
      ensures At(c.urls, k) == RenList(r, At(c.urls, k)) && GroundedList(r, env.vault, c.details, At(c.urls, k))
    {
      forall s | s in At(c.titles, k) || s in At(c.urls, k)
        ensures Fixed(r, env.vault, s.id)
      {
        OldIdsFixed(env, c, s, k);
      }
      RenFixed(r, At(c.titles, k));
      RenFixed(r, At(c.urls, k));
    }
    forall id
      ensures SameDetail(r, c.details, c.details, id)
    {
    }
  }

  // With the same store and vault, templates that can be filled and creations that
  // succeed with fresh ids, the applying run says of every entry what the dry run
  // said: it skips or refuses the same ones and creates exactly the planned ones.
  lemma DryRunPredictsApply(env: Env, c: Context, paths: seq<string>)
    requires FreshIds(env.created) && OldIdsKept(env, c)
    requires forall p | p in paths :: Creatable(env, p)
    ensures var (dry, actual) := (Run(env, false, c, paths).1, Run(env, true, c, paths).1);
            && PathsOf(dry) == paths && PathsOf(actual) == paths
            && forall i | 0 <= i < |paths| :: Predicts(Renaming(env.created), dry[i], actual[i])
  {
    var r := Renaming(env.created);
    RenamingInjective(env.created);
    SameStart(env, c);
    forall p | p in paths && p in env.created
      ensures Ren(r, PLANNED + p) == env.created[p]
    {
      RenExchanges(env.created, PLANNED + p);
      ExchangedPlanned(env.created, p);
    }
    SameRun(r, env, c, c, paths);
    RunCovers(env, false, c, paths);
    RunCovers(env, true, c, paths);
    assert |PathsOf(Run(env, false, c, paths).1)| == |Run(env, false, c, paths).1|;
  }

  // ---- a later run ---------------------------------------------------------------------

  // A listed item whose details, once fetched, are the vault's.
  ghost predicate Known(env: Env, c: Context, s: Summary) {
    && s in At(c.titles, env.norms.title(s.title))
    && s.id in env.vault
    && (s.id in c.details ==> c.details[s.id] == env.vault[s.id])
  }

  lemma {:induction false} PutAllKeepsIds(list: seq<Summary>, more: seq<Summary>, id: string)
    requires HasId(list, id) || HasId(more, id)
    ensures HasId(PutAll(list, more), id)
    decreases |more|
  {
    if more != [] {
      PutKeepsIds(list, more[0], id);
      assert HasId(more, id) ==> more[0].id == id || HasId(more[1..], id);
      PutAllKeepsIds(Put(list, more[0]), more[1..], id);
    }
  }

  lemma {:induction false} PutKeepsIds(list: seq<Summary>, s: Summary, id: string)
    ensures HasId(list, id) || s.id == id ==> HasId(Put(list, s), id)
  {
    if list == [] {
      assert s in Put(list, s);
    } else if list[0].id == s.id {
      assert s in Put(list, s);
      if x :| x in list && x.id == id && x != list[0] {
        assert x in Put(list, s);
      }
    } else {
      PutKeepsIds(list[1..], s, id);
      assert list[0] in Put(list, s);
      assert HasId(list, id) ==> list[0].id == id || HasId(list[1..], id);
      if x :| x in Put(list[1..], s) && x.id == id {
        assert x in Put(list, s);
      }
    }
  }

  lemma {:induction false} DefaultAllKeeps(list: seq<Summary>, more: seq<Summary>, s: Summary)
    requires s in list
    ensures s in DefaultAll(list, more)
    decreases |more|
  {
    if more != [] {
      DefaultAllKeeps(if HasId(list, more[0].id) then list else list + [more[0]], more[1..], s);
    }
  }

  lemma {:induction false} UrlCandidatesKeep(n: Norms, c: Context, urls: seq<string>, list: seq<Summary>, s: Summary)
    requires s in list && UrlCandidates(n, c, urls, list).Some?
    ensures s in UrlCandidates(n, c, urls, list).value
    decreases |urls|
  {
    if urls != [] {
      var more := At(c.urls, n.url(urls[0]).value);
      DefaultAllKeeps(list, more, s);
      UrlCandidatesKeep(n, c, urls[1..], DefaultAll(list, more), s);
    }
  }

  // Fetching gives a needed candidate its details and changes none.
  lemma {:induction false} FetchGives(vault: map<string, Item>, details: map<string, Item>, needed: set<string>,
                                      always: bool, list: seq<Summary>, id: string)
    requires id in needed && (id in details ==> id in vault && details[id] == vault[id])
    ensures var (known, items) := Fetch(vault, details, needed, always, list);
            && (id in known ==> id in vault && known[id] == vault[id])
            && (items.Some? && HasId(list, id) ==> id in vault && vault[id] in items.value)
    decreases |list|
  {
    if list != [] {
      var s, rest := list[0], list[1..];
      assert list == [s] + rest;
      FetchUnrolls(vault, details, needed, always, s, rest);
      var known := FetchOne(vault, details, s.id in needed || always, s.id);
      if known.Some? {
        FetchGives(vault, known.value, needed, always, rest, id);
        assert HasId(list, id) ==> s.id == id || HasId(rest, id);
      }
    }
  }

  lemma {:induction false} FetchKeeps(vault: map<string, Item>, details: map<string, Item>, needed: set<string>,
                                      always: bool, list: seq<Summary>, id: string)
    requires id in details ==> id in vault && details[id] == vault[id]
    ensures var known := Fetch(vault, details, needed, always, list).0;
            id in known ==> id in vault && known[id] == vault[id]
    decreases |list|
  {
    if list != [] {
      var s, rest := list[0], list[1..];
      assert list == [s] + rest;
      FetchUnrolls(vault, details, needed, always, s, rest);
      var known := FetchOne(vault, details, s.id in needed || always, s.id);
      if known.Some? {
        FetchKeeps(vault, known.value, needed, always, rest, id);
      }
    }
  }

  // A known item with the entry's title is among its candidates.
  lemma KnownIsCandidate(env: Env, c: Context, e: Entry, s: Summary)
    requires Known(env, c, s) && env.norms.title(e.title) == env.norms.title(s.title)
    ensures var items := Candidates(env, c, e).1;
            items.Some? ==> env.vault[s.id] in items.value
  {
    var listed := At(c.titles, env.norms.title(e.title));
    assert HasId(listed, s.id);
    PutAllKeepsIds([], listed, s.id);
    var titled := TitleCandidates(env.norms, c, e);
    var all := UrlCandidates(env.norms, c, e.urls, titled);
    if all.Some? {
      var t :| t in titled && t.id == s.id;
      UrlCandidatesKeep(env.norms, c, e.urls, titled, t);
      FetchGives(env.vault, c.details, Ids(titled), e.usernames != [], all.value, s.id);
    }
  }

  lemma KnownStep(env: Env, apply: bool, c: Context, path: string, s: Summary)
    requires Known(env, c, s)
    requires forall p :: s.id != PLANNED + p
    requires forall p | p in env.created :: env.created[p] != s.id
    ensures Known(env, Processed(env, apply, c, path).0, s)
  {
    if path in env.entries {
      var e := env.entries[path].(path := path);
      var titled := TitleCandidates(env.norms, c, e);
      var all := UrlCandidates(env.norms, c, e.urls, titled);
      if all.Some? {
        FetchKeeps(env.vault, c.details, Ids(titled), e.usernames != [], all.value, s.id);
      }
    }
  }

  // An entry whose created item a later run's vault still lists is never planned
  // or created again, whatever else that run meets.
  lemma {:induction false} CreatedIsNeverRecreated(env: Env, apply: bool, c: Context, paths: seq<string>, s: Summary,
                                                   path: string)
    requires Known(env, c, s)
    requires forall p :: s.id != PLANNED + p
    requires forall p | p in env.created :: env.created[p] != s.id
    requires path in env.entries ==>
               var e := env.entries[path].(path := path);
               s.title == e.title && Covers(SourceAsExisting(e, s.id), env.vault[s.id])
    ensures forall i | 0 <= i < |paths| && paths[i] == path ::
              i < |Run(env, apply, c, paths).1|
              && !Run(env, apply, c, paths).1[i].Create? && !Run(env, apply, c, paths).1[i].Created?
    decreases |paths|
  {
    if paths != [] {
      KnownStep(env, apply, c, paths[0], s);
      CreatedIsNeverRecreated(env, apply, Processed(env, apply, c, paths[0]).0, paths[1..], s, path);
      if paths[0] == path && path in env.entries {
        var e := env.entries[path].(path := path);
        KnownIsCandidate(env, c, e, s);
        var items := Candidates(env, c, e).1;
        if items.Some? {
          assert HasPath(env.norms, e, env.vault[s.id]);
          assert env.vault[s.id].id in PathMatches(env.norms, e, items.value);
        }
      }
    }
  }
}

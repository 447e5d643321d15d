// A second migration over the vault the first one filled.
module MigrationReruns {
  import opened Wrappers
  import opened PassItems
  import opened Migration
  import opened MigrationRuns
  import opened MigrationIndex

  const EMPTY := Context(map[], map[], map[])

  // What `op item list` shows of a created item: its website URLs, not the URLs
  // kept in custom fields.
  function ListedAs(id: string, p: Payload): Summary {
    Summary(id, p.title, NonEmpty(p.urls))
  }

  // ---- what was created is found --------------------------------------------------

  lemma {:induction false} IndexedKeepsTitles(n: Norms, c: Context, list: seq<Summary>, k: string, s: Summary)
    requires Indexed(n, c, list).Some? && s in At(c.titles, k)
    ensures s in At(Indexed(n, c, list).value.titles, k)
    decreases |list|
  {
    if list != [] {
      IndexedKeepsTitles(n, Listed(n, c, list[0]), list[1..], k, s);
    }
  }

  lemma {:induction false} IndexedHolds(n: Norms, c: Context, list: seq<Summary>, s: Summary)
    requires Indexed(n, c, list).Some? && s in list
    ensures s in At(Indexed(n, c, list).value.titles, n.title(s.title))
    ensures Indexed(n, c, list).value.details == c.details
    decreases |list|
  {
    var next := Listed(n, c, list[0]);
    if list[0] == s {
      assert s in At(next.titles, n.title(s.title));
      IndexedKeepsTitles(n, next, list[1..], n.title(s.title), s);
    }
    if s in list[1..] {
      IndexedHolds(n, next, list[1..], s);
    } else {
      IndexedDetails(n, next, list[1..]);
    }
  }

  lemma {:induction false} IndexedDetails(n: Norms, c: Context, list: seq<Summary>)
    requires Indexed(n, c, list).Some?
    ensures Indexed(n, c, list).value.details == c.details
    decreases |list|
  {
    if list != [] {
      IndexedDetails(n, Listed(n, c, list[0]), list[1..]);
    }
  }

  // An entry created once, whose item the vault still lists and holds as it was
  // sent, is neither planned nor created by any later run, in either mode.
  lemma CreatedStaysCreated(env: Env, apply: bool, list: seq<Summary>, c: Context, paths: seq<string>,
                            path: string, first: Env, id: string)
    requires path in env.entries && path in first.entries && first.norms == env.norms && OwnNamesNormal(env.norms)
    requires var e := env.entries[path].(path := path);
             && WellParsed(env.norms, e) && first.entries[path].(path := path) == e
             && PayloadFor(first, e).Some?
             && (forall f | f in first.templates[e.category].fields && f.id == "username" :: !f.kind.Concealed?)
             && var p := PayloadFor(first, e).value;
                ListedAs(id, p) in list && id in env.vault && env.vault[id] == ExistingItem(env.norms, id, p)
    requires Indexed(env.norms, EMPTY, list) == Some(c)
    requires forall p :: id != PLANNED + p
    requires forall p | p in env.created :: env.created[p] != id
    ensures forall i | 0 <= i < |paths| && paths[i] == path ::
              i < |Run(env, apply, c, paths).1|
              && !Run(env, apply, c, paths).1[i].Create? && !Run(env, apply, c, paths).1[i].Created?
  {
    var e := env.entries[path].(path := path);
    var s := ListedAs(id, PayloadFor(first, e).value);
    CreatedItemCovers(env.norms, first.templates[e.category], e, id);
    IndexedHolds(env.norms, EMPTY, list, s);
    CreatedIsNeverRecreated(env, apply, c, paths, s, path);
  }

  // ---- what was skipped may be created -----------------------------------------------

  const PLAIN := Norms(s => s, s => s, s => s, s => Some(s), s => Some(s))

  const API := Entry("api", "api", ApiCredential, "s", [], ["u"], [], [], "")
  const SITE := Entry("b", "b", Category.Login, "s", [], ["u"], [], [], "")

  // Both are what the classifier makes of their titles and URLs.
  lemma ClassifiedSo()
    ensures WellParsed(PLAIN, API) && WellParsed(PLAIN, SITE)
  {
    assert MarkerAt("api", "api", 0) && "api" in API_MARKERS;
    forall marker | marker in API_MARKERS
      ensures !HasMarker("b", marker)
    {
      assert |marker| >= 3;
    }
  }

  function Blank(id: string): Field {
    Field(id, Text, id, "", false)
  }

  const TEMPLATE :=
    Payload("", [], [], [Blank("credential"), Blank("notesPlain"), Blank("hostname"), Blank("password")])

  function FirstRun(): Env {
    Env(PLAIN, map["api" := API, "b" := SITE], map[],
        map[ApiCredential := TEMPLATE, Category.Login := TEMPLATE], map["api" := "1", "b" := "2"])
  }

  function SecondRun(item: Payload): Env {
    FirstRun().(vault := map["1" := ExistingItem(PLAIN, "1", item)], created := map["b" := "2"])
  }

  lemma ApiPayload() returns (p: Payload)
    ensures BuildPayload(PLAIN, TEMPLATE, API) == Some(p)
    ensures p.title == "api" && p.urls == []
  {
    BuildSucceeds(PLAIN, TEMPLATE, API);
    assert TEMPLATE.fields[0].id == "credential" && TEMPLATE.fields[1].id == "notesPlain"
           && TEMPLATE.fields[2].id == "hostname";
    p := BuildPayload(PLAIN, TEMPLATE, API).value;
  }

  lemma SitePayload()
    ensures BuildPayload(PLAIN, TEMPLATE, SITE).Some?
  {
    BuildSucceeds(PLAIN, TEMPLATE, SITE);
    assert TEMPLATE.fields[1].id == "notesPlain" && TEMPLATE.fields[3].id == "password";
  }

  const LISTED := Summary("1", "api", ["u"])
  const AFTER_API := Context(map["api" := [LISTED]], map["u" := [LISTED]], map["1" := SourceAsExisting(API, "1")])

  lemma Plain(x: string)
    ensures PLAIN.title(x) == x && PLAIN.url(x) == Some(x)
  {
  }

  lemma NothingMatches(e: Entry)
    ensures MatchExisting(PLAIN, e, []) == Some({})
  {
    forall u | u in e.urls
      ensures PLAIN.url(u).Some?
    {
      Plain(u);
    }
    assert PathMatches(PLAIN, e, []) == {} && IdentifierMatches(PLAIN, e, []) == {};
  }

  lemma ApiIsCreated()
    ensures Processed(FirstRun(), true, EMPTY, "api") == (AFTER_API, Created("api", "1"))
  {
    var env := FirstRun();
    var p := ApiPayload();
    Plain("api");
    Plain("u");
    assert ["u"][1..] == [] && [] + [LISTED] == [LISTED];
    assert AddUrls(PLAIN, map[], [], LISTED) == map[];
    assert AddUrls(PLAIN, map[], ["u"], LISTED) == map["u" := [LISTED]];
    assert TitleCandidates(PLAIN, EMPTY, API) == [];
    assert UrlCandidates(PLAIN, EMPTY, ["u"], []) == Some([]);
    assert Candidates(env, EMPTY, API) == (EMPTY, Some([]));
    NothingMatches(API);
    assert Added(PLAIN, EMPTY, API, "1") == AFTER_API;
  }

  lemma SiteIsSkipped()
    ensures Processed(FirstRun(), true, AFTER_API, "b").1 == Skip("b", {"1"})
  {
    var env := FirstRun();
    Plain("api");
    Plain("b");
    Plain("u");
    assert TitleCandidates(PLAIN, AFTER_API, SITE) == [];
    assert ["u"][1..] == [] && [LISTED][1..] == [] && [] + [LISTED] == [LISTED];
    assert DefaultAll([], [LISTED]) == [LISTED];
    assert UrlCandidates(PLAIN, AFTER_API, ["u"], []) == Some([LISTED]);
    var item := SourceAsExisting(API, "1");
    assert ItemOf(AFTER_API.details, LISTED) == item && [item] + [] == [item];
    assert Fetch(map[], AFTER_API.details, {}, false, []) == (AFTER_API.details, Some([]));
    assert Fetch(map[], AFTER_API.details, {}, false, [LISTED]) == (AFTER_API.details, Some([item]));
    assert Ids([]) == {};
    assert Candidates(env, AFTER_API, SITE) == (AFTER_API, Some([item]));
    assert "u" in SITE.urls && "u" in item.urls;
    assert SharesUrl(PLAIN, SITE, item);
    assert !SameTitle(PLAIN, SITE, item);
    assert PathMatches(PLAIN, SITE, [item]) == {};
    assert IdentifierMatches(PLAIN, SITE, [item]) == {"1"};
  }

  lemma TwoSteps(env: Env, c: Context, mid: Context, first: Line)
    requires Processed(env, true, c, "api") == (mid, first)
    ensures Run(env, true, c, ["api", "b"]).1 == [first, Processed(env, true, mid, "b").1]
  {
    assert ["api", "b"][1..] == ["b"] && ["b"][1..] == [];
  }

  const SHOWN := Summary("1", "api", [])
  const LISTING := Context(map["api" := [SHOWN]], map[], map[])

  lemma ApiIsCandidate(env: Env, item: Item)
    requires env.norms == PLAIN && env.vault == map["1" := item]
    ensures Candidates(env, LISTING, API) == (LISTING.(details := map["1" := item]), Some([item]))
  {
    var known := map["1" := item];
    Plain("api");
    Plain("u");
    assert [SHOWN][1..] == [] && ["u"][1..] == [] && [item] + [] == [item];
    assert PutAll([SHOWN], []) == [SHOWN];
    assert TitleCandidates(PLAIN, LISTING, API) == [SHOWN];
    assert UrlCandidates(PLAIN, LISTING, ["u"], [SHOWN]) == Some([SHOWN]);
    assert SHOWN in [SHOWN] && "1" in Ids([SHOWN]);
    assert FetchOne(env.vault, map[], true, "1") == Some(known);
    assert Fetch(env.vault, known, Ids([SHOWN]), false, []) == (known, Some([]));
    assert Fetch(env.vault, map[], Ids([SHOWN]), false, [SHOWN]) == (known, Some([item]));
  }

  lemma ApiIsFound(env: Env, item: Item)
    requires env.norms == PLAIN && env.vault == map["1" := item] && Lookup(env.entries, "api") == Some(API)
    requires item.id == "1" && item.title == "api" && "api" in item.paths
    ensures Processed(env, true, LISTING, "api") == (LISTING.(details := map["1" := item]), Skip("api", {"1"}))
  {
    ApiIsCandidate(env, item);
    assert HasPath(PLAIN, API, item) && item in [item];
    assert PathMatches(PLAIN, API, [item]) == {"1"};
  }

  // The second listing mirrors the vault as far as it goes: it leaves the URL out.
  lemma ListingMirrors(env: Env, c: Context, item: Item)
    requires env.norms == PLAIN && env.vault == map["1" := item] && item.id == "1" && item.title == "api"
    requires c == LISTING.(details := map["1" := item])
    ensures Mirrors(env, c, [SHOWN])
  {
    Plain("api");
    assert Keys(PLAIN, []) == {};
    assert SHOWN in [SHOWN] && Agrees(env, c, SHOWN);
  }

  // "b" would match the item in full, but it has another title and the listing shows
  // no URL of it.
  lemma SiteIsMissed(env: Env, c: Context, item: Item)
    requires env.norms == PLAIN && env.vault == map["1" := item] && item.id == "1" && item.title == "api"
    requires env.templates == FirstRun().templates && Lookup(env.entries, "b") == Some(SITE)
             && Lookup(env.created, "b") == Some("2")
    requires c == LISTING.(details := map["1" := item])
    ensures Processed(env, true, c, "b").1 == Created("b", "2")
  {
    ListingMirrors(env, c, item);
    Plain("api");
    Plain("b");
    assert !IsCandidate(PLAIN, SITE, SHOWN);
    forall u | u in SITE.urls
      ensures PLAIN.url(u).Some?
    {
      Plain(u);
    }
    SitePayload();
    CreatesExactly(env, true, c, [SHOWN], "b");
    assert FindsNothing(env, c, [SHOWN], "b");
  }

  lemma SecondListing(p: Payload)
    requires p.title == "api" && p.urls == []
    ensures Indexed(PLAIN, EMPTY, [ListedAs("1", p)]) == Some(LISTING)
  {
    Plain("api");
    assert ListedAs("1", p) == SHOWN;
    assert [SHOWN][1..] == [] && [] + [SHOWN] == [SHOWN];
    assert AddUrls(PLAIN, map[], [], SHOWN) == map[];
    assert Listed(PLAIN, EMPTY, SHOWN) == LISTING;
    assert Indexed(PLAIN, LISTING, []) == Some(LISTING);
  }

  lemma SecondRunCreates(env: Env, item: Item)
    requires env.norms == PLAIN && env.vault == map["1" := item] && env.templates == FirstRun().templates
    requires Lookup(env.entries, "api") == Some(API) && Lookup(env.entries, "b") == Some(SITE)
    requires Lookup(env.created, "b") == Some("2")
    requires item.id == "1" && item.title == "api" && "api" in item.paths
    ensures Run(env, true, LISTING, ["api", "b"]).1 == [Skip("api", {"1"}), Created("b", "2")]
  {
    var known := LISTING.(details := map["1" := item]);
    ApiIsFound(env, item);
    SiteIsMissed(env, known, item);
    TwoSteps(env, LISTING, known, Skip("api", {"1"}));
  }

  lemma FirstRunCreates()
    ensures Run(FirstRun(), true, EMPTY, ["api", "b"]).1 == [Created("api", "1"), Skip("b", {"1"})]
  {
    ApiIsCreated();
    SiteIsSkipped();
    TwoSteps(FirstRun(), EMPTY, AFTER_API, Created("api", "1"));
  }

  lemma ApiReadBack(p: Payload)
    requires BuildPayload(PLAIN, TEMPLATE, API) == Some(p)
    ensures var item := ExistingItem(PLAIN, "1", p); item.id == "1" && item.title == "api" && "api" in item.paths
  {
    ClassifiedSo();
    CreatedItemCovers(PLAIN, TEMPLATE, API, "1");
    assert "api" in SourceAsExisting(API, "1").paths;
  }

  // The first run creates "api", an API credential by its title, and skips "b", which
  // shares its URL. The second creates "b": the vault keeps the credential's URL in a
  // custom field, its listing does not show it, and so the URL index leads nowhere.
  lemma SkippedIsCreatedExample() returns (p: Payload)
    ensures WellParsed(PLAIN, API) && WellParsed(PLAIN, SITE)
    ensures Run(FirstRun(), true, EMPTY, ["api", "b"]).1 == [Created("api", "1"), Skip("b", {"1"})]
    ensures BuildPayload(PLAIN, TEMPLATE, API) == Some(p)
    ensures Indexed(PLAIN, EMPTY, [ListedAs("1", p)]) == Some(LISTING)
    ensures Run(SecondRun(p), true, LISTING, ["api", "b"]).1 == [Skip("api", {"1"}), Created("b", "2")]
  {
    ClassifiedSo();
    FirstRunCreates();
    p := ApiPayload();
    SecondListing(p);
    ApiReadBack(p);
    SecondRunCreates(SecondRun(p), ExistingItem(PLAIN, "1", p));
  }
}

// The planner's two indexes against matching an entry with every known item.
module MigrationIndex {
  import opened Wrappers
  import opened PassItems
  import opened Migration

  // The details an item has, fetched or still in the vault.
  function Detail(env: Env, c: Context, id: string): Option<Item> {
    if id in c.details then Some(c.details[id]) else Lookup(env.vault, id)
  }

  function Keys(n: Norms, urls: seq<string>): set<Option<string>> {
    set u | u in urls :: n.url(u)
  }

  // The item can be read, has the listed title and, up to normalisation, the
  // listed URLs. It may have others: an API credential keeps its URLs where the
  // listing does not show them.
  predicate Agrees(env: Env, c: Context, s: Summary) {
    match Detail(env, c, s.id)
    case None => false
    case Some(item) => item.id == s.id && item.title == s.title && Keys(env.norms, s.urls) <= Keys(env.norms, item.urls)
  }

  // The listing shows all of the item's URLs.
  predicate TellsUrls(env: Env, c: Context, s: Summary) {
    match Detail(env, c, s.id)
    case None => false
    case Some(item) => Keys(env.norms, item.urls) <= Keys(env.norms, s.urls)
  }

  ghost predicate AllTellUrls(env: Env, c: Context, known: seq<Summary>) {
    forall s | s in known :: TellsUrls(env, c, s)
  }

  ghost predicate UniqueIds(known: seq<Summary>) {
    forall s, t | s in known && t in known && s.id == t.id :: s == t
  }

  predicate UnderUrl(n: Norms, s: Summary, k: string) {
    Some(k) in Keys(n, s.urls)
  }

  // `known` is everything listed and added; the indexes hold exactly it.
  ghost predicate Mirrors(env: Env, c: Context, known: seq<Summary>) {
    && UniqueIds(known)
    && (forall s | s in known :: Agrees(env, c, s) && AllUrlsParse(env.norms, s.urls))
    && (forall k, s :: s in At(c.titles, k) <==> s in known && env.norms.title(s.title) == k)
    && (forall k, s :: s in At(c.urls, k) <==> s in known && UnderUrl(env.norms, s, k))
  }

  function AllItems(env: Env, c: Context, known: seq<Summary>): (items: seq<Item>)
    requires forall s | s in known :: Detail(env, c, s.id).Some?
  {
    seq(|known|, i requires 0 <= i < |known| => Detail(env, c, known[i].id).value)
  }

  // ---- the candidates -------------------------------------------------------------

  lemma {:induction false} PutElements(list: seq<Summary>, s: Summary)
    requires UniqueIds(list + [s])
    ensures forall x :: x in Put(list, s) <==> x in list || x == s
  {
    if list != [] {
      assert forall x | x in list || x == s :: x in list + [s];
      if list[0].id != s.id {
        assert forall x | x in list[1..] + [s] :: x in list + [s];
        PutElements(list[1..], s);
      }
    }
  }

  lemma {:induction false} PutAllElements(list: seq<Summary>, more: seq<Summary>)
    requires UniqueIds(list + more)
    ensures forall x :: x in PutAll(list, more) <==> x in list || x in more
    decreases |more|
  {
    if more != [] {
      assert forall x | x in list + [more[0]] :: x in list + more;
      PutElements(list, more[0]);
      var put := Put(list, more[0]);
      assert forall x | x in put + more[1..] :: x in list + more;
      PutAllElements(put, more[1..]);
    }
  }

  lemma {:induction false} DefaultAllElements(list: seq<Summary>, more: seq<Summary>)
    requires UniqueIds(list + more)
    ensures forall x :: x in DefaultAll(list, more) <==> x in list || x in more
    decreases |more|
  {
    if more != [] {
      var next := if HasId(list, more[0].id) then list else list + [more[0]];
      assert forall x | x in list || x in more :: x in list + more;
      assert forall x | x in next + more[1..] :: x in list + more;
      DefaultAllElements(next, more[1..]);
    }
  }

  predicate ListedUnder(n: Norms, urls: seq<string>, s: Summary) {
    exists u | u in urls :: n.url(u) in Keys(n, s.urls)
  }

  lemma ListedUnderFirst(n: Norms, urls: seq<string>, s: Summary)
    requires urls != []
    ensures ListedUnder(n, urls, s) <==> n.url(urls[0]) in Keys(n, s.urls) || ListedUnder(n, urls[1..], s)
  {
    assert forall u | u in urls :: u == urls[0] || u in urls[1..];
    assert urls[0] in urls;
    assert forall u | u in urls[1..] :: u in urls;
  }

  predicate CandidateElement(n: Norms, urls: seq<string>, list: seq<Summary>, known: seq<Summary>, s: Summary) {
    s in list || (s in known && ListedUnder(n, urls, s))
  }

  lemma {:induction false} UrlCandidateElements(env: Env, c: Context, known: seq<Summary>, urls: seq<string>,
                                                list: seq<Summary>)
    requires Mirrors(env, c, known) && forall s | s in list :: s in known
    ensures UrlCandidates(env.norms, c, urls, list).Some? <==> AllUrlsParse(env.norms, urls)
    ensures UrlCandidates(env.norms, c, urls, list).Some? ==>
              forall s :: s in UrlCandidates(env.norms, c, urls, list).value
                          <==> CandidateElement(env.norms, urls, list, known, s)
    decreases |urls|
  {
    var n := env.norms;
    if urls != [] {
      assert urls[0] in urls && forall u | u in urls :: u == urls[0] || u in urls[1..];
      var k := n.url(urls[0]);
      if k.Some? {
        var more := At(c.urls, k.value);
        assert forall s | s in list + more :: s in known;
        DefaultAllElements(list, more);
        var next := DefaultAll(list, more);
        UrlCandidateElements(env, c, known, urls[1..], next);
        forall s: Summary
          ensures CandidateElement(n, urls, list, known, s) <==> CandidateElement(n, urls[1..], next, known, s)
        {
          ListedUnderFirst(n, urls, s);
          assert s in more <==> s in known && UnderUrl(n, s, k.value);
        }
      }
    }
  }

  // ---- what is fetched ----------------------------------------------------------------

  // What matching sees of a candidate.
  function View(env: Env, c: Context, wanted: bool, s: Summary): Option<Item> {
    if wanted || s.id in c.details then Detail(env, c, s.id) else Some(Bare(s))
  }

  predicate Viewed(env: Env, c: Context, needed: set<string>, always: bool, list: seq<Summary>, item: Item) {
    exists s | s in list :: View(env, c, s.id in needed || always, s) == Some(item)
  }

  lemma FetchOneViews(env: Env, c: Context, wanted: bool, s: Summary)
    ensures var known := FetchOne(env.vault, c.details, wanted, s.id);
            && (known.Some? ==> View(env, c, wanted, s) == Some(ItemOf(known.value, s)))
            && (known.Some? ==> forall id :: Detail(env, c.(details := known.value), id) == Detail(env, c, id))
            && (known.Some? ==> forall id | id in known.value :: id in c.details || (wanted && id == s.id))
            && (known.Some? ==> c.details.Keys <= known.value.Keys)
  {
  }

  lemma {:induction false} FetchViews(env: Env, c: Context, needed: set<string>, always: bool, list: seq<Summary>)
    ensures var (known, items) := Fetch(env.vault, c.details, needed, always, list);
            && (forall id :: Detail(env, c.(details := known), id) == Detail(env, c, id))
            && (items.Some? ==> forall item :: item in items.value <==> Viewed(env, c, needed, always, list, item))
    decreases |list|
  {
    if list != [] {
      var s, rest := list[0], list[1..];
      var wanted := s.id in needed || always;
      FetchOneViews(env, c, wanted, s);
      var known := FetchOne(env.vault, c.details, wanted, s.id);
      if known.Some? {
        var next := c.(details := known.value);
        FetchViews(env, next, needed, always, rest);
        forall t | t in rest
          ensures View(env, next, t.id in needed || always, t) == View(env, c, t.id in needed || always, t)
        {
        }
        assert forall t | t in list :: t == s || t in rest;
        forall item: Item
          ensures Viewed(env, c, needed, always, list, item)
             <==> item == ItemOf(known.value, s) || Viewed(env, next, needed, always, rest, item)
        {
        }
      }
    }
  }

  // ---- candidates suffice -------------------------------------------------------------

  lemma TitledElements(env: Env, c: Context, known: seq<Summary>, e: Entry)
    requires Mirrors(env, c, known)
    ensures forall s :: s in TitleCandidates(env.norms, c, e)
                        <==> s in known && env.norms.title(s.title) == env.norms.title(e.title)
  {
    var listed := At(c.titles, env.norms.title(e.title));
    assert forall s | s in [] + listed :: s in known;
    PutAllElements([], listed);
  }

  lemma ListedUrlIsShared(n: Norms, e: Entry, s: Summary, item: Item)
    requires Keys(n, s.urls) <= Keys(n, item.urls) && ListedUnder(n, e.urls, s)
    ensures SharesUrl(n, e, item)
  {
    var u :| u in e.urls && n.url(u) in Keys(n, s.urls);
    assert n.url(u) in Keys(n, item.urls);
  }

  lemma SharedUrlIsListed(n: Norms, e: Entry, s: Summary, item: Item)
    requires Keys(n, item.urls) <= Keys(n, s.urls) && SharesUrl(n, e, item)
    ensures ListedUnder(n, e.urls, s)
  {
    var u, v :| u in e.urls && v in item.urls && n.url(u) == n.url(v);
    assert n.url(u) in Keys(n, item.urls);
  }

  predicate Titled(n: Norms, e: Entry, s: Summary) {
    n.title(s.title) == n.title(e.title)
  }

  predicate IsCandidate(n: Norms, e: Entry, s: Summary) {
    Titled(n, e, s) || ListedUnder(n, e.urls, s)
  }

  // What matching the entry sees of a known item.
  function Seen(env: Env, c: Context, e: Entry, s: Summary): Option<Item> {
    View(env, c, Titled(env.norms, e, s) || e.usernames != [], s)
  }

  predicate Shown(env: Env, c: Context, known: seq<Summary>, e: Entry, item: Item) {
    exists s | s in known :: IsCandidate(env.norms, e, s) && Seen(env, c, e, s) == Some(item)
  }

  predicate Matches(n: Norms, e: Entry, item: Item) {
    HasPath(n, e, item) || Identifies(n, e, item)
  }

  lemma CandidateSummariesAre(env: Env, c: Context, known: seq<Summary>, e: Entry)
    requires Mirrors(env, c, known)
    ensures var titled := TitleCandidates(env.norms, c, e);
            var all := UrlCandidates(env.norms, c, e.urls, titled);
            && (all.Some? <==> AllUrlsParse(env.norms, e.urls))
            && (forall s | s in known :: s.id in Ids(titled) <==> Titled(env.norms, e, s))
            && (all.Some? ==> forall s :: s in all.value <==> s in known && IsCandidate(env.norms, e, s))
  {
    TitledElements(env, c, known, e);
    var titled := TitleCandidates(env.norms, c, e);
    UrlCandidateElements(env, c, known, e.urls, titled);
    forall s | s in known
      ensures s.id in Ids(titled) <==> Titled(env.norms, e, s)
    {
      if t :| t in titled && t.id == s.id {
        assert t in known;
      }
      assert s in titled ==> s.id in Ids(titled);
    }
    forall s: Summary
      ensures CandidateElement(env.norms, e.urls, titled, known, s) <==> s in known && IsCandidate(env.norms, e, s)
    {
    }
  }

  lemma SameView(env: Env, c: Context, known: seq<Summary>, all: seq<Summary>, needed: set<string>, e: Entry,
                 item: Item)
    requires forall s | s in known :: s.id in needed <==> Titled(env.norms, e, s)
    requires forall s :: s in all <==> s in known && IsCandidate(env.norms, e, s)
    ensures Viewed(env, c, needed, e.usernames != [], all, item) <==> Shown(env, c, known, e, item)
  {
    if s :| s in all && View(env, c, s.id in needed || e.usernames != [], s) == Some(item) {
      assert s in known && Seen(env, c, e, s) == Some(item);
    }
    if s :| s in known && IsCandidate(env.norms, e, s) && Seen(env, c, e, s) == Some(item) {
      assert s in all;
    }
  }

  // The candidate items are the known summaries the indexes lead to.
  lemma CandidateItemsAre(env: Env, c: Context, known: seq<Summary>, e: Entry)
    requires Mirrors(env, c, known) && Candidates(env, c, e).1.Some?
    ensures AllUrlsParse(env.norms, e.urls)
    ensures forall item :: item in Candidates(env, c, e).1.value <==> Shown(env, c, known, e, item)
  {
    CandidateSummariesAre(env, c, known, e);
    var titled := TitleCandidates(env.norms, c, e);
    var all := UrlCandidates(env.norms, c, e.urls, titled).value;
    FetchViews(env, c, Ids(titled), e.usernames != [], all);
    forall item: Item
      ensures Viewed(env, c, Ids(titled), e.usernames != [], all, item) <==> Shown(env, c, known, e, item)
    {
      SameView(env, c, known, all, Ids(titled), e, item);
    }
  }

  // ---- what matching finds ----------------------------------------------------------

  // A candidate is either seen whole, or only by its listing; that happens when a
  // listed URL is all there is to compare, and then it matches either way.
  lemma SeenMatches(env: Env, c: Context, known: seq<Summary>, e: Entry, s: Summary)
    requires Mirrors(env, c, known) && s in known && IsCandidate(env.norms, e, s)
    ensures Seen(env, c, e, s).Some? && Detail(env, c, s.id).Some?
    ensures var (item, full) := (Seen(env, c, e, s).value, Detail(env, c, s.id).value);
            && item.id == full.id == s.id
            && (HasPath(env.norms, e, item) <==> HasPath(env.norms, e, full))
            && (Identifies(env.norms, e, item) <==> Identifies(env.norms, e, full))
  {
    assert Agrees(env, c, s);
    var item, full := Seen(env, c, e, s).value, Detail(env, c, s.id).value;
    if item != full {
      ListedUrlIsShared(env.norms, e, s, item);
      ListedUrlIsShared(env.norms, e, s, full);
    }
  }

  // Every URL the comparison looks at can be parsed.
  ghost predicate Readable(env: Env, c: Context, known: seq<Summary>, e: Entry) {
    e.urls != [] ==>
      forall s | s in known && IsCandidate(env.norms, e, s) && Seen(env, c, e, s).Some? ::
        AllUrlsParse(env.norms, Seen(env, c, e, s).value.urls)
  }

  // What matching with all details would find, no index leads to.
  ghost predicate Overlooked(env: Env, c: Context, known: seq<Summary>, e: Entry) {
    forall s | s in known && Detail(env, c, s.id).Some? && Matches(env.norms, e, Detail(env, c, s.id).value) ::
      !IsCandidate(env.norms, e, s)
  }

  lemma ReadableItems(env: Env, c: Context, known: seq<Summary>, e: Entry, items: seq<Item>)
    requires forall item :: item in items <==> Shown(env, c, known, e, item)
    ensures Readable(env, c, known, e)
       <==> (e.urls != [] ==> forall item | item in items :: AllUrlsParse(env.norms, item.urls))
  {
    forall s | s in known && IsCandidate(env.norms, e, s) && Seen(env, c, e, s).Some?
      ensures Seen(env, c, e, s).value in items
    {
      assert Shown(env, c, known, e, Seen(env, c, e, s).value);
    }
    forall item | item in items
      ensures exists s :: s in known && IsCandidate(env.norms, e, s) && Seen(env, c, e, s) == Some(item)
    {
      assert Shown(env, c, known, e, item);
    }
  }

  lemma OverlookedItems(env: Env, c: Context, known: seq<Summary>, e: Entry, items: seq<Item>)
    requires Mirrors(env, c, known)
    requires forall item :: item in items <==> Shown(env, c, known, e, item)
    ensures Overlooked(env, c, known, e) <==> forall item | item in items :: !Matches(env.norms, e, item)
  {
    forall item | item in items && Matches(env.norms, e, item)
      ensures !Overlooked(env, c, known, e)
    {
      assert Shown(env, c, known, e, item);
      var s :| s in known && IsCandidate(env.norms, e, s) && Seen(env, c, e, s) == Some(item);
      SeenMatches(env, c, known, e, s);
    }
    if !Overlooked(env, c, known, e) {
      var s :| s in known && Detail(env, c, s.id).Some? && Matches(env.norms, e, Detail(env, c, s.id).value)
               && IsCandidate(env.norms, e, s);
      SeenMatches(env, c, known, e, s);
      assert Shown(env, c, known, e, Seen(env, c, e, s).value);
    }
  }

  lemma NoneMatches(n: Norms, e: Entry, items: seq<Item>)
    requires AllUrlsParse(n, e.urls)
    ensures MatchExisting(n, e, items) == Some({})
       <==> (forall item | item in items :: !Matches(n, e, item))
            && (e.urls != [] ==> forall item | item in items :: AllUrlsParse(n, item.urls))
  {
    forall item | item in items && HasPath(n, e, item)
      ensures item.id in PathMatches(n, e, items)
    {
    }
    forall item | item in items && Identifies(n, e, item)
      ensures item.id in IdentifierMatches(n, e, items)
    {
    }
    if PathMatches(n, e, items) != {} {
      var id :| id in PathMatches(n, e, items);
      assert exists item :: item in items && HasPath(n, e, item);
    }
    if IdentifierMatches(n, e, items) != {} {
      var id :| id in IdentifierMatches(n, e, items);
      assert exists item :: item in items && Identifies(n, e, item);
    }
  }

  // Matching finds nothing exactly when every known item that would match in full
  // is overlooked: it has another title and its listing shows none of the entry's
  // URLs.
  lemma UnmatchedExactly(env: Env, c: Context, known: seq<Summary>, e: Entry)
    requires Mirrors(env, c, known) && Candidates(env, c, e).1.Some?
    ensures MatchExisting(env.norms, e, Candidates(env, c, e).1.value) == Some({})
       <==> Overlooked(env, c, known, e) && Readable(env, c, known, e)
  {
    var items := Candidates(env, c, e).1.value;
    CandidateItemsAre(env, c, known, e);
    ReadableItems(env, c, known, e, items);
    OverlookedItems(env, c, known, e, items);
    NoneMatches(env.norms, e, items);
  }

  // Known items can be read, so looking candidates up fails only on the entry's own
  // URLs.
  lemma {:induction false} FetchSucceeds(vault: map<string, Item>, details: map<string, Item>, needed: set<string>,
                                         always: bool, list: seq<Summary>)
    requires forall s | s in list :: s.id in details || s.id in vault
    ensures Fetch(vault, details, needed, always, list).1.Some?
    decreases |list|
  {
    if list != [] {
      var s, rest := list[0], list[1..];
      assert list == [s] + rest;
      FetchUnrolls(vault, details, needed, always, s, rest);
      FetchSucceeds(vault, FetchOne(vault, details, s.id in needed || always, s.id).value, needed, always, rest);
    }
  }

  lemma CandidatesFound(env: Env, c: Context, known: seq<Summary>, e: Entry)
    requires Mirrors(env, c, known)
    ensures Candidates(env, c, e).1.Some? <==> AllUrlsParse(env.norms, e.urls)
  {
    CandidateSummariesAre(env, c, known, e);
    var titled := TitleCandidates(env.norms, c, e);
    var all := UrlCandidates(env.norms, c, e.urls, titled);
    if all.Some? {
      forall s | s in all.value
        ensures s.id in c.details || s.id in env.vault
      {
        assert Agrees(env, c, s);
      }
      FetchSucceeds(env.vault, c.details, Ids(titled), e.usernames != [], all.value);
    }
  }

  // The entry of a path finds nothing.
  ghost predicate FindsNothing(env: Env, c: Context, known: seq<Summary>, path: string) {
    && path in env.entries
    && var e := env.entries[path].(path := path);
       AllUrlsParse(env.norms, e.urls) && Overlooked(env, c, known, e) && Readable(env, c, known, e)
  }

  // A path is planned, or on applying created, exactly when its entry finds nothing
  // and, on applying, it can be built and created.
  lemma CreatesExactly(env: Env, apply: bool, c: Context, known: seq<Summary>, path: string)
    requires Mirrors(env, c, known)
    ensures var line := Processed(env, apply, c, path).1;
            && (line.Create? <==> !apply && FindsNothing(env, c, known, path))
            && (line.Created? <==>
                  && apply && FindsNothing(env, c, known, path)
                  && PayloadFor(env, env.entries[path].(path := path)).Some? && path in env.created)
  {
    if path in env.entries {
      var e := env.entries[path].(path := path);
      CandidatesFound(env, c, known, e);
      if Candidates(env, c, e).1.Some? {
        UnmatchedExactly(env, c, known, e);
      }
    }
  }

  predicate SameForMatching(n: Norms, e: Entry, a: Item, b: Item) {
    a.id == b.id && (HasPath(n, e, a) <==> HasPath(n, e, b)) && (Identifies(n, e, a) <==> Identifies(n, e, b))
  }

  // Every candidate is one of the known items, as far as matching goes.
  lemma CandidatesAreKnown(env: Env, c: Context, known: seq<Summary>, e: Entry, item: Item)
    requires Mirrors(env, c, known) && AllTellUrls(env, c, known) && Candidates(env, c, e).1.Some?
    requires item in Candidates(env, c, e).1.value
    ensures forall s | s in known :: Detail(env, c, s.id).Some?
    ensures AllUrlsParse(env.norms, item.urls)
    ensures exists whole | whole in AllItems(env, c, known) :: SameForMatching(env.norms, e, whole, item)
  {
    AllHeld(env, c, known);
    CandidateItemsAre(env, c, known, e);
    assert Shown(env, c, known, e, item);
    var s :| s in known && IsCandidate(env.norms, e, s) && Seen(env, c, e, s) == Some(item);
    SeenMatches(env, c, known, e, s);
    DetailsParse(env, c, known, s);
    var i :| 0 <= i < |known| && known[i] == s;
    assert AllItems(env, c, known)[i] in AllItems(env, c, known);
  }

  lemma AllHeld(env: Env, c: Context, known: seq<Summary>)
    requires Mirrors(env, c, known)
    ensures forall s | s in known :: Detail(env, c, s.id).Some?
  {
    forall s | s in known
      ensures Detail(env, c, s.id).Some?
    {
      assert Agrees(env, c, s);
    }
  }

  // Every known item that matches is a candidate.
  lemma MatchesAreCandidates(env: Env, c: Context, known: seq<Summary>, e: Entry, i: nat)
    requires Mirrors(env, c, known) && AllTellUrls(env, c, known) && Candidates(env, c, e).1.Some?
    requires i < |known|
    ensures Detail(env, c, known[i].id).Some? && AllUrlsParse(env.norms, Detail(env, c, known[i].id).value.urls)
    ensures var whole := Detail(env, c, known[i].id).value;
            Matches(env.norms, e, whole) ==>
              exists item | item in Candidates(env, c, e).1.value :: SameForMatching(env.norms, e, whole, item)
  {
    var s := known[i];
    assert s in known && Agrees(env, c, s) && TellsUrls(env, c, s);
    DetailsParse(env, c, known, s);
    var whole := Detail(env, c, s.id).value;
    if Matches(env.norms, e, whole) {
      if SharesUrl(env.norms, e, whole) {
        SharedUrlIsListed(env.norms, e, s, whole);
      }
      SeenMatches(env, c, known, e, s);
      CandidateItemsAre(env, c, known, e);
      assert Shown(env, c, known, e, Seen(env, c, e, s).value);
    }
  }

  lemma EntryUrlsParse(env: Env, c: Context, known: seq<Summary>, e: Entry)
    requires Mirrors(env, c, known) && Candidates(env, c, e).1.Some?
    ensures AllUrlsParse(env.norms, e.urls)
  {
    CandidateItemsAre(env, c, known, e);
  }

  // Two lists of items match alike when each matching item of one has its like in
  // the other.
  lemma MatchedAlike(n: Norms, e: Entry, items: seq<Item>, full: seq<Item>)
    requires forall item | item in items ::
               AllUrlsParse(n, item.urls) && exists whole | whole in full :: SameForMatching(n, e, whole, item)
    requires forall whole | whole in full ::
               && AllUrlsParse(n, whole.urls)
               && (Matches(n, e, whole) ==> exists item | item in items :: SameForMatching(n, e, whole, item))
    ensures MatchExisting(n, e, items) == MatchExisting(n, e, full)
  {
    assert PathMatches(n, e, items) == PathMatches(n, e, full);
    assert IdentifierMatches(n, e, items) == IdentifierMatches(n, e, full);
  }

  // An entry that is found is skipped when one id is, and reported as ambiguous when
  // several are; each id is that of a known item that matches in full.
  lemma FoundIsNamed(env: Env, apply: bool, c: Context, known: seq<Summary>, path: string)
    requires Mirrors(env, c, known)
    ensures var line := Processed(env, apply, c, path).1;
            line.Skip? || line.Ambiguous? ==>
              && path in env.entries && line.path == path
              && (line.Skip? <==> |line.ids| == 1) && (line.Ambiguous? <==> |line.ids| >= 2)
              && forall id | id in line.ids :: exists s | s in known ::
                   s.id == id && Detail(env, c, id).Some?
                   && Matches(env.norms, env.entries[path].(path := path), Detail(env, c, id).value)
  {
    var line := Processed(env, apply, c, path).1;
    if line.Skip? || line.Ambiguous? {
      var e := env.entries[path].(path := path);
      var items := Candidates(env, c, e).1.value;
      assert line.ids == MatchExisting(env.norms, e, items).value;
      SomeFound(line.ids);
      CandidateItemsAre(env, c, known, e);
      forall id | id in line.ids
        ensures exists s | s in known ::
                  s.id == id && Detail(env, c, id).Some? && Matches(env.norms, e, Detail(env, c, id).value)
      {
        FoundMatches(env.norms, e, items, id);
        var item :| item in items && item.id == id && Matches(env.norms, e, item);
        CandidateIsKnown(env, c, known, e, item);
      }
    }
  }

  lemma FoundMatches(n: Norms, e: Entry, items: seq<Item>, id: string)
    requires MatchExisting(n, e, items).Some? && id in MatchExisting(n, e, items).value
    ensures exists item | item in items :: item.id == id && Matches(n, e, item)
  {
  }

  lemma CandidateIsKnown(env: Env, c: Context, known: seq<Summary>, e: Entry, item: Item)
    requires Mirrors(env, c, known) && Shown(env, c, known, e, item) && Matches(env.norms, e, item)
    ensures exists s | s in known ::
              s.id == item.id && Detail(env, c, item.id).Some? && Matches(env.norms, e, Detail(env, c, item.id).value)
  {
    var s :| s in known && IsCandidate(env.norms, e, s) && Seen(env, c, e, s) == Some(item);
    SeenMatches(env, c, known, e, s);
  }

  lemma SomeFound(ids: set<string>)
    ensures ids != {} <==> |ids| >= 1
  {
    if ids != {} {
      var id :| id in ids;
      assert |ids| == |ids - {id}| + 1;
    }
  }

  // When the listings tell all URLs nothing is overlooked: matching an entry with
  // its candidates gives what matching it with every known item would.
  lemma CandidatesSuffice(env: Env, c: Context, known: seq<Summary>, e: Entry)
    requires Mirrors(env, c, known) && AllTellUrls(env, c, known) && Candidates(env, c, e).1.Some?
    ensures forall s | s in known :: Detail(env, c, s.id).Some?
    ensures MatchExisting(env.norms, e, Candidates(env, c, e).1.value)
         == MatchExisting(env.norms, e, AllItems(env, c, known))
    ensures MatchExisting(env.norms, e, Candidates(env, c, e).1.value).Some?
  {
    AllHeld(env, c, known);
    var items, full := Candidates(env, c, e).1.value, AllItems(env, c, known);
    forall item | item in items
      ensures AllUrlsParse(env.norms, item.urls)
      ensures exists whole | whole in full :: SameForMatching(env.norms, e, whole, item)
    {
      CandidatesAreKnown(env, c, known, e, item);
    }
    forall whole | whole in full
      ensures AllUrlsParse(env.norms, whole.urls)
      ensures Matches(env.norms, e, whole) ==> exists item | item in items :: SameForMatching(env.norms, e, whole, item)
    {
      var i :| 0 <= i < |full| && full[i] == whole;
      MatchesAreCandidates(env, c, known, e, i);
    }
    MatchedAlike(env.norms, e, items, full);
    EntryUrlsParse(env, c, known, e);
  }

  lemma DetailsParse(env: Env, c: Context, known: seq<Summary>, s: Summary)
    requires Mirrors(env, c, known) && s in known && TellsUrls(env, c, s)
    ensures AllUrlsParse(env.norms, Detail(env, c, s.id).value.urls)
  {
    forall u | u in Detail(env, c, s.id).value.urls
      ensures env.norms.url(u).Some?
    {
      assert env.norms.url(u) in Keys(env.norms, s.urls);
    }
  }

  // ---- the indexes over a run -----------------------------------------------------------

  lemma {:induction false} AddUrlsElements(n: Norms, index: map<string, seq<Summary>>, urls: seq<string>, s: Summary,
                                           k: string, x: Summary)
    ensures x in At(AddUrls(n, index, urls, s), k) <==> x in At(index, k) || (x == s && Some(k) in Keys(n, urls))
    decreases |urls|
  {
    if urls != [] {
      var key := n.url(urls[0]);
      assert Keys(n, urls) == {key} + Keys(n, urls[1..]);
      AddUrlsElements(n, if key.Some? then AddToIndex(index, key.value, s) else index, urls[1..], s, k, x);
    }
  }

  // One more item, listed or added.
  lemma ListedMirrors(env: Env, c: Context, known: seq<Summary>, s: Summary, after: Context)
    requires Mirrors(env, c, known) && s.id !in Ids(known)
    requires after == Listed(env.norms, c, s).(details := after.details)
    requires Agrees(env, after, s) && AllUrlsParse(env.norms, s.urls)
    requires forall t | t in known :: Detail(env, after, t.id) == Detail(env, c, t.id)
    ensures Mirrors(env, after, known + [s])
  {
    var n := env.norms;
    forall k, x: Summary
      ensures x in At(after.titles, k) <==> x in known + [s] && n.title(x.title) == k
      ensures x in At(after.urls, k) <==> x in known + [s] && UnderUrl(n, x, k)
    {
      AddUrlsElements(n, c.urls, s.urls, s, k, x);
      assert x in At(c.titles, k) <==> x in known && n.title(x.title) == k;
      assert x in At(c.urls, k) <==> x in known && UnderUrl(n, x, k);
    }
    forall t | t in known
      ensures Agrees(env, after, t)
    {
      assert Agrees(env, c, t);
    }
  }

  predicate DistinctIds(list: seq<Summary>) {
    list != [] ==> list[0].id !in Ids(list[1..]) && DistinctIds(list[1..])
  }

  lemma RestListed(env: Env, c: Context, known: seq<Summary>, s: Summary, rest: seq<Summary>, next: Context)
    requires s.id !in Ids(rest) && next.details == c.details
    requires forall t | t in rest :: t.id !in Ids(known) && Agrees(env, c, t)
    ensures forall t | t in rest :: t.id !in Ids(known + [s]) && Agrees(env, next, t)
  {
    forall t | t in rest
      ensures t.id !in Ids(known + [s]) && Agrees(env, next, t)
    {
      assert t.id in Ids(rest) && Agrees(env, c, t);
    }
  }

  // The listed items still to be indexed.
  ghost predicate ToIndex(env: Env, known: seq<Summary>, list: seq<Summary>) {
    DistinctIds(list) && forall s | s in list :: s.id !in Ids(known) && Agrees(env, Context(map[], map[], map[]), s)
  }

  lemma MovedOver(known: seq<Summary>, list: seq<Summary>)
    requires list != []
    ensures known + list == (known + [list[0]]) + list[1..]
  {
  }

  lemma IndexedOne(env: Env, c: Context, known: seq<Summary>, list: seq<Summary>)
    requires Mirrors(env, c, known) && c.details == map[] && list != [] && ToIndex(env, known, list)
    requires Indexed(env.norms, c, list).Some?
    ensures var next := Listed(env.norms, c, list[0]);
            && Mirrors(env, next, known + [list[0]]) && next.details == map[]
            && Indexed(env.norms, c, list) == Indexed(env.norms, next, list[1..])
            && ToIndex(env, known + [list[0]], list[1..])
  {
    var s, rest := list[0], list[1..];
    var next := Listed(env.norms, c, s);
    assert s in list && forall t | t in rest :: t in list;
    assert Agrees(env, Context(map[], map[], map[]), s) && Agrees(env, next, s);
    ListedMirrors(env, c, known, s, next);
    RestListed(env, Context(map[], map[], map[]), known, s, rest, Context(map[], map[], map[]));
  }

  lemma {:induction false} IndexedFrom(env: Env, c: Context, known: seq<Summary>, list: seq<Summary>, all: seq<Summary>)
    requires Mirrors(env, c, known) && c.details == map[] && all == known + list && ToIndex(env, known, list)
    requires Indexed(env.norms, c, list).Some?
    ensures Mirrors(env, Indexed(env.norms, c, list).value, all)
    decreases |list|
  {
    if list == [] {
      assert all == known;
    } else {
      IndexedOne(env, c, known, list);
      MovedOver(known, list);
      IndexedFrom(env, Listed(env.norms, c, list[0]), known + [list[0]], list[1..], all);
    }
  }

  // The listing is mirrored when it agrees with the vault.
  lemma IndexedMirrors(env: Env, list: seq<Summary>)
    requires DistinctIds(list) && Indexed(env.norms, Context(map[], map[], map[]), list).Some?
    requires forall s | s in list :: Agrees(env, Context(map[], map[], map[]), s)
    ensures Mirrors(env, Indexed(env.norms, Context(map[], map[], map[]), list).value, list)
  {
    var c := Context(map[], map[], map[]);
    assert Mirrors(env, c, []);
    assert [] + list == list;
    IndexedFrom(env, c, [], list, list);
  }

  // The id of the item that processing a path may add.
  function IdFor(env: Env, apply: bool, path: string): Option<string> {
    if !apply then Some(PLANNED + path) else Lookup(env.created, path)
  }

  predicate IsNew(known: seq<Summary>, id: Option<string>) {
    id.Some? ==> id.value !in Ids(known)
  }

  lemma FetchedMirrors(env: Env, c: Context, known: seq<Summary>, details: map<string, Item>)
    requires Mirrors(env, c, known)
    requires forall id :: Detail(env, c.(details := details), id) == Detail(env, c, id)
    ensures Mirrors(env, c.(details := details), known)
  {
    forall s | s in known
      ensures Agrees(env, c.(details := details), s)
    {
      assert Agrees(env, c, s);
    }
  }

  lemma CandidatesMirror(env: Env, c: Context, known: seq<Summary>, e: Entry)
    requires Mirrors(env, c, known)
    ensures Mirrors(env, Candidates(env, c, e).0, known)
    ensures Candidates(env, c, e).1.Some? ==> AllUrlsParse(env.norms, e.urls)
  {
    CandidateSummariesAre(env, c, known, e);
    var titled := TitleCandidates(env.norms, c, e);
    var all := UrlCandidates(env.norms, c, e.urls, titled);
    if all.Some? {
      FetchViews(env, c, Ids(titled), e.usernames != [], all.value);
      FetchedMirrors(env, c, known, Candidates(env, c, e).0.details);
    }
  }

  lemma FetchedTellUrls(env: Env, c: Context, known: seq<Summary>, e: Entry)
    requires Mirrors(env, c, known) && AllTellUrls(env, c, known)
    ensures AllTellUrls(env, Candidates(env, c, e).0, known)
  {
    var titled := TitleCandidates(env.norms, c, e);
    var all := UrlCandidates(env.norms, c, e.urls, titled);
    if all.Some? {
      FetchViews(env, c, Ids(titled), e.usernames != [], all.value);
    }
    forall s | s in known
      ensures TellsUrls(env, Candidates(env, c, e).0, s)
    {
      assert TellsUrls(env, c, s);
    }
  }

  // Every entry of a run meets indexes that hold exactly what is known by then.
  lemma MirrorStep(env: Env, apply: bool, c: Context, known: seq<Summary>, path: string) returns (after: seq<Summary>)
    requires Mirrors(env, c, known) && IsNew(known, IdFor(env, apply, path))
    ensures Mirrors(env, Processed(env, apply, c, path).0, after)
    ensures AllTellUrls(env, c, known) ==> AllTellUrls(env, Processed(env, apply, c, path).0, after)
    ensures known <= after && forall id | id in Ids(after) :: id in Ids(known) || Some(id) == IdFor(env, apply, path)
  {
    after := known;
    if path in env.entries {
      var e := env.entries[path].(path := path);
      CandidatesMirror(env, c, known, e);
      if AllTellUrls(env, c, known) {
        FetchedTellUrls(env, c, known, e);
      }
      var line := Processed(env, apply, c, path).1;
      if line.Create? || line.Created? {
        var id := IdFor(env, apply, path).value;
        var s := Summary(id, e.title, e.urls);
        after := known + [s];
        var found := Candidates(env, c, e).0;
        var next := Added(env.norms, found, e, id);
        ListedMirrors(env, found, known, s, next);
        AddedTellsUrls(env, found, known, s, next, e);
      }
    }
  }

  lemma AddedTellsUrls(env: Env, c: Context, known: seq<Summary>, s: Summary, next: Context, e: Entry)
    requires s == Summary(s.id, e.title, e.urls) && next == Added(env.norms, c, e, s.id) && s.id !in Ids(known)
    ensures AllTellUrls(env, c, known) ==> AllTellUrls(env, next, known + [s])
  {
    if AllTellUrls(env, c, known) {
      forall t | t in known + [s]
        ensures TellsUrls(env, next, t)
      {
        assert t in known ==> TellsUrls(env, c, t) && t.id in Ids(known);
      }
    }
  }

  ghost predicate FreshRun(env: Env, apply: bool, known: seq<Summary>, paths: seq<string>) {
    && (forall p | p in paths :: IsNew(known, IdFor(env, apply, p)))
    && (forall i, j | 0 <= i < j < |paths| && IdFor(env, apply, paths[i]).Some? ::
          IdFor(env, apply, paths[i]) != IdFor(env, apply, paths[j]))
  }

  lemma FreshTail(env: Env, apply: bool, known: seq<Summary>, next: seq<Summary>, paths: seq<string>)
    requires paths != [] && FreshRun(env, apply, known, paths)
    requires forall id | id in Ids(next) :: id in Ids(known) || Some(id) == IdFor(env, apply, paths[0])
    ensures FreshRun(env, apply, next, paths[1..])
  {
    forall p | p in paths[1..]
      ensures IsNew(next, IdFor(env, apply, p))
    {
      var i :| 1 <= i < |paths| && paths[i] == p;
      assert IsNew(known, IdFor(env, apply, p));
    }
  }

  lemma {:induction false} MirrorRun(env: Env, apply: bool, c: Context, known: seq<Summary>, paths: seq<string>)
    returns (after: seq<Summary>)
    requires Mirrors(env, c, known) && FreshRun(env, apply, known, paths)
    ensures Mirrors(env, Run(env, apply, c, paths).0, after) && known <= after
    ensures AllTellUrls(env, c, known) ==> AllTellUrls(env, Run(env, apply, c, paths).0, after)
    decreases |paths|
  {
    after := known;
    if paths != [] {
      var next := MirrorStep(env, apply, c, known, paths[0]);
      FreshTail(env, apply, known, next, paths);
      after := MirrorRun(env, apply, Processed(env, apply, c, paths[0]).0, next, paths[1..]);
    }
  }

  // In a whole run: the lines that plan or create are exactly those of the entries
  // that find nothing among what is known by then.
  lemma {:induction false} CreatesInRun(env: Env, apply: bool, c: Context, known: seq<Summary>, paths: seq<string>,
                                        i: nat)
    returns (mid: Context, seen: seq<Summary>)
    requires Mirrors(env, c, known) && FreshRun(env, apply, known, paths) && i < |paths|
    ensures Mirrors(env, mid, seen) && known <= seen && mid == Run(env, apply, c, paths[..i]).0
    ensures i < |Run(env, apply, c, paths).1|
    ensures var line := Run(env, apply, c, paths).1[i];
            && (line.Create? <==> !apply && FindsNothing(env, mid, seen, paths[i]))
            && (line.Created? <==>
                  && apply && FindsNothing(env, mid, seen, paths[i])
                  && PayloadFor(env, env.entries[paths[i]].(path := paths[i])).Some? && paths[i] in env.created)
    decreases |paths|
  {
    if i == 0 {
      mid, seen := c, known;
      CreatesExactly(env, apply, c, known, paths[0]);
    } else {
      var next := MirrorStep(env, apply, c, known, paths[0]);
      FreshTail(env, apply, known, next, paths);
      assert paths[..i][0] == paths[0] && paths[..i][1..] == paths[1..][..i - 1];
      mid, seen := CreatesInRun(env, apply, Processed(env, apply, c, paths[0]).0, next, paths[1..], i - 1);
    }
  }

  // ---- running again -------------------------------------------------------------------

  // A later listing keeps what an item could be found by: a record at least as full
  // and, if the item was listed under one of the entry's URLs, that it still is.
  predicate Keeps(env: Env, c: Context, s: Summary, later: Env, d: Context, t: Summary, e: Entry) {
    && Detail(env, c, s.id).Some? && Detail(later, d, t.id).Some?
    && Covers(Detail(env, c, s.id).value, Detail(later, d, t.id).value)
    && (ListedUnder(env.norms, e.urls, s) ==> ListedUnder(env.norms, e.urls, t))
  }

  // An entry that matched something once is planned or created later exactly when
  // every item that would match it in full is overlooked then.
  lemma SkippedIsCreatedExactly(env: Env, c: Context, known: seq<Summary>, later: Env, d: Context, listed: seq<Summary>,
                                apply: bool, again: bool, path: string)
    requires Mirrors(env, c, known) && Mirrors(later, d, listed) && env.norms == later.norms
    requires Processed(env, apply, c, path).1.Skip? || Processed(env, apply, c, path).1.Ambiguous?
    requires path in later.entries && later.entries[path] == env.entries[path]
    ensures var line := Processed(later, again, d, path).1;
            var e := later.entries[path].(path := path);
            && AllUrlsParse(env.norms, e.urls)
            && (line.Create? <==> !again && Overlooked(later, d, listed, e) && Readable(later, d, listed, e))
            && (line.Created? <==>
                  && again && Overlooked(later, d, listed, e) && Readable(later, d, listed, e)
                  && PayloadFor(later, e).Some? && path in later.created)
  {
    CandidatesFound(env, c, known, env.entries[path].(path := path));
    CreatesExactly(later, again, d, listed, path);
  }

  lemma KeptIsFound(env: Env, c: Context, known: seq<Summary>, later: Env, d: Context, listed: seq<Summary>, e: Entry)
    requires Mirrors(env, c, known) && Mirrors(later, d, listed) && env.norms == later.norms
    requires Candidates(env, c, e).1.Some?
    requires var found := MatchExisting(env.norms, e, Candidates(env, c, e).1.value); found.Some? && found.value != {}
    requires forall s | s in known && IsCandidate(env.norms, e, s) ::
               exists t :: t in listed && Keeps(env, c, s, later, d, t, e)
    ensures !Overlooked(later, d, listed, e)
  {
    var s := MatchedItem(env, c, known, e);
    var t :| t in listed && Keeps(env, c, s, later, d, t, e);
    assert Agrees(env, c, s) && Agrees(later, d, t);
    KeptMatches(env.norms, e, Detail(env, c, s.id).value, Detail(later, d, t.id).value);
    assert IsCandidate(env.norms, e, t);
  }

  // An entry that matched something is not planned or created later while every
  // item it could have matched is kept; it is skipped or ambiguous again, unless a
  // URL it would be compared with cannot be parsed.
  lemma SkippedStaysSkipped(env: Env, c: Context, known: seq<Summary>, later: Env, d: Context, listed: seq<Summary>,
                            apply: bool, again: bool, path: string)
    requires Mirrors(env, c, known) && Mirrors(later, d, listed) && env.norms == later.norms
    requires Processed(env, apply, c, path).1.Skip? || Processed(env, apply, c, path).1.Ambiguous?
    requires path in later.entries && later.entries[path] == env.entries[path]
    requires var e := env.entries[path].(path := path);
             forall s | s in known && IsCandidate(env.norms, e, s) ::
               exists t :: t in listed && Keeps(env, c, s, later, d, t, e)
    ensures var line := Processed(later, again, d, path).1;
            && !line.Create? && !line.Created?
            && (Readable(later, d, listed, env.entries[path].(path := path)) ==> line.Skip? || line.Ambiguous?)
  {
    var e := env.entries[path].(path := path);
    KeptIsFound(env, c, known, later, d, listed, e);
    SkippedIsCreatedExactly(env, c, known, later, d, listed, apply, again, path);
    if Readable(later, d, listed, e) {
      ReadableIsMatched(later, d, listed, e);
    }
  }

  lemma KeptMatches(n: Norms, e: Entry, item: Item, fuller: Item)
    requires Covers(item, fuller) && Matches(n, e, item)
    ensures Matches(n, e, fuller)
  {
    if Identifies(n, e, item) {
      CoveringIdentifies(n, e, item, fuller);
    }
  }

  // What a match found.
  lemma MatchedItem(env: Env, c: Context, known: seq<Summary>, e: Entry) returns (s: Summary)
    requires Mirrors(env, c, known) && Candidates(env, c, e).1.Some?
    requires var found := MatchExisting(env.norms, e, Candidates(env, c, e).1.value); found.Some? && found.value != {}
    ensures s in known && IsCandidate(env.norms, e, s)
    ensures Detail(env, c, s.id).Some? && Matches(env.norms, e, Detail(env, c, s.id).value)
  {
    var items := Candidates(env, c, e).1.value;
    var id :| id in MatchExisting(env.norms, e, items).value;
    var item :| item in items && Matches(env.norms, e, item);
    CandidateItemsAre(env, c, known, e);
    assert Shown(env, c, known, e, item);
    s :| s in known && IsCandidate(env.norms, e, s) && Seen(env, c, e, s) == Some(item);
    SeenMatches(env, c, known, e, s);
  }

  lemma ReadableIsMatched(env: Env, c: Context, known: seq<Summary>, e: Entry)
    requires Mirrors(env, c, known) && Readable(env, c, known, e) && AllUrlsParse(env.norms, e.urls)
    ensures Candidates(env, c, e).1.Some? && MatchExisting(env.norms, e, Candidates(env, c, e).1.value).Some?
    ensures !Overlooked(env, c, known, e) ==> MatchExisting(env.norms, e, Candidates(env, c, e).1.value) != Some({})
  {
    CandidatesFound(env, c, known, e);
    CandidateItemsAre(env, c, known, e);
    ReadableItems(env, c, known, e, Candidates(env, c, e).1.value);
    UnmatchedExactly(env, c, known, e);
  }
}

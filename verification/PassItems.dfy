// Password-store entries as 1Password items: the payload built for an entry, what
// is read back from an item, and matching an entry against known items
// (scripts/migrate-pass-to-1password.py).
module PassItems {
  import opened Wrappers

  datatype Category = Login | ApiCredential | Password

  datatype CustomField = CustomField(name: string, value: string, concealed: bool)

  // A parsed and classified entry.
  datatype Entry = Entry(
    path: string, title: string, category: Category, secret: string, usernames: seq<string>, urls: seq<string>,
    totp: seq<string>, custom: seq<CustomField>, notes: string)

  datatype Item = Item(id: string, title: string, usernames: seq<string>, urls: seq<string>, paths: seq<string>)

  // Text normalisation. `url` fails on what urlsplit or its port refuses, and
  // `hostname` on what urlsplit refuses.
  datatype Norms = Norms(
    title: string -> string, username: string -> string, name: string -> string,
    url: string -> Option<string>, hostname: string -> Option<string>)

  // ---- classification ---------------------------------------------------------------

  const API_MARKERS := ["api", "api key", "apikey", "token", "access key", "secret key", "client secret", "credential"]

  // The marker stands at i between word boundaries.
  predicate MarkerAt(text: string, marker: string, i: nat) {
    && i + |marker| <= |text|
    && text[i..i + |marker|] == marker
    && (i == 0 || text[i - 1] == ' ')
    && (i + |marker| == |text| || text[i + |marker|] == ' ')
  }

  predicate HasMarker(text: string, marker: string) {
    exists i | 0 <= i <= |text| :: MarkerAt(text, marker, i)
  }

  predicate IsApi(n: Norms, e: Entry) {
    || (exists marker | marker in API_MARKERS :: HasMarker(n.name(e.title), marker))
    || (exists f | f in e.custom :: n.name(f.name) in API_MARKERS)
  }

  function CategoryOf(n: Norms, e: Entry): Category {
    if IsApi(n, e) then ApiCredential
    else if e.usernames != [] || e.urls != [] then Login
    else Password
  }

  // A marker stands in the text when it does so between blanks, the ends counting as
  // blanks.
  lemma MarkerBetweenBlanks(text: string, marker: string)
    ensures HasMarker(text, marker) <==> exists i | 0 <= i <= |text| :: BlankAround(text, marker, i)
  {
    forall i | 0 <= i <= |text|
      ensures MarkerAt(text, marker, i) <==> BlankAround(text, marker, i)
    {
      if i + |marker| <= |text| {
        MarkerBlanks(text, marker, i);
      }
    }
  }

  predicate BlankAround(text: string, marker: string, i: nat) {
    i + |marker| <= |text| && (" " + text + " ")[i..i + |marker| + 2] == " " + marker + " "
  }

  lemma MarkerBlanks(text: string, marker: string, i: nat)
    requires i + |marker| <= |text|
    ensures MarkerAt(text, marker, i) <==> (" " + text + " ")[i..i + |marker| + 2] == " " + marker + " "
  {
    var padded := " " + text + " ";
    var part := padded[i..i + |marker| + 2];
    assert padded[i + 1..i + 1 + |marker|] == text[i..i + |marker|];
    assert part == [padded[i]] + padded[i + 1..i + 1 + |marker|] + [padded[i + |marker| + 1]];
    assert padded[i] == if i == 0 then ' ' else text[i - 1];
    assert padded[i + |marker| + 1] == if i + |marker| == |text| then ' ' else text[i + |marker|];
    assert " " + marker + " " == [' '] + marker + [' '];
    if part == " " + marker + " " {
      assert part[0] == ' ' && part[1..|marker| + 1] == marker && part[|marker| + 1] == ' ';
      assert part[1..|marker| + 1] == text[i..i + |marker|];
    }
  }

  // An entry is an API credential exactly when its title carries a marker or a custom
  // field is named by one; otherwise a login exactly when it has a username or a URL.
  lemma ClassifiedExactly(n: Norms, e: Entry)
    ensures CategoryOf(n, e) == ApiCredential
       <==> || (exists marker | marker in ["api", "api key", "apikey", "token", "access key", "secret key",
                                           "client secret", "credential"] :: HasMarker(n.name(e.title), marker))
            || (exists f | f in e.custom :: n.name(f.name) in ["api", "api key", "apikey", "token", "access key",
                                                               "secret key", "client secret", "credential"])
    ensures CategoryOf(n, e) != ApiCredential ==>
              (CategoryOf(n, e) == Login <==> e.usernames != [] || e.urls != [])
    ensures CategoryOf(n, e) == Password ==> e.usernames == [] && e.urls == []
  {
  }

  // ---- matching -------------------------------------------------------------------

  predicate SameTitle(n: Norms, e: Entry, item: Item) {
    n.title(item.title) == n.title(e.title)
  }

  predicate SharesUsername(n: Norms, e: Entry, item: Item) {
    exists u, v | u in e.usernames && v in item.usernames :: n.username(u) == n.username(v)
  }

  predicate SharesUrl(n: Norms, e: Entry, item: Item) {
    exists u, v | u in e.urls && v in item.urls :: n.url(u) == n.url(v)
  }

  predicate HasPath(n: Norms, e: Entry, item: Item) {
    SameTitle(n, e, item) && e.path in item.paths
  }

  predicate Identifies(n: Norms, e: Entry, item: Item) {
    || (e.usernames != [] && SameTitle(n, e, item) && SharesUsername(n, e, item))
    || (e.urls != [] && SharesUrl(n, e, item) && (e.usernames == [] || SharesUsername(n, e, item)))
    || (e.usernames == [] && e.urls == [] && SameTitle(n, e, item))
  }

  predicate AllUrlsParse(n: Norms, urls: seq<string>) {
    forall u | u in urls :: n.url(u).Some?
  }

  function PathMatches(n: Norms, e: Entry, items: seq<Item>): set<string> {
    set item | item in items && HasPath(n, e, item) :: item.id
  }

  function IdentifierMatches(n: Norms, e: Entry, items: seq<Item>): set<string> {
    set item | item in items && Identifies(n, e, item) :: item.id
  }

  // The ids of the matching items: none, one match, or an ambiguity. A URL that
  // cannot be parsed fails the entry once identifiers are compared.
  function MatchExisting(n: Norms, e: Entry, items: seq<Item>): Option<set<string>> {
    if PathMatches(n, e, items) != {} then Some(PathMatches(n, e, items))
    else if e.urls != [] && (!AllUrlsParse(n, e.urls) || exists item | item in items :: !AllUrlsParse(n, item.urls))
    then None
    else Some(IdentifierMatches(n, e, items))
  }

  // What identifies an item depends on what the entry has: with usernames, a shared one
  // together with the title or a URL; without, a URL; with neither, the title.
  lemma IdentifiesBy(n: Norms, e: Entry, item: Item)
    ensures Identifies(n, e, item)
       <==> if e.usernames != [] then SharesUsername(n, e, item) && (SameTitle(n, e, item) || SharesUrl(n, e, item))
            else if e.urls != [] then SharesUrl(n, e, item)
            else SameTitle(n, e, item)
  {
  }

  // An id is found exactly when an item of that id carries the entry's path under its
  // title or, when no item does, is identified.
  lemma FoundExactly(n: Norms, e: Entry, items: seq<Item>, id: string)
    requires MatchExisting(n, e, items).Some?
    ensures id in MatchExisting(n, e, items).value
       <==> exists item | item in items ::
              item.id == id
              && if exists other | other in items :: SameTitle(n, e, other) && e.path in other.paths
                 then SameTitle(n, e, item) && e.path in item.paths
                 else Identifies(n, e, item)
  {
    if other :| other in items && HasPath(n, e, other) {
      assert other.id in PathMatches(n, e, items);
    }
  }

  // The same item or a fuller record of one.
  predicate Covers(item: Item, fuller: Item) {
    && fuller.title == item.title
    && (forall u | u in item.usernames :: u in fuller.usernames)
    && (forall u | u in item.urls :: u in fuller.urls)
    && (forall p | p in item.paths :: p in fuller.paths)
  }

  lemma CoveringIdentifies(n: Norms, e: Entry, item: Item, fuller: Item)
    requires Covers(item, fuller) && Identifies(n, e, item)
    ensures Identifies(n, e, fuller)
  {
    assert SameTitle(n, e, item) ==> SameTitle(n, e, fuller);
    if SharesUsername(n, e, item) {
      assert SharesUsername(n, e, fuller);
    }
    if SharesUrl(n, e, item) {
      assert SharesUrl(n, e, fuller);
    }
  }

  // Knowing more items, or more about them, never turns a match into none.
  lemma MatchingIsMonotone(n: Norms, e: Entry, items: seq<Item>, more: seq<Item>)
    requires forall item | item in items :: exists fuller :: fuller in more && Covers(item, fuller)
    requires MatchExisting(n, e, items).Some? && MatchExisting(n, e, items).value != {}
    requires MatchExisting(n, e, more).Some?
    ensures MatchExisting(n, e, more).value != {}
  {
    var id :| id in MatchExisting(n, e, items).value;
    var item :| item in items && (HasPath(n, e, item) || Identifies(n, e, item));
    var fuller :| fuller in more && Covers(item, fuller);
    if HasPath(n, e, item) {
      assert fuller.id in PathMatches(n, e, more);
    } else {
      CoveringIdentifies(n, e, item, fuller);
      assert fuller.id in IdentifierMatches(n, e, more);
    }
  }

  // ---- the item payload ---------------------------------------------------------

  datatype FieldKind = Text | Concealed | Otp

  datatype Field = Field(id: string, kind: FieldKind, name: string, value: string, usernamePurpose: bool)

  datatype Payload = Payload(title: string, tags: seq<string>, urls: seq<string>, fields: seq<Field>)

  const MIGRATED := "migrated-from-pass"
  const PASS_PATH := "pass path"

  function Decimal(n: nat): string {
    if n < 10 then [('0' as int + n) as char] else Decimal(n / 10) + Decimal(n % 10)
  }

  predicate IsDigits(s: string) {
    s != [] && forall i | 0 <= i < |s| :: '0' <= s[i] <= '9'
  }

  lemma {:induction false} DecimalIsDigits(n: nat)
    ensures IsDigits(Decimal(n))
  {
    if n >= 10 {
      DecimalIsDigits(n / 10);
      DecimalIsDigits(n % 10);
    }
  }

  // The first template field with that id gets the value.
  function SetBuiltin(fields: seq<Field>, id: string, value: string): Option<seq<Field>> {
    if fields == [] then None
    else if fields[0].id == id then Some([fields[0].(value := value)] + fields[1..])
    else
      var rest := SetBuiltin(fields[1..], id, value);
      if rest.None? then None else Some([fields[0]] + rest.value)
  }

  // At least three digits.
  function Padded(n: nat): string {
    if n < 10 then "00" + Decimal(n) else if n < 100 then "0" + Decimal(n) else Decimal(n)
  }

  function AppendCustom(fields: seq<Field>, name: string, kind: FieldKind, value: string): seq<Field> {
    fields + [Field("passMigration" + Padded(|fields|), kind, name, value, false)]
  }

  // One custom field per value, named `stem` and its number from `first` on.
  function AppendNumbered(fields: seq<Field>, stem: string, first: nat, values: seq<string>): seq<Field>
    decreases |values|
  {
    if values == [] then fields
    else AppendNumbered(AppendCustom(fields, stem + " " + Decimal(first), Text, values[0]),
                        stem, first + 1, values[1..])
  }

  const ONE_TIME := "one-time password"

  function TotpName(i: nat): string {
    if i == 1 then ONE_TIME else ONE_TIME + " " + Decimal(i)
  }

  function AppendTotp(fields: seq<Field>, first: nat, values: seq<string>): seq<Field>
    decreases |values|
  {
    if values == [] then fields
    else AppendTotp(AppendCustom(fields, TotpName(first), Otp, values[0]), first + 1, values[1..])
  }

  function AppendCustoms(fields: seq<Field>, custom: seq<CustomField>): seq<Field>
    decreases |custom|
  {
    if custom == [] then fields
    else
      var kind := if custom[0].concealed then Concealed else Text;
      AppendCustoms(AppendCustom(fields, custom[0].name, kind, custom[0].value), custom[1..])
  }

  // The fields the template must offer for this entry, and their values.
  function Builtins(n: Norms, e: Entry): seq<(string, string)> {
    [(if e.category.ApiCredential? then "credential" else "password", e.secret), ("notesPlain", e.notes)]
    + (if e.usernames != [] && !e.category.Password? then [("username", e.usernames[0])] else [])
    + (if e.category.ApiCredential? && e.urls != []
       then [("hostname", if n.hostname(e.urls[0]).Some? then n.hostname(e.urls[0]).value else "")] else [])
  }

  function SetBuiltins(fields: seq<Field>, builtins: seq<(string, string)>): Option<seq<Field>>
    decreases |builtins|
  {
    if builtins == [] then Some(fields)
    else
      var rest := SetBuiltin(fields, builtins[0].0, builtins[0].1);
      if rest.None? then None else SetBuiltins(rest.value, builtins[1..])
  }

  function OwnUsernames(e: Entry): seq<string> {
    if e.category.Password? then e.usernames else if e.usernames == [] then [] else e.usernames[1..]
  }

  function CustomFields(e: Entry, fields: seq<Field>): seq<Field> {
    var withUrls := if e.category.Login? then fields else AppendNumbered(fields, "url", 1, e.urls);
    var withUsers := AppendNumbered(withUrls, "email", if e.category.Password? then 1 else 2, OwnUsernames(e));
    AppendCustoms(AppendTotp(withUsers, 1, e.totp), e.custom)
  }

  function BuildPayload(n: Norms, template: Payload, e: Entry): Option<Payload> {
    if e.category.ApiCredential? && e.urls != [] && n.hostname(e.urls[0]).None? then None
    else
      var fields := SetBuiltins(template.fields, Builtins(n, e));
      if fields.None? then None
      else Some(Payload(
        e.title,
        if MIGRATED in template.tags then template.tags else template.tags + [MIGRATED],
        if e.category.Login? then e.urls else template.urls,
        AppendCustom(CustomFields(e, fields.value), PASS_PATH, Text, e.path)))
  }

  // ---- reading an item back -----------------------------------------------------

  // One of the stems, alone or with a number.
  predicate Numbered(name: string, stem: string) {
    name == stem || (stem + " " <= name && IsDigits(name[|stem| + 1..]))
  }

  predicate IsUsernameField(n: Norms, f: Field) {
    || f.id == "username" || f.usernamePurpose
    || exists stem | stem in ["username", "user", "login", "email"] :: Numbered(n.name(f.name), stem)
  }

  predicate IsPathField(n: Norms, f: Field) {
    n.name(f.name) == PASS_PATH
  }

  predicate IsUrlField(n: Norms, f: Field) {
    || n.name(f.name) in ["url", "uri", "website", "http", "https"]
    || exists stem | stem in ["url", "uri", "website"] :: Numbered(n.name(f.name), stem)
  }

  datatype Role = UsernameRole | PathRole | UrlRole | NoRole

  function RoleOf(n: Norms, f: Field): Role {
    if f.kind.Concealed? || f.value == "" then NoRole
    else if IsUsernameField(n, f) then UsernameRole
    else if IsPathField(n, f) then PathRole
    else if IsUrlField(n, f) then UrlRole
    else NoRole
  }

  function ValuesOf(n: Norms, fields: seq<Field>, role: Role): seq<string> {
    if fields == [] then []
    else (if RoleOf(n, fields[0]) == role then [fields[0].value] else []) + ValuesOf(n, fields[1..], role)
  }

  // Only what is shown and not empty is read; a concealed value never is.
  lemma {:induction false} ReadsNoSecret(n: Norms, fields: seq<Field>, role: Role, v: string)
    requires role != NoRole
    ensures v in ValuesOf(n, fields, role) ==>
              v != "" && exists f | f in fields :: f.value == v && f.kind != Concealed
  {
    if fields != [] {
      ReadsNoSecret(n, fields[1..], role, v);
      if v in ValuesOf(n, fields[1..], role) {
        var f :| f in fields[1..] && f.value == v && f.kind != Concealed;
        assert f in fields;
      } else if v in ValuesOf(n, fields, role) {
        assert fields[0] in fields && fields[0].value == v;
      }
    }
  }

  function NonEmpty(values: seq<string>): seq<string> {
    if values == [] then [] else (if values[0] != "" then [values[0]] else []) + NonEmpty(values[1..])
  }

  function ExistingItem(n: Norms, id: string, p: Payload): Item {
    Item(id, p.title, ValuesOf(n, p.fields, UsernameRole),
         NonEmpty(p.urls) + ValuesOf(n, p.fields, UrlRole), ValuesOf(n, p.fields, PathRole))
  }

  // The names the migration itself writes are already normal.
  ghost predicate OwnNamesNormal(n: Norms) {
    && n.name(PASS_PATH) == PASS_PATH
    && (forall i: nat :: n.name("url " + Decimal(i)) == "url " + Decimal(i))
    && (forall i: nat :: n.name("email " + Decimal(i)) == "email " + Decimal(i))
  }

  lemma {:induction false} ValueListed(n: Norms, fields: seq<Field>, f: Field)
    requires f in fields && RoleOf(n, f) != NoRole
    ensures f.value in ValuesOf(n, fields, RoleOf(n, f))
  {
    if fields[0] != f {
      ValueListed(n, fields[1..], f);
    }
  }

  lemma {:induction false} NonEmptyKeeps(values: seq<string>, v: string)
    requires v in values && v != ""
    ensures v in NonEmpty(values)
  {
    if values[0] != v {
      NonEmptyKeeps(values[1..], v);
    }
  }

  predicate IsNumbered(f: Field, stem: string, value: string, i: nat) {
    && f.id != "username" && !f.usernamePurpose
    && f.kind == Text && f.value == value && f.name == stem + " " + Decimal(i)
  }

  ghost predicate HoldsNumbered(fields: seq<Field>, stem: string, value: string) {
    exists k: nat, i: nat | k < |fields| :: IsNumbered(fields[k], stem, value, i)
  }

  // Appending never drops or changes a field.
  lemma {:induction false} NumberedAppended(fields: seq<Field>, stem: string, first: nat, values: seq<string>)
    ensures fields <= AppendNumbered(fields, stem, first, values)
    ensures forall v | v in values :: HoldsNumbered(AppendNumbered(fields, stem, first, values), stem, v)
    decreases |values|
  {
    if values != [] {
      var appended := AppendCustom(fields, stem + " " + Decimal(first), Text, values[0]);
      NumberedAppended(appended, stem, first + 1, values[1..]);
      var all := AppendNumbered(fields, stem, first, values);
      assert all[|fields|] == appended[|fields|];
      assert IsNumbered(all[|fields|], stem, values[0], first);
      assert forall v | v in values :: v == values[0] || v in values[1..];
    }
  }

  lemma {:induction false} TotpAppended(fields: seq<Field>, first: nat, values: seq<string>)
    ensures fields <= AppendTotp(fields, first, values)
    decreases |values|
  {
    if values != [] {
      TotpAppended(AppendCustom(fields, TotpName(first), Otp, values[0]), first + 1, values[1..]);
    }
  }

  lemma {:induction false} CustomsAppended(fields: seq<Field>, custom: seq<CustomField>)
    ensures fields <= AppendCustoms(fields, custom)
    decreases |custom|
  {
    if custom != [] {
      var kind := if custom[0].concealed then Concealed else Text;
      CustomsAppended(AppendCustom(fields, custom[0].name, kind, custom[0].value), custom[1..]);
    }
  }

  predicate Offers(fields: seq<Field>, id: string) {
    exists i | 0 <= i < |fields| :: fields[i].id == id
  }

  // Same fields, other values.
  predicate SameShape(a: seq<Field>, b: seq<Field>) {
    |a| == |b| && forall i | 0 <= i < |a| :: a[i].id == b[i].id && a[i].kind == b[i].kind
  }

  predicate ValueAt(fields: seq<Field>, i: nat, id: string, value: string) {
    i < |fields| && fields[i].id == id && fields[i].value == value
  }

  lemma {:induction false} BuiltinSet(fields: seq<Field>, id: string, value: string) returns (at: nat)
    ensures SetBuiltin(fields, id, value).Some? <==> Offers(fields, id)
    ensures SetBuiltin(fields, id, value).Some? ==>
              at < |fields| && fields[at].id == id
              && SetBuiltin(fields, id, value).value == fields[at := fields[at].(value := value)]
  {
    at := 0;
    if fields != [] && fields[0].id != id {
      at := BuiltinSet(fields[1..], id, value);
      at := at + 1;
      assert forall i | 1 <= i < |fields| :: fields[i] == fields[1..][i - 1];
    }
  }

  lemma {:induction false} BuiltinsSet(fields: seq<Field>, builtins: seq<(string, string)>)
    ensures SetBuiltins(fields, builtins).Some? <==> forall b | b in builtins :: Offers(fields, b.0)
    ensures SetBuiltins(fields, builtins).Some? ==> SameShape(fields, SetBuiltins(fields, builtins).value)
    decreases |builtins|
  {
    if builtins != [] {
      var at := BuiltinSet(fields, builtins[0].0, builtins[0].1);
      assert forall b | b in builtins :: b == builtins[0] || b in builtins[1..];
      var first := SetBuiltin(fields, builtins[0].0, builtins[0].1);
      if first.Some? {
        BuiltinsSet(first.value, builtins[1..]);
        forall id
          ensures Offers(fields, id) <==> Offers(first.value, id)
        {
          assert forall i | 0 <= i < |fields| :: fields[i].id == first.value[i].id;
        }
      }
    }
  }

  // A value set and not set again is in the result.
  lemma {:induction false} BuiltinStays(fields: seq<Field>, builtins: seq<(string, string)>, id: string, value: string)
    returns (at: nat)
    requires SetBuiltins(fields, builtins).Some?
    requires (id, value) in builtins || exists i :: ValueAt(fields, i, id, value)
    requires forall b | b in builtins && b.0 == id :: b.1 == value
    ensures ValueAt(SetBuiltins(fields, builtins).value, at, id, value)
    decreases |builtins|
  {
    if builtins == [] {
      at :| ValueAt(fields, at, id, value);
    } else {
      var k := BuiltinSet(fields, builtins[0].0, builtins[0].1);
      var next := fields[k := fields[k].(value := builtins[0].1)];
      if builtins[0] == (id, value) {
        assert ValueAt(next, k, id, value);
      } else if i :| ValueAt(fields, i, id, value) {
        assert ValueAt(next, i, id, value);
      } else {
        assert (id, value) in builtins[1..];
      }
      at := BuiltinStays(next, builtins[1..], id, value);
    }
  }

  // A payload is built exactly when the template offers every built-in field the
  // entry needs and an API credential's first URL can be split.
  lemma BuildSucceeds(n: Norms, template: Payload, e: Entry)
    ensures BuildPayload(n, template, e).Some? <==>
              && (forall b | b in Builtins(n, e) :: Offers(template.fields, b.0))
              && (e.category.ApiCredential? && e.urls != [] ==> n.hostname(e.urls[0]).Some?)
  {
    BuiltinsSet(template.fields, Builtins(n, e));
  }

  // What the parser and the classifier guarantee of an entry.
  predicate WellParsed(n: Norms, e: Entry) {
    && e.path != ""
    && (forall u | u in e.usernames :: u != "")
    && (forall u | u in e.urls :: u != "")
    && e.category == CategoryOf(n, e)
  }

  function SourceAsExisting(e: Entry, id: string): Item {
    Item(id, e.title, e.usernames, e.urls, [e.path])
  }

  lemma EmailReadBack(n: Norms, f: Field, value: string, i: nat)
    requires OwnNamesNormal(n) && value != "" && IsNumbered(f, "email", value, i)
    ensures RoleOf(n, f) == UsernameRole
  {
    DecimalIsDigits(i);
    assert f.name == "email " + Decimal(i);
    assert f.name[|"email"| + 1..] == Decimal(i);
    assert Numbered(f.name, "email");
    assert "email" in ["username", "user", "login", "email"];
  }

  lemma UrlReadBack(n: Norms, f: Field, value: string, i: nat)
    requires OwnNamesNormal(n) && value != "" && IsNumbered(f, "url", value, i)
    ensures RoleOf(n, f) == UrlRole
  {
    DecimalIsDigits(i);
    assert f.name == "url " + Decimal(i);
    assert f.name[|"url"| + 1..] == Decimal(i);
    assert Numbered(f.name, "url");
    assert f.name[0] == 'u' && f.name[1] == 'r';
    forall stem | stem in ["username", "user", "login", "email"]
      ensures !Numbered(f.name, stem)
    {
      assert stem[0] != 'u' || stem[1] == 's';
    }
    assert f.name != PASS_PATH;
    assert "url" in ["url", "uri", "website"];
  }

  lemma PathReadBack(n: Norms, f: Field, value: string)
    requires OwnNamesNormal(n) && value != ""
    requires f.id != "username" && !f.usernamePurpose && f.kind == Text && f.value == value && f.name == PASS_PATH
    ensures RoleOf(n, f) == PathRole
  {
    assert PASS_PATH[0] == 'p';
    forall stem | stem in ["username", "user", "login", "email"]
      ensures !Numbered(PASS_PATH, stem)
    {
      assert stem[0] != 'p';
    }
  }

  lemma NumberedStays(fields: seq<Field>, more: seq<Field>, stem: string, value: string)
    requires HoldsNumbered(fields, stem, value) && fields <= more
    ensures HoldsNumbered(more, stem, value)
  {
    var k: nat, i: nat :| k < |fields| && IsNumbered(fields[k], stem, value, i);
    assert IsNumbered(more[k], stem, value, i);
  }

  // The custom fields keep the built-in ones and hold every URL and username that
  // has no built-in place.
  lemma CustomFieldsHold(e: Entry, fields: seq<Field>)
    ensures fields <= CustomFields(e, fields)
    ensures forall v | v in OwnUsernames(e) :: HoldsNumbered(CustomFields(e, fields), "email", v)
    ensures !e.category.Login? ==> forall v | v in e.urls :: HoldsNumbered(CustomFields(e, fields), "url", v)
  {
    var withUrls := if e.category.Login? then fields else AppendNumbered(fields, "url", 1, e.urls);
    NumberedAppended(fields, "url", 1, e.urls);
    var first := if e.category.Password? then 1 else 2;
    var withUsers := AppendNumbered(withUrls, "email", first, OwnUsernames(e));
    NumberedAppended(withUrls, "email", first, OwnUsernames(e));
    TotpAppended(withUsers, 1, e.totp);
    CustomsAppended(AppendTotp(withUsers, 1, e.totp), e.custom);
    var all := CustomFields(e, fields);
    forall v | v in OwnUsernames(e)
      ensures HoldsNumbered(all, "email", v)
    {
      NumberedStays(withUsers, all, "email", v);
    }
    if !e.category.Login? {
      forall v | v in e.urls
        ensures HoldsNumbered(all, "url", v)
      {
        NumberedStays(withUrls, all, "url", v);
      }
    }
  }

  lemma NumberedRead(n: Norms, fields: seq<Field>, stem: string, value: string)
    requires OwnNamesNormal(n) && value != "" && HoldsNumbered(fields, stem, value)
    ensures stem == "email" ==> value in ValuesOf(n, fields, UsernameRole)
    ensures stem == "url" ==> value in ValuesOf(n, fields, UrlRole)
  {
    var k: nat, i: nat :| k < |fields| && IsNumbered(fields[k], stem, value, i);
    if stem == "email" {
      EmailReadBack(n, fields[k], value, i);
      ValueListed(n, fields, fields[k]);
    } else if stem == "url" {
      UrlReadBack(n, fields[k], value, i);
      ValueListed(n, fields, fields[k]);
    }
  }

  // The first username of a login or a credential is in the built-in field.
  lemma FirstUsernameRead(n: Norms, template: Payload, e: Entry)
    requires WellParsed(n, e) && e.usernames != [] && !e.category.Password?
    requires forall f | f in template.fields && f.id == "username" :: !f.kind.Concealed?
    requires SetBuiltins(template.fields, Builtins(n, e)).Some?
    ensures var fields := SetBuiltins(template.fields, Builtins(n, e)).value;
            exists k: nat | k < |fields| :: fields[k].value == e.usernames[0] && RoleOf(n, fields[k]) == UsernameRole
  {
    var builtins := Builtins(n, e);
    assert builtins[2] == ("username", e.usernames[0]);
    var at := BuiltinStays(template.fields, builtins, "username", e.usernames[0]);
    BuiltinsSet(template.fields, builtins);
    var fields := SetBuiltins(template.fields, builtins).value;
    assert template.fields[at] in template.fields && fields[at].kind == template.fields[at].kind;
    assert e.usernames[0] in e.usernames;
    assert RoleOf(n, fields[at]) == UsernameRole;
  }

  // What a later run reads from a created item has the entry's title and path,
  // and all its usernames and URLs: it covers the record the creating run kept.
  lemma CreatedItemCovers(n: Norms, template: Payload, e: Entry, id: string)
    requires OwnNamesNormal(n) && WellParsed(n, e)
    requires forall f | f in template.fields && f.id == "username" :: !f.kind.Concealed?
    requires BuildPayload(n, template, e).Some?
    ensures Covers(SourceAsExisting(e, id), ExistingItem(n, id, BuildPayload(n, template, e).value))
  {
    var p := BuildPayload(n, template, e).value;
    var builtin := SetBuiltins(template.fields, Builtins(n, e)).value;
    var custom := CustomFields(e, builtin);
    CustomFieldsHold(e, builtin);
    var last := p.fields[|custom|];
    PathReadBack(n, last, e.path);
    ValueListed(n, p.fields, last);
    forall u | u in e.usernames
      ensures u in ValuesOf(n, p.fields, UsernameRole)
    {
      if u in OwnUsernames(e) {
        NumberedStays(custom, p.fields, "email", u);
        NumberedRead(n, p.fields, "email", u);
      } else {
        FirstUsernameRead(n, template, e);
        var k: nat :| k < |builtin| && builtin[k].value == e.usernames[0] && RoleOf(n, builtin[k]) == UsernameRole;
        assert p.fields[k] == builtin[k];
        ValueListed(n, p.fields, p.fields[k]);
      }
    }
    forall u | u in e.urls
      ensures u in NonEmpty(p.urls) + ValuesOf(n, p.fields, UrlRole)
    {
      if e.category.Login? {
        NonEmptyKeeps(p.urls, u);
      } else {
        NumberedStays(custom, p.fields, "url", u);
        NumberedRead(n, p.fields, "url", u);
      }
    }
  }
}

// What is in the payload built for an entry, field by field.
module Payloads {
  import opened Wrappers
  import opened PassItems

  // ---- the built-in fields ------------------------------------------------------------

  predicate FirstOf(fields: seq<Field>, i: nat) {
    i < |fields| && forall j | 0 <= j < i :: fields[j].id != fields[i].id
  }

  predicate DistinctNames(builtins: seq<(string, string)>) {
    forall i, j | 0 <= i < j < |builtins| :: builtins[i].0 != builtins[j].0
  }

  // The first field of each built-in id takes its value; no other field changes.
  ghost predicate TakesAll(fields: seq<Field>, builtins: seq<(string, string)>, after: seq<Field>) {
    && |after| == |fields|
    && (forall i, b | 0 <= i < |fields| && b in builtins && FirstOf(fields, i) && fields[i].id == b.0 ::
          after[i] == fields[i].(value := b.1))
    && (forall i | 0 <= i < |fields| && (!FirstOf(fields, i) || forall b | b in builtins :: b.0 != fields[i].id) ::
          after[i] == fields[i])
  }

  lemma {:induction false} OneTaken(fields: seq<Field>, id: string, value: string)
    requires SetBuiltin(fields, id, value).Some?
    ensures TakesAll(fields, [(id, value)], SetBuiltin(fields, id, value).value)
  {
    var at := FirstTaken(fields, id, value);
    forall i | 0 <= i < |fields| && FirstOf(fields, i) && fields[i].id == id
      ensures i == at
    {
      OnlyFirst(fields, i, at);
    }
    assert forall b | b in [(id, value)] :: b == (id, value);
    assert (id, value) in [(id, value)];
  }

  lemma OnlyFirst(fields: seq<Field>, i: nat, j: nat)
    requires FirstOf(fields, i) && FirstOf(fields, j) && fields[i].id == fields[j].id
    ensures i == j
  {
  }

  lemma {:induction false} FirstTaken(fields: seq<Field>, id: string, value: string) returns (at: nat)
    requires SetBuiltin(fields, id, value).Some?
    ensures FirstOf(fields, at) && fields[at].id == id
    ensures SetBuiltin(fields, id, value).value == fields[at := fields[at].(value := value)]
  {
    at := 0;
    if fields[0].id != id {
      at := FirstTaken(fields[1..], id, value);
      at := at + 1;
      forall j | 0 <= j < at
        ensures fields[j].id != fields[at].id
      {
        assert j > 0 ==> fields[j] == fields[1..][j - 1];
      }
    }
  }

  lemma SameFirsts(fields: seq<Field>, after: seq<Field>)
    requires |after| == |fields| && forall i | 0 <= i < |fields| :: after[i].id == fields[i].id
    ensures forall i | 0 <= i < |fields| :: FirstOf(after, i) <==> FirstOf(fields, i)
  {
  }

  lemma {:induction false} AllTaken(fields: seq<Field>, builtins: seq<(string, string)>)
    requires DistinctNames(builtins) && SetBuiltins(fields, builtins).Some?
    ensures TakesAll(fields, builtins, SetBuiltins(fields, builtins).value)
    decreases |builtins|
  {
    if builtins != [] {
      var head, rest := builtins[0], builtins[1..];
      var next := SetBuiltin(fields, head.0, head.1).value;
      OneTaken(fields, head.0, head.1);
      AllTaken(next, rest);
      TakenInTurn(fields, head, rest, next, SetBuiltins(fields, builtins).value);
      assert builtins == [head] + rest;
    }
  }

  lemma TakenInTurn(fields: seq<Field>, head: (string, string), rest: seq<(string, string)>, next: seq<Field>,
                    after: seq<Field>)
    requires TakesAll(fields, [head], next) && TakesAll(next, rest, after)
    requires forall b | b in rest :: b.0 != head.0
    ensures TakesAll(fields, [head] + rest, after)
  {
    assert forall b :: b in [head] + rest <==> b == head || b in rest;
    assert head in [head];
    forall i | 0 <= i < |fields|
      ensures next[i].id == fields[i].id
    {
      assert FirstOf(fields, i) && fields[i].id == head.0 ==> next[i] == fields[i].(value := head.1);
      assert !(FirstOf(fields, i) && fields[i].id == head.0) ==> next[i] == fields[i];
    }
    SameFirsts(fields, next);
  }

  // The first field with that id holds that value.
  ghost predicate HoldsFirst(fields: seq<Field>, id: string, value: string) {
    exists i | 0 <= i < |fields| :: FirstOf(fields, i) && fields[i].id == id && fields[i].value == value
  }

  // ---- the appended fields -------------------------------------------------------------

  predicate IsAppended(fields: seq<Field>, at: nat, kind: FieldKind, name: string, value: string) {
    at < |fields| && fields[at] == Field("passMigration" + Padded(at), kind, name, value, false)
  }

  predicate NumberedFrom(fields: seq<Field>, at: nat, stem: string, first: nat, values: seq<string>) {
    forall i | 0 <= i < |values| :: IsAppended(fields, at + i, Text, stem + " " + Decimal(first + i), values[i])
  }

  predicate TotpFrom(fields: seq<Field>, at: nat, first: nat, values: seq<string>) {
    forall i | 0 <= i < |values| :: IsAppended(fields, at + i, Otp, TotpName(first + i), values[i])
  }

  predicate CustomFrom(fields: seq<Field>, at: nat, custom: seq<CustomField>) {
    forall i | 0 <= i < |custom| ::
      IsAppended(fields, at + i, KindOf(custom[i]), custom[i].name, custom[i].value)
  }

  function KindOf(c: CustomField): FieldKind {
    if c.concealed then Concealed else Text
  }

  lemma {:induction false} NumberedInOrder(fields: seq<Field>, stem: string, first: nat, values: seq<string>)
    ensures var all := AppendNumbered(fields, stem, first, values);
            fields <= all && |all| == |fields| + |values| && NumberedFrom(all, |fields|, stem, first, values)
    decreases |values|
  {
    if values != [] {
      var appended := AppendCustom(fields, stem + " " + Decimal(first), Text, values[0]);
      NumberedInOrder(appended, stem, first + 1, values[1..]);
      var all := AppendNumbered(fields, stem, first, values);
      assert all[|fields|] == appended[|fields|];
      forall i | 0 <= i < |values|
        ensures IsAppended(all, |fields| + i, Text, stem + " " + Decimal(first + i), values[i])
      {
        if i > 0 {
          assert IsAppended(all, |appended| + (i - 1), Text, stem + " "
                            + Decimal(first + 1 + (i - 1)), values[1..][i - 1]);
        }
      }
    }
  }

  // Which is a name that the vault shows as a one-time password, numbered from two on.
  lemma TotpNamed(i: nat)
    ensures TotpName(i) == if i == 1 then "one-time password" else "one-time password " + Decimal(i)
  {
    assert "one-time password" + " " == "one-time password ";
  }

  lemma TotpShifted(all: seq<Field>, at: nat, first: nat, values: seq<string>)
    requires values != [] && IsAppended(all, at, Otp, TotpName(first), values[0])
    requires TotpFrom(all, at + 1, first + 1, values[1..])
    ensures TotpFrom(all, at, first, values)
  {
    forall i | 0 <= i < |values|
      ensures IsAppended(all, at + i, Otp, TotpName(first + i), values[i])
    {
      if i > 0 {
        assert IsAppended(all, at + 1 + (i - 1), Otp, TotpName(first + 1 + (i - 1)), values[1..][i - 1]);
      }
    }
  }

  lemma {:induction false} TotpInOrder(fields: seq<Field>, first: nat, values: seq<string>)
    ensures var all := AppendTotp(fields, first, values);
            fields <= all && |all| == |fields| + |values| && TotpFrom(all, |fields|, first, values)
    decreases |values|
  {
    if values != [] {
      var appended := AppendCustom(fields, TotpName(first), Otp, values[0]);
      TotpInOrder(appended, first + 1, values[1..]);
      TotpShifted(AppendTotp(appended, first + 1, values[1..]), |fields|, first, values);
    }
  }

  lemma CustomShifted(all: seq<Field>, at: nat, custom: seq<CustomField>)
    requires custom != [] && IsAppended(all, at, KindOf(custom[0]), custom[0].name, custom[0].value)
    requires CustomFrom(all, at + 1, custom[1..])
    ensures CustomFrom(all, at, custom)
  {
    forall i | 0 <= i < |custom|
      ensures IsAppended(all, at + i, KindOf(custom[i]), custom[i].name, custom[i].value)
    {
      if i > 0 {
        var c := custom[1..][i - 1];
        assert IsAppended(all, at + 1 + (i - 1), KindOf(c), c.name, c.value);
      }
    }
  }

  lemma {:induction false} CustomInOrder(fields: seq<Field>, custom: seq<CustomField>)
    ensures var all := AppendCustoms(fields, custom);
            fields <= all && |all| == |fields| + |custom| && CustomFrom(all, |fields|, custom)
    decreases |custom|
  {
    if custom != [] {
      var appended := AppendCustom(fields, custom[0].name, KindOf(custom[0]), custom[0].value);
      CustomInOrder(appended, custom[1..]);
      CustomShifted(AppendCustoms(appended, custom[1..]), |fields|, custom);
    }
  }

  // ---- the payload -------------------------------------------------------------------------

  // The URLs that go to fields of their own, and the usernames.
  function FieldUrls(e: Entry): seq<string> {
    if e.category.Login? then [] else e.urls
  }

  function FieldUsernames(e: Entry): seq<string> {
    if e.category.Password? || e.usernames == [] then e.usernames else e.usernames[1..]
  }

  // After the template's own fields come the URLs, the other usernames, the one-time
  // passwords, the custom fields and the path, each value in a field of its own, and
  // nothing else; what was concealed stays concealed.
  ghost predicate HoldsRest(e: Entry, base: nat, fields: seq<Field>) {
    var (urls, names) := (FieldUrls(e), FieldUsernames(e));
    && |fields| == base + |urls| + |names| + |e.totp| + |e.custom| + 1
    && NumberedFrom(fields, base, "url", 1, urls)
    && NumberedFrom(fields, base + |urls|, "email", if e.category.Password? then 1 else 2, names)
    && TotpFrom(fields, base + |urls| + |names|, 1, e.totp)
    && CustomFrom(fields, base + |urls| + |names| + |e.totp|, e.custom)
    && IsAppended(fields, |fields| - 1, Text, "pass path", e.path)
  }

  // The secret, the notes, the first username and the first URL's host are in the
  // template's fields for them.
  ghost predicate HoldsBuiltins(n: Norms, e: Entry, fields: seq<Field>) {
    && HoldsFirst(fields, if e.category.ApiCredential? then "credential" else "password", e.secret)
    && HoldsFirst(fields, "notesPlain", e.notes)
    && (e.usernames != [] && !e.category.Password? ==> HoldsFirst(fields, "username", e.usernames[0]))
    && (e.category.ApiCredential? && e.urls != [] ==>
          n.hostname(e.urls[0]).Some? && HoldsFirst(fields, "hostname", n.hostname(e.urls[0]).value))
  }

  // The template's other fields are as it had them.
  ghost predicate KeepsTemplate(e: Entry, template: seq<Field>, fields: seq<Field>) {
    && |template| <= |fields|
    && forall i | 0 <= i < |template| ::
         && fields[i] == template[i].(value := fields[i].value)
         && (template[i].id !in {"credential", "password", "notesPlain", "username", "hostname"} ==>
               fields[i] == template[i])
  }

  lemma OrderedOnce(fields: seq<Field>, more: seq<Field>)
    requires fields <= more
    ensures forall i | 0 <= i < |fields| :: FirstOf(more, i) <==> FirstOf(fields, i)
  {
  }

  lemma BuiltinHeld(fields: seq<Field>, builtins: seq<(string, string)>, b: (string, string), more: seq<Field>)
    requires DistinctNames(builtins) && SetBuiltins(fields, builtins).Some? && b in builtins
    requires SetBuiltins(fields, builtins).value <= more
    ensures HoldsFirst(more, b.0, b.1)
  {
    var after := SetBuiltins(fields, builtins).value;
    BuiltinsSet(fields, builtins);
    AllTaken(fields, builtins);
    assert Offers(fields, b.0);
    var at := FirstOffered(fields, b.0);
    SameFirsts(fields, after);
    OrderedOnce(after, more);
    assert FirstOf(more, at) && more[at] == fields[at].(value := b.1);
  }

  lemma {:induction false} FirstOffered(fields: seq<Field>, id: string) returns (at: nat)
    requires Offers(fields, id)
    ensures FirstOf(fields, at) && fields[at].id == id
  {
    at := 0;
    while fields[at].id != id
      invariant at < |fields| && forall j | 0 <= j < at :: fields[j].id != id
      decreases |fields| - at
    {
      at := at + 1;
    }
  }

  lemma BuiltinNames(n: Norms, e: Entry)
    ensures DistinctNames(Builtins(n, e))
    ensures forall b | b in Builtins(n, e) :: b.0 in {"credential", "password", "notesPlain", "username", "hostname"}
  {
  }

  lemma BuiltinsHeld(n: Norms, template: Payload, e: Entry)
    requires BuildPayload(n, template, e).Some?
    requires SetBuiltins(template.fields, Builtins(n, e)).value <= BuildPayload(n, template, e).value.fields
    ensures HoldsBuiltins(n, e, BuildPayload(n, template, e).value.fields)
  {
    var all, p := Builtins(n, e), BuildPayload(n, template, e).value;
    BuiltinNames(n, e);
    BuiltinHeld(template.fields, all, (if e.category.ApiCredential? then "credential" else "password", e.secret),
                p.fields);
    BuiltinHeld(template.fields, all, ("notesPlain", e.notes), p.fields);
    if e.usernames != [] && !e.category.Password? {
      BuiltinHeld(template.fields, all, ("username", e.usernames[0]), p.fields);
    }
    if e.category.ApiCredential? && e.urls != [] {
      BuiltinHeld(template.fields, all, ("hostname", n.hostname(e.urls[0]).value), p.fields);
    }
  }

  lemma TemplateKept(n: Norms, template: Payload, e: Entry)
    requires BuildPayload(n, template, e).Some?
    requires SetBuiltins(template.fields, Builtins(n, e)).value <= BuildPayload(n, template, e).value.fields
    ensures KeepsTemplate(e, template.fields, BuildPayload(n, template, e).value.fields)
  {
    var after := SetBuiltins(template.fields, Builtins(n, e)).value;
    BuiltinNames(n, e);
    AllTaken(template.fields, Builtins(n, e));
    forall i | 0 <= i < |template.fields|
      ensures after[i] == template.fields[i].(value := after[i].value)
      ensures template.fields[i].id !in {"credential", "password", "notesPlain", "username", "hostname"} ==>
                after[i] == template.fields[i]
    {
      if FirstOf(template.fields, i) {
        if b :| b in Builtins(n, e) && b.0 == template.fields[i].id {
          assert after[i] == template.fields[i].(value := b.1);
        }
      }
    }
  }

  lemma RestHeld(e: Entry, fields: seq<Field>)
    ensures var all := AppendCustom(CustomFields(e, fields), "pass path", Text, e.path);
            fields <= all && HoldsRest(e, |fields|, all)
  {
    var first := if e.category.Password? then 1 else 2;
    var withUrls := AppendNumbered(fields, "url", 1, FieldUrls(e));
    var withUsers := AppendNumbered(withUrls, "email", first, FieldUsernames(e));
    var withTotp := AppendTotp(withUsers, 1, e.totp);
    var withCustom := AppendCustoms(withTotp, e.custom);
    NumberedInOrder(fields, "url", 1, FieldUrls(e));
    NumberedInOrder(withUrls, "email", first, FieldUsernames(e));
    TotpInOrder(withUsers, 1, e.totp);
    CustomInOrder(withTotp, e.custom);
    CustomFieldsAre(e, fields);
    RestInOrder(e, fields, withUrls, withUsers, withTotp, withCustom);
  }

  lemma CustomFieldsAre(e: Entry, fields: seq<Field>)
    ensures CustomFields(e, fields)
         == AppendCustoms(AppendTotp(AppendNumbered(AppendNumbered(fields, "url", 1, FieldUrls(e)), "email",
                                                    if e.category.Password? then 1 else 2, FieldUsernames(e)),
                                     1, e.totp), e.custom)
  {
  }

  lemma RestInOrder(e: Entry, fields: seq<Field>, withUrls: seq<Field>, withUsers: seq<Field>, withTotp: seq<Field>,
                    withCustom: seq<Field>)
    requires fields <= withUrls <= withUsers <= withTotp <= withCustom
    requires |withUrls| == |fields| + |FieldUrls(e)| && NumberedFrom(withUrls, |fields|, "url", 1, FieldUrls(e))
    requires |withUsers| == |withUrls| + |FieldUsernames(e)|
    requires NumberedFrom(withUsers, |withUrls|, "email", if e.category.Password? then 1 else 2, FieldUsernames(e))
    requires |withTotp| == |withUsers| + |e.totp| && TotpFrom(withTotp, |withUsers|, 1, e.totp)
    requires |withCustom| == |withTotp| + |e.custom| && CustomFrom(withCustom, |withTotp|, e.custom)
    ensures fields <= AppendCustom(withCustom, "pass path", Text, e.path)
    ensures HoldsRest(e, |fields|, AppendCustom(withCustom, "pass path", Text, e.path))
  {
    var all := AppendCustom(withCustom, "pass path", Text, e.path);
    NumberedKept(withUrls, all, |fields|, "url", 1, FieldUrls(e));
    NumberedKept(withUsers, all, |withUrls|, "email", if e.category.Password? then 1 else 2, FieldUsernames(e));
    TotpKept(withTotp, all, |withUsers|, e.totp);
    CustomKept(withCustom, all, |withTotp|, e.custom);
  }

  lemma NumberedKept(fields: seq<Field>, more: seq<Field>, at: nat, stem: string, first: nat, values: seq<string>)
    requires fields <= more && NumberedFrom(fields, at, stem, first, values)
    ensures NumberedFrom(more, at, stem, first, values)
  {
    forall i | 0 <= i < |values|
      ensures IsAppended(more, at + i, Text, stem + " " + Decimal(first + i), values[i])
    {
      assert IsAppended(fields, at + i, Text, stem + " " + Decimal(first + i), values[i]);
    }
  }

  lemma TotpKept(fields: seq<Field>, more: seq<Field>, at: nat, values: seq<string>)
    requires fields <= more && TotpFrom(fields, at, 1, values)
    ensures TotpFrom(more, at, 1, values)
  {
    forall i | 0 <= i < |values|
      ensures IsAppended(more, at + i, Otp, TotpName(1 + i), values[i])
    {
      assert IsAppended(fields, at + i, Otp, TotpName(1 + i), values[i]);
    }
  }

  lemma CustomKept(fields: seq<Field>, more: seq<Field>, at: nat, custom: seq<CustomField>)
    requires fields <= more && CustomFrom(fields, at, custom)
    ensures CustomFrom(more, at, custom)
  {
    forall i | 0 <= i < |custom|
      ensures IsAppended(more, at + i, KindOf(custom[i]), custom[i].name, custom[i].value)
    {
      assert IsAppended(fields, at + i, KindOf(custom[i]), custom[i].name, custom[i].value);
    }
  }

  // A payload that is built carries the whole entry: title and tag, the secret and the
  // notes where they belong, every username, URL, one-time password and custom field,
  // and nothing in the template is lost.
  lemma PayloadHoldsEntry(n: Norms, template: Payload, e: Entry)
    requires BuildPayload(n, template, e).Some?
    ensures var p := BuildPayload(n, template, e).value;
            && p.title == e.title
            && "migrated-from-pass" in p.tags && (forall tag | tag in template.tags :: tag in p.tags)
            && p.urls == (if e.category.Login? then e.urls else template.urls)
            && HoldsBuiltins(n, e, p.fields)
            && HoldsRest(e, |template.fields|, p.fields)
            && KeepsTemplate(e, template.fields, p.fields)
  {
    var fields := SetBuiltins(template.fields, Builtins(n, e)).value;
    BuiltinsSet(template.fields, Builtins(n, e));
    RestHeld(e, fields);
    BuiltinsHeld(n, template, e);
    TemplateKept(n, template, e);
  }
}

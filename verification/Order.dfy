// The byte-wise order on keys and labels, and least elements of finite sets.
module Order {

  // Go's `<` on strings.
  predicate Less(a: string, b: string) {
    if b == [] then false
    else if a == [] then true
    else if a[0] != b[0] then a[0] < b[0]
    else Less(a[1..], b[1..])
  }

  lemma {:induction false} LessIrreflexive(a: string)
    ensures !Less(a, a)
  {
    if a != [] {
      LessIrreflexive(a[1..]);
    }
  }

  lemma {:induction false} LessTransitive(a: string, b: string, c: string)
    requires Less(a, b) && Less(b, c)
    ensures Less(a, c)
  {
    if a != [] && a[0] == b[0] && b[0] == c[0] {
      LessTransitive(a[1..], b[1..], c[1..]);
    }
  }

  lemma {:induction false} LessTotal(a: string, b: string)
    ensures Less(a, b) || a == b || Less(b, a)
  {
    if a != [] && b != [] && a[0] == b[0] {
      LessTotal(a[1..], b[1..]);
      assert a == [a[0]] + a[1..];
      assert b == [b[0]] + b[1..];
    }
  }

  // The order is decided where two strings first differ; a proper prefix goes first.
  lemma {:induction false} LessAtFirstDifference(a: string, b: string)
    ensures Less(a, b) <==> a < b || exists i :: 0 <= i < |a| && i < |b| && DiffersFirst(a, b, i) && a[i] < b[i]
  {
    if a != [] && b != [] && a[0] == b[0] {
      LessAtFirstDifference(a[1..], b[1..]);
      assert a < b <==> a[1..] < b[1..] by {
        assert a == [a[0]] + a[1..] && b == [b[0]] + b[1..];
      }
      forall i | 0 < i < |a| && i < |b|
        ensures DiffersFirst(a, b, i) <==> DiffersFirst(a[1..], b[1..], i - 1)
      {
        assert forall j | 0 < j < i :: a[j] == a[1..][j - 1] && b[j] == b[1..][j - 1];
        assert forall j | 0 <= j < i - 1 :: a[1..][j] == a[j + 1] && b[1..][j] == b[j + 1];
      }
      if i :| 0 <= i < |a[1..]| && i < |b[1..]| && DiffersFirst(a[1..], b[1..], i) && a[1..][i] < b[1..][i] {
        assert DiffersFirst(a, b, i + 1) && a[i + 1] < b[i + 1];
      }
      if i :| 0 <= i < |a| && i < |b| && DiffersFirst(a, b, i) && a[i] < b[i] {
        assert DiffersFirst(a[1..], b[1..], i - 1) && a[1..][i - 1] < b[1..][i - 1];
      }
    } else if a != [] && b != [] {
      assert DiffersFirst(a, b, 0);
    }
  }

  predicate DiffersFirst(a: string, b: string, i: nat)
    requires i < |a| && i < |b|
  {
    a[i] != b[i] && forall j | 0 <= j < i :: a[j] == b[j]
  }

  // What is ordered first by a time and then by a name: occurrences by meeting
  // start and key, authorization warnings by creation time and label.
  datatype Rank = Rank(time: nat, name: string)

  predicate Before(a: Rank, b: Rank) {
    if a.time == b.time then Less(a.name, b.name) else a.time < b.time
  }

  lemma BeforeStrict(a: Rank, b: Rank, c: Rank)
    ensures !Before(a, a)
    ensures Before(a, b) && Before(b, c) ==> Before(a, c)
    ensures Before(a, b) || a == b || Before(b, a)
    ensures !(Before(a, b) && Before(b, a))
  {
    LessIrreflexive(a.name);
    LessIrreflexive(b.name);
    LessTotal(a.name, b.name);
    if Less(a.name, b.name) && Less(b.name, c.name) {
      LessTransitive(a.name, b.name, c.name);
    }
    if Less(a.name, b.name) && Less(b.name, a.name) {
      LessTransitive(a.name, b.name, a.name);
    }
  }

  ghost predicate IsLeast(r: Rank, s: set<Rank>) {
    r in s && forall q | q in s :: q == r || Before(r, q)
  }

  lemma {:induction false} LeastExists(s: set<Rank>) returns (r: Rank)
    requires s != {}
    ensures IsLeast(r, s)
    decreases s
  {
    var q :| q in s;
    if s == {q} {
      r := q;
    } else {
      r := LeastExists(s - {q});
      BeforeStrict(q, r, q);
      if Before(q, r) {
        forall x | x in s
          ensures x == q || Before(q, x)
        {
          BeforeStrict(q, r, x);
          assert x == q || x in s - {q};
        }
        r := q;
      } else {
        forall x | x in s
          ensures x == r || Before(r, x)
        {
          assert x == q || x in s - {q};
        }
      }
    }
  }

  lemma LeastUnique(a: Rank, b: Rank, s: set<Rank>)
    requires IsLeast(a, s) && IsLeast(b, s)
    ensures a == b
  {
    BeforeStrict(a, b, a);
  }
}

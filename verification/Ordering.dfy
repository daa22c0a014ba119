/** Strings in the order Rust's `BTreeSet<String>` and `BTreeMap<String, _>`
    iterate them. Byte order of UTF-8 and order of scalar values agree. */
module Ordering {
  import opened Basics

  predicate Less(a: string, b: string) {
    if b == "" then false
    else if a == "" then true
    else a[0] < b[0] || (a[0] == b[0] && Less(a[1..], b[1..]))
  }

  lemma LessIrreflexive(a: string)
    ensures !Less(a, a)
  {
  }

  lemma {:induction false} LessTotal(a: string, b: string)
    ensures a == b || Less(a, b) || Less(b, a)
  {
    if a != "" && b != "" && a[0] == b[0] {
      LessTotal(a[1..], b[1..]);
      assert a == [a[0]] + a[1..] && b == [b[0]] + b[1..];
    }
  }

  lemma {:induction false} LessTransitive(a: string, b: string, c: string)
    requires Less(a, b) && Less(b, c)
    ensures Less(a, c)
  {
    if a != "" && a[0] == b[0] && b[0] == c[0] {
      LessTransitive(a[1..], b[1..], c[1..]);
    }
  }

  ghost predicate Ascending(xs: seq<string>) {
    forall i, j :: 0 <= i < j < |xs| ==> Less(xs[i], xs[j])
  }

  /** `xs` lists exactly the members of `s`, in ascending order. */
  ghost predicate Lists(xs: seq<string>, s: set<string>) {
    Ascending(xs) && forall x :: x in xs <==> x in s
  }

  ghost predicate IsLeast(m: string, s: set<string>) {
    m in s && forall x :: x in s ==> x == m || Less(m, x)
  }

  lemma {:induction false} LeastExists(s: set<string>)
    requires s != {}
    ensures exists m :: IsLeast(m, s)
  {
    var x :| x in s;
    if s == {x} {
      assert IsLeast(x, s);
    } else {
      LeastExists(s - {x});
      var m :| IsLeast(m, s - {x});
      LessTotal(x, m);
      if Less(x, m) {
        forall y | y in s ensures y == x || Less(x, y) {
          if y != x && y != m { LessTransitive(x, m, y); }
        }
        assert IsLeast(x, s);
      } else {
        assert IsLeast(m, s);
      }
    }
  }

  ghost function Least(s: set<string>): (m: string)
    requires s != {}
    ensures IsLeast(m, s)
  {
    LeastExists(s);
    var m :| IsLeast(m, s);
    m
  }

  /** The members of a set in iteration order. */
  ghost function Sorted(s: set<string>): seq<string> {
    if s == {} then [] else var m := Least(s); [m] + Sorted(s - {m})
  }

  lemma {:induction false} SortedLists(s: set<string>)
    ensures Lists(Sorted(s), s)
    ensures |Sorted(s)| == |s|
  {
    if s != {} {
      var m := Least(s);
      SortedLists(s - {m});
      LeastFirst(m, Sorted(s - {m}), s);
    }
  }

  lemma LeastFirst(m: string, rest: seq<string>, s: set<string>)
    requires IsLeast(m, s) && Lists(rest, s - {m})
    ensures Lists([m] + rest, s)
  {
    var xs := [m] + rest;
    forall x ensures x in xs <==> x == m || x in rest { }
    forall i, j | 0 <= i < j < |xs| ensures Less(xs[i], xs[j]) {
      assert xs[j] == rest[j - 1] && rest[j - 1] in rest;
      if i > 0 { assert xs[i] == rest[i - 1]; }
    }
  }

  /** A set has only one ascending listing. */
  lemma {:induction false} ListingIsUnique(xs: seq<string>, ys: seq<string>, s: set<string>)
    requires Lists(xs, s) && Lists(ys, s)
    ensures xs == ys
  {
    if xs == [] {
      HasMember(ys);
    } else {
      assert xs[0] in xs && xs[0] in ys;
      assert ys[0] in ys && ys[0] in xs;
      assert xs[0] == ys[0] by {
        if xs[0] != ys[0] {
          assert Less(xs[0], ys[0]) && Less(ys[0], xs[0]);
          LessTransitive(xs[0], ys[0], xs[0]);
          LessIrreflexive(xs[0]);
        }
      }
      TailLists(xs, s);
      TailLists(ys, s);
      ListingIsUnique(xs[1..], ys[1..], s - {xs[0]});
    }
  }

  lemma TailLists(xs: seq<string>, s: set<string>)
    requires Lists(xs, s) && xs != []
    ensures Lists(xs[1..], s - {xs[0]})
  {
    LessIrreflexive(xs[0]);
    assert xs == [xs[0]] + xs[1..];
    forall x | x in xs[1..] ensures x != xs[0] && Less(xs[0], x) {
      var i :| 0 <= i < |xs[1..]| && xs[1..][i] == x;
      assert Less(xs[0], xs[i + 1]);
    }
  }

  /** The ordered iteration of a `BTreeSet`: repeatedly the least member left. */
  method Iterate(s: set<string>) returns (xs: seq<string>)
    ensures xs == Sorted(s)
  {
    xs := [];
    var rest := s;
    while rest != {}
      invariant rest <= s
      invariant Lists(xs, s - rest)
      invariant forall x, y :: x in xs && y in rest ==> Less(x, y)
      decreases |rest|
    {
      var m := Minimum(rest);
      xs := xs + [m];
      rest := rest - {m};
    }
    SortedLists(s);
    ListingIsUnique(xs, Sorted(s), s);
  }

  method Minimum(s: set<string>) returns (m: string)
    requires s != {}
    ensures IsLeast(m, s)
  {
    m :| m in s;
    var rest := s - {m};
    while rest != {}
      invariant rest <= s - {m} && m in s
      invariant IsLeast(m, s - rest)
      decreases |rest|
    {
      var x :| x in rest;
      LessTotal(x, m);
      if Less(x, m) {
        forall y | y in s - (rest - {x}) ensures y == x || Less(x, y) {
          if y != x && y != m { LessTransitive(x, m, y); }
        }
        m := x;
        rest := rest - {x};
      } else {
        rest := rest - {x};
      }
    }
    assert s - {} == s;
  }
}

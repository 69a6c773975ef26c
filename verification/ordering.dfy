/** Strict orders, strictly sorted sequences, and the lexicographic order that
    Go uses for strings and for walking a file tree. */
module Ordering {

  ghost predicate Total<T(!new)>(less: (T, T) -> bool) {
    && (forall a, b :: less(a, b) ==> !less(b, a))
    && (forall a, b :: a != b ==> less(a, b) || less(b, a))
    && (forall a, b, c :: less(a, b) && less(b, c) ==> less(a, c))
  }

  ghost predicate Sorted<T>(less: (T, T) -> bool, s: seq<T>) {
    forall i, j :: 0 <= i < j < |s| ==> less(s[i], s[j])
  }

  ghost predicate SortedOf<T(!new)>(less: (T, T) -> bool, elems: set<T>, s: seq<T>) {
    Sorted(less, s) && forall x :: x in s <==> x in elems
  }

  /** One collection has at most one strictly sorted listing. */
  lemma {:induction false} SortedUnique<T(!new)>(less: (T, T) -> bool, s: seq<T>, t: seq<T>)
    requires forall a, b :: less(a, b) ==> !less(b, a)
    requires Sorted(less, s) && Sorted(less, t)
    requires forall x :: x in s <==> x in t
    ensures s == t
    decreases |s|
  {
    assert |s| > 0 ==> s[0] in t;
    assert |t| > 0 ==> t[0] in s;
    if s != [] && t != [] {
      assert s[0] == t[0];
      assert forall x :: x in s[1..] <==> x in s && x != s[0];
      assert forall x :: x in t[1..] <==> x in t && x != t[0];
      SortedUnique(less, s[1..], t[1..]);
    }
  }

  ghost function Insert<T(!new)>(less: (T, T) -> bool, x: T, s: seq<T>): (r: seq<T>)
    requires Total(less) && Sorted(less, s) && x !in s
    ensures Sorted(less, r) && forall y :: y in r <==> y == x || y in s
  {
    if s == [] || less(x, s[0]) then
      [x] + s
    else
      assert forall y :: y in s <==> y == s[0] || y in s[1..];
      var r := Insert(less, x, s[1..]);
      assert s[0] in s && less(s[0], x);
      assert forall y :: y in s[1..] ==> less(s[0], y);
      assert forall i :: 0 <= i < |r| ==> r[i] in r;
      [s[0]] + r
  }

  /** The strictly sorted listing of a finite set. */
  ghost function Listing<T(!new)>(less: (T, T) -> bool, elems: set<T>): (s: seq<T>)
    requires Total(less)
    ensures SortedOf(less, elems, s)
  {
    if elems == {} then []
    else
      var x :| x in elems;
      Insert(less, x, Listing(less, elems - {x}))
  }

  lemma ListingUnique<T(!new)>(less: (T, T) -> bool, elems: set<T>, s: seq<T>)
    requires Total(less) && SortedOf(less, elems, s)
    ensures s == Listing(less, elems)
  {
    SortedUnique(less, s, Listing(less, elems));
  }

  // ---------------------------------------------------- lexicographic order

  predicate Lex<T(==)>(less: (T, T) -> bool, a: seq<T>, b: seq<T>) {
    if b == [] then false
    else if a == [] then true
    else less(a[0], b[0]) || (a[0] == b[0] && Lex(less, a[1..], b[1..]))
  }

  lemma {:induction false} LexAsymmetric<T(!new)>(less: (T, T) -> bool, a: seq<T>, b: seq<T>)
    requires Total(less) && Lex(less, a, b)
    ensures !Lex(less, b, a)
  {
    if a != [] && a[0] == b[0] {
      LexAsymmetric(less, a[1..], b[1..]);
    }
  }

  lemma {:induction false} LexConnected<T(!new)>(less: (T, T) -> bool, a: seq<T>, b: seq<T>)
    requires Total(less) && a != b
    ensures Lex(less, a, b) || Lex(less, b, a)
  {
    if a != [] && b != [] && a[0] == b[0] {
      assert a == [a[0]] + a[1..] && b == [b[0]] + b[1..];
      LexConnected(less, a[1..], b[1..]);
    }
  }

  lemma {:induction false} LexTransitive<T(!new)>(less: (T, T) -> bool, a: seq<T>, b: seq<T>, c: seq<T>)
    requires Total(less) && Lex(less, a, b) && Lex(less, b, c)
    ensures Lex(less, a, c)
  {
    if a != [] && b != [] && c != [] && a[0] == b[0] == c[0] {
      LexTransitive(less, a[1..], b[1..], c[1..]);
    }
  }

  predicate CharLess(a: char, b: char) {
    a < b
  }

  /** Go's order on strings. */
  predicate StringLess(a: string, b: string) {
    Lex(CharLess, a, b)
  }

  lemma StringsTotal()
    ensures Total(StringLess)
  {
    forall a: string, b: string | StringLess(a, b) ensures !StringLess(b, a) {
      LexAsymmetric(CharLess, a, b);
    }
    forall a: string, b: string | a != b ensures StringLess(a, b) || StringLess(b, a) {
      LexConnected(CharLess, a, b);
    }
    forall a: string, b: string, c: string | StringLess(a, b) && StringLess(b, c)
      ensures StringLess(a, c)
    {
      LexTransitive(CharLess, a, b, c);
    }
  }

  /** The order in which a walk visits paths: parents first, siblings by name. */
  predicate PathLess(a: seq<string>, b: seq<string>) {
    Lex(StringLess, a, b)
  }

  lemma PathsTotal()
    ensures Total(PathLess)
  {
    StringsTotal();
    forall a: seq<string>, b: seq<string> | PathLess(a, b) ensures !PathLess(b, a) {
      LexAsymmetric(StringLess, a, b);
    }
    forall a: seq<string>, b: seq<string> | a != b ensures PathLess(a, b) || PathLess(b, a) {
      LexConnected(StringLess, a, b);
    }
    forall a: seq<string>, b: seq<string>, c: seq<string> | PathLess(a, b) && PathLess(b, c)
      ensures PathLess(a, c)
    {
      LexTransitive(StringLess, a, b, c);
    }
  }

  lemma {:induction false} PrefixComesFirst<T(!new)>(less: (T, T) -> bool, a: seq<T>, rest: seq<T>)
    requires rest != []
    ensures Lex(less, a, a + rest)
  {
    if a != [] {
      assert (a + rest)[1..] == a[1..] + rest;
      PrefixComesFirst(less, a[1..], rest);
    }
  }

  lemma {:induction false} SameParentSorted<T(!new)>(less: (T, T) -> bool, dir: seq<T>, a: T, b: T)
    requires less(a, b)
    ensures Lex(less, dir + [a], dir + [b])
  {
    if dir != [] {
      assert (dir + [a])[1..] == dir[1..] + [a] && (dir + [b])[1..] == dir[1..] + [b];
      SameParentSorted(less, dir[1..], a, b);
    }
  }

  // --------------------------------------------------------------- sorting

  /** The elements of a set, in whatever order iteration gives them. */
  method Elements<T(==)>(s: set<T>) returns (items: seq<T>)
    ensures forall i, j :: 0 <= i < j < |items| ==> items[i] != items[j]
    ensures forall x :: x in items <==> x in s
  {
    items := [];
    var rest := s;
    while rest != {}
      invariant rest <= s
      invariant forall i, j :: 0 <= i < j < |items| ==> items[i] != items[j]
      invariant forall x :: x in items <==> x in s && x !in rest
      decreases rest
    {
      var x :| x in rest;
      items := items + [x];
      rest := rest - {x};
    }
  }

  /** Sorts distinct items, as Go's `sort` does. */
  method SortDistinct<T(==,!new)>(less: (T, T) -> bool, items: seq<T>) returns (sorted: seq<T>)
    requires Total(less)
    requires forall i, j :: 0 <= i < j < |items| ==> items[i] != items[j]
    ensures Sorted(less, sorted)
    ensures forall x :: x in sorted <==> x in items
  {
    sorted := [];
    for n := 0 to |items|
      invariant Sorted(less, sorted)
      invariant forall x :: x in sorted <==> x in items[..n]
    {
      var x := items[n];
      var at := 0;
      while at < |sorted| && less(sorted[at], x)
        invariant 0 <= at <= |sorted|
        invariant forall i :: 0 <= i < at ==> less(sorted[i], x)
      {
        at := at + 1;
      }
      assert x !in items[..n];
      InsertedAt(less, sorted, x, at);
      assert items[..n + 1] == items[..n] + [x];
      hide Total, Sorted;
      sorted := sorted[..at] + [x] + sorted[at..];
    }
    assert items[..|items|] == items;
  }

  /** A new item put before the first that does not come before it. */
  lemma InsertedAt<T(!new)>(less: (T, T) -> bool, sorted: seq<T>, x: T, at: nat)
    requires Total(less) && Sorted(less, sorted) && at <= |sorted| && x !in sorted
    requires forall i :: 0 <= i < at ==> less(sorted[i], x)
    requires at < |sorted| ==> !less(sorted[at], x)
    ensures var all := sorted[..at] + [x] + sorted[at..];
      Sorted(less, all) && forall y :: y in all <==> y in sorted || y == x
  {
    if at < |sorted| {
      assert sorted[at] in sorted;
      assert less(x, sorted[at]);
    }
    assert forall i :: at <= i < |sorted| ==> less(x, sorted[i]);
    assert sorted == sorted[..at] + sorted[at..];
  }
}

/** Python's ordering of `str` and the duplicate-free sorted tuples built from it. */
module Ordering {

  /** `a < b` on strings: code point by code point, a proper prefix first. */
  predicate Before(a: string, b: string) {
    if b == "" then false
    else if a == "" then true
    else a[0] < b[0] || (a[0] == b[0] && Before(a[1..], b[1..]))
  }

  predicate Ascending(xs: seq<string>) {
    forall i, j :: 0 <= i < j < |xs| ==> Before(xs[i], xs[j])
  }

  lemma {:induction false} BeforeIsStrict(a: string, b: string)
    ensures Before(a, b) ==> !Before(b, a) && a != b
  {
    if a != "" && b != "" {
      BeforeIsStrict(a[1..], b[1..]);
    }
  }

  lemma {:induction false} BeforeIsTotal(a: string, b: string)
    ensures a == b || Before(a, b) || Before(b, a)
  {
    if a != "" && b != "" && a[0] == b[0] {
      BeforeIsTotal(a[1..], b[1..]);
      assert a == [a[0]] + a[1..];
      assert b == [b[0]] + b[1..];
    }
  }

  lemma {:induction false} BeforeIsTransitive(a: string, b: string, c: string)
    requires Before(a, b) && Before(b, c)
    ensures Before(a, c)
  {
    if a != "" && a[0] == b[0] && b[0] == c[0] {
      BeforeIsTransitive(a[1..], b[1..], c[1..]);
    }
  }

  /** One element put at its place; an element already there is not repeated. */
  function Insert(x: string, xs: seq<string>): (r: seq<string>)
    requires Ascending(xs)
    ensures Ascending(r)
    ensures forall y :: y in r <==> y == x || y in xs
  {
    if xs == [] then [x]
    else if x == xs[0] then xs
    else if Before(x, xs[0]) then
      assert Ascending([x] + xs) by {
        forall i | 0 <= i < |xs| ensures Before(x, xs[i]) {
          if i > 0 { BeforeIsTransitive(x, xs[0], xs[i]); }
        }
      }
      [x] + xs
    else
      BeforeIsTotal(x, xs[0]);
      assert xs == [xs[0]] + xs[1..];
      var rest := Insert(x, xs[1..]);
      assert forall j :: 0 <= j < |rest| ==> rest[j] in rest;
      [xs[0]] + rest
  }

  /** `sorted(set(xs))`. */
  function SortedSet(xs: seq<string>): (r: seq<string>)
    ensures Ascending(r)
    ensures forall y :: y in r <==> y in xs
  {
    if xs == [] then []
    else
      assert xs == [xs[0]] + xs[1..];
      Insert(xs[0], SortedSet(xs[1..]))
  }

  /** Sorting a tuple that is already sorted and free of duplicates changes nothing. */
  lemma {:induction false} SortedSetKeepsAscending(xs: seq<string>)
    requires Ascending(xs)
    ensures SortedSet(xs) == xs
  {
    if xs != [] {
      SortedSetKeepsAscending(xs[1..]);
      if |xs| > 1 { BeforeIsStrict(xs[0], xs[1]); }
    }
  }

  /** The elements of an ascending tuple are pairwise different. */
  lemma AscendingIsDistinct(xs: seq<string>, i: nat, j: nat)
    requires Ascending(xs) && i < j < |xs|
    ensures xs[i] != xs[j]
  {
    BeforeIsStrict(xs[i], xs[j]);
  }
}

/** The `/suggest` endpoint of the Flask back end: the deduplicated list of
    city names read from the `city` column, and the case-insensitive prefix
    filter applied to it. */
module CitySuggest {
  import opened Wrappers

  /** Lower-casing of one character. Only the ASCII letters are mapped; the
      rest of Python's Unicode `str.lower` table is not part of this model. */
  function LowerChar(c: char): (r: char)
    ensures 'A' <= c <= 'Z' ==> 'a' <= r <= 'z' && r as int - c as int == 32
    ensures !('A' <= c <= 'Z') ==> r == c
  {
    if 'A' <= c <= 'Z' then (c as int + 32) as char else c
  }

  /** `s.lower()`: same length, each character lower-cased in place. */
  function Lower(s: string): (r: string)
    ensures |r| == |s|
    ensures forall k :: 0 <= k < |s| ==> r[k] == LowerChar(s[k])
  {
    if s == [] then [] else [LowerChar(s[0])] + Lower(s[1..])
  }

  /** `s.startswith(prefix)`: `s` is at least as long as `prefix` and its
      first `|prefix|` characters are `prefix`. */
  predicate StartsWith(s: string, prefix: string)
    ensures StartsWith(s, prefix) <==> |prefix| <= |s| && s[..|prefix|] == prefix
  {
    prefix <= s
  }

  /** No value occurs twice in `xs`. */
  predicate NoDuplicates<T(==)>(xs: seq<T>) {
    forall i, j :: 0 <= i < j < |xs| ==> xs[i] != xs[j]
  }

  /** `xs` can be obtained from `ys` by deleting elements: the order of what
      is kept is the order in `ys`. */
  predicate IsSubsequence<T(==)>(xs: seq<T>, ys: seq<T>)
    decreases |ys|
  {
    if xs == [] then true
    else if ys == [] then false
    else (xs[0] == ys[0] && IsSubsequence(xs[1..], ys[1..])) || IsSubsequence(xs, ys[1..])
  }

  /** The position of the first occurrence of `x` in `xs`. */
  function FirstIndex<T(==)>(xs: seq<T>, x: T): (k: nat)
    requires x in xs
    ensures k < |xs| && xs[k] == x
    ensures forall i :: 0 <= i < k ==> xs[i] != x
  {
    if xs[0] == x then 0 else 1 + FirstIndex(xs[1..], x)
  }

  /** The elements of `r` all occur in `xs` and come in the order of their
      first occurrences there. */
  predicate InFirstOccurrenceOrder<T(==)>(r: seq<T>, xs: seq<T>) {
    && (forall k :: 0 <= k < |r| ==> r[k] in xs)
    && (forall i, j :: 0 <= i < j < |r| ==> FirstIndex(xs, r[i]) < FirstIndex(xs, r[j]))
  }

  /** Each name as a present cell. */
  function Wrap(names: seq<string>): (r: seq<Option<string>>)
    ensures |r| == |names|
    ensures forall k :: 0 <= k < |names| ==> r[k] == Some(names[k])
  {
    seq(|names|, k requires 0 <= k < |names| => Some(names[k]))
  }

  /** The number of present cells of a column. */
  function PresentCount(column: seq<Option<string>>): nat {
    if column == [] then 0
    else (if column[0].Some? then 1 else 0) + PresentCount(column[1..])
  }

  // ---------------------------------------------------------------------
  // CITIES: the present names of the city column, each kept once
  // ---------------------------------------------------------------------

  /** `Series.dropna()` on the `city` column: a missing cell is `None`.
      Every present cell is kept, in column order, and nothing else: the
      kept names, as cells, are a subsequence of the column as long as the
      number of present cells. */
  function DropNa(column: seq<Option<string>>): (r: seq<string>)
    ensures |r| == PresentCount(column) <= |column|
    ensures IsSubsequence(Wrap(r), column)
    ensures forall x :: x in r <==> Some(x) in column
  {
    if column == [] then []
    else if column[0].None? then
      var rest := DropNa(column[1..]);
      SubsequenceOfTail(Wrap(rest), column);
      rest
    else
      var rest := DropNa(column[1..]);
      assert Wrap([column[0].value] + rest)[1..] == Wrap(rest);
      [column[0].value] + rest
  }

  /** `Series.unique()`: keeps each value at its first occurrence, skipping
      values already in `seen`; the values kept come in the order of their
      first occurrences in `xs`. */
  function UniqueAfter(xs: seq<string>, seen: set<string>): (r: seq<string>)
    ensures NoDuplicates(r)
    ensures forall x :: x in r <==> x in xs && x !in seen
    ensures IsSubsequence(r, xs)
    ensures InFirstOccurrenceOrder(r, xs)
  {
    if xs == [] then []
    else if xs[0] in seen then
      var rest := UniqueAfter(xs[1..], seen);
      SubsequenceOfTail(rest, xs);
      OrderSkippingHead(rest, xs);
      rest
    else
      var rest := UniqueAfter(xs[1..], seen + {xs[0]});
      assert IsSubsequence([xs[0]] + rest, xs) by {
        assert ([xs[0]] + rest)[1..] == rest;
      }
      OrderKeepingHead(rest, xs);
      [xs[0]] + rest
  }

  /** `Series.unique()`: every value once, in order of first appearance. */
  function Unique(xs: seq<string>): (r: seq<string>)
    ensures NoDuplicates(r)
    ensures forall x :: x in r <==> x in xs
    ensures IsSubsequence(r, xs)
    ensures InFirstOccurrenceOrder(r, xs)
  {
    UniqueAfter(xs, {})
  }

  /** `CITIES`: the present names of the column, each once, in the order in
      which they first appear in the column. */
  function Cities(column: seq<Option<string>>): (r: seq<string>)
    ensures NoDuplicates(r)
    ensures forall x :: x in r <==> Some(x) in column
    ensures InFirstOccurrenceOrder(Wrap(r), column)
  {
    var names := DropNa(column);
    var r := Unique(names);
    forall i, j | 0 <= i < j < |r|
      ensures FirstIndex(column, Some(r[i])) < FirstIndex(column, Some(r[j]))
    {
      DropNaKeepsFirstOrder(column, r[i], r[j]);
    }
    assert InFirstOccurrenceOrder(Wrap(r), column);
    r
  }

  // ---------------------------------------------------------------------
  // The /suggest handler: the case-insensitive prefix filter
  // ---------------------------------------------------------------------

  /** The list comprehension: the cities whose lower-cased form starts with
      `query` (already lower-cased), in list order. Sound and complete. */
  function FilterByPrefix(cities: seq<string>, query: string): (r: seq<string>)
    ensures |r| <= |cities|
    ensures forall c :: c in r ==> c in cities && StartsWith(Lower(c), query)
    ensures forall c :: c in cities && StartsWith(Lower(c), query) ==> c in r
  {
    if cities == [] then []
    else if StartsWith(Lower(cities[0]), query) then [cities[0]] + FilterByPrefix(cities[1..], query)
    else FilterByPrefix(cities[1..], query)
  }

  /** The `/suggest` handler: `q` is the request's `q` argument, absent when
      the request has none, and then counts as "". Sound and complete: a city
      is suggested exactly when its lower-cased form starts with the
      lower-cased query. */
  function Suggest(cities: seq<string>, q: Option<string>): (r: seq<string>)
    ensures forall c :: c in r <==> c in cities && StartsWith(Lower(c), Lower(q.GetOr("")))
  {
    FilterByPrefix(cities, Lower(q.GetOr("")))
  }

  // ---------------------------------------------------------------------
  // Properties
  // ---------------------------------------------------------------------

  /** Dropping the head of the longer sequence keeps a subsequence relation. */
  lemma {:induction false} SubsequenceOfTail<T>(xs: seq<T>, ys: seq<T>)
    requires ys != [] && IsSubsequence(xs, ys[1..])
    ensures IsSubsequence(xs, ys)
  {
  }

  /** Names that first appear in one order after `dropna()` first appear in
      that order as cells of the column. */
  lemma {:induction false} DropNaKeepsFirstOrder(column: seq<Option<string>>, x: string, y: string)
    requires x in DropNa(column) && y in DropNa(column)
    requires FirstIndex(DropNa(column), x) < FirstIndex(DropNa(column), y)
    ensures Some(x) in column && Some(y) in column
    ensures FirstIndex(column, Some(x)) < FirstIndex(column, Some(y))
  {
    var names := DropNa(column);
    var tail := DropNa(column[1..]);
    if column[0].None? {
      assert names == tail;
      DropNaKeepsFirstOrder(column[1..], x, y);
      assert FirstIndex(column, Some(x)) == 1 + FirstIndex(column[1..], Some(x));
      assert FirstIndex(column, Some(y)) == 1 + FirstIndex(column[1..], Some(y));
    } else {
      var v := column[0].value;
      assert names == [v] + tail;
      assert names[0] == v && names[1..] == tail;
      var kx, ky := FirstIndex(names, x), FirstIndex(names, y);
      assert names[ky] == y && 0 < ky;
      assert y != v;
      assert y in tail;
      assert FirstIndex(column, Some(y)) == 1 + FirstIndex(column[1..], Some(y));
      if x == v {
        assert FirstIndex(column, Some(x)) == 0;
      } else {
        assert x in tail;
        assert FirstIndex(names, x) == 1 + FirstIndex(tail, x);
        assert FirstIndex(names, y) == 1 + FirstIndex(tail, y);
        DropNaKeepsFirstOrder(column[1..], x, y);
        assert FirstIndex(column, Some(x)) == 1 + FirstIndex(column[1..], Some(x));
      }
    }
  }

  /** Values other than the head keep their first-occurrence order when the
      head is put back. */
  lemma OrderSkippingHead<T>(r: seq<T>, xs: seq<T>)
    requires xs != [] && xs[0] !in r && InFirstOccurrenceOrder(r, xs[1..])
    ensures InFirstOccurrenceOrder(r, xs)
  {
    forall k | 0 <= k < |r| ensures r[k] in xs && FirstIndex(xs, r[k]) == 1 + FirstIndex(xs[1..], r[k]) {
      assert r[k] in xs[1..];
      var m := FirstIndex(xs[1..], r[k]);
      assert xs[m + 1] == r[k];
    }
  }

  /** The head of `xs` comes first in first-occurrence order. */
  lemma OrderKeepingHead<T>(rest: seq<T>, xs: seq<T>)
    requires xs != [] && xs[0] !in rest && InFirstOccurrenceOrder(rest, xs[1..])
    ensures InFirstOccurrenceOrder([xs[0]] + rest, xs)
  {
    OrderSkippingHead(rest, xs);
    var r := [xs[0]] + rest;
    forall k | 0 <= k < |r| ensures r[k] in xs {
      if 0 < k { assert r[k] == rest[k - 1]; }
    }
    forall i, j | 0 <= i < j < |r| ensures FirstIndex(xs, r[i]) < FirstIndex(xs, r[j]) {
      assert r[j] == rest[j - 1];
      if 0 < i {
        assert r[i] == rest[i - 1];
      } else {
        assert FirstIndex(xs, r[i]) == 0;
      }
    }
  }

  /** A subsequence is no longer than the sequence it is taken from. */
  lemma {:induction false} SubsequenceLength<T>(xs: seq<T>, ys: seq<T>)
    requires IsSubsequence(xs, ys)
    ensures |xs| <= |ys|
    decreases |ys|
  {
    if xs != [] {
      if xs[0] == ys[0] && IsSubsequence(xs[1..], ys[1..]) {
        SubsequenceLength(xs[1..], ys[1..]);
      } else {
        SubsequenceLength(xs, ys[1..]);
      }
    }
  }

  /** Every element of a subsequence is an element of the whole. */
  lemma {:induction false} SubsequenceMembers<T>(xs: seq<T>, ys: seq<T>, x: T)
    requires IsSubsequence(xs, ys) && x in xs
    ensures x in ys
    decreases |ys|
  {
    if xs[0] == ys[0] && IsSubsequence(xs[1..], ys[1..]) {
      if x != xs[0] {
        SubsequenceMembers(xs[1..], ys[1..], x);
      }
    } else {
      SubsequenceMembers(xs, ys[1..], x);
    }
  }

  /** A subsequence of a duplicate-free sequence is duplicate-free. */
  lemma {:induction false} SubsequenceNoDuplicates<T>(xs: seq<T>, ys: seq<T>)
    requires IsSubsequence(xs, ys) && NoDuplicates(ys)
    ensures NoDuplicates(xs)
    decreases |ys|
  {
    if xs != [] {
      assert NoDuplicates(ys[1..]) by {
        forall i, j | 0 <= i < j < |ys[1..]| ensures ys[1..][i] != ys[1..][j] {
          assert ys[1..][i] == ys[i + 1] && ys[1..][j] == ys[j + 1];
        }
      }
      if xs[0] == ys[0] && IsSubsequence(xs[1..], ys[1..]) {
        SubsequenceNoDuplicates(xs[1..], ys[1..]);
        forall j | 0 < j < |xs| ensures xs[0] != xs[j] {
          SubsequenceMembers(xs[1..], ys[1..], xs[j]);
        }
        forall i, j | 0 <= i < j < |xs| ensures xs[i] != xs[j] {
          if 0 < i {
            assert xs[i] == xs[1..][i - 1] && xs[j] == xs[1..][j - 1];
          }
        }
      } else {
        SubsequenceNoDuplicates(xs, ys[1..]);
      }
    }
  }

  /** The suggestions keep the order of `cities`: they are a subsequence of
      it, hence no more numerous. */
  lemma {:induction false} FilterIsSubsequence(cities: seq<string>, query: string)
    ensures IsSubsequence(FilterByPrefix(cities, query), cities)
    ensures |FilterByPrefix(cities, query)| <= |cities|
  {
    var r := FilterByPrefix(cities, query);
    if cities != [] {
      FilterIsSubsequence(cities[1..], query);
      if StartsWith(Lower(cities[0]), query) {
        assert r[1..] == FilterByPrefix(cities[1..], query);
      } else {
        SubsequenceOfTail(r, cities);
      }
    }
    SubsequenceLength(r, cities);
  }

  /** An empty prefix keeps every city. */
  lemma {:induction false} FilterEmptyPrefix(cities: seq<string>)
    ensures FilterByPrefix(cities, "") == cities
  {
    if cities != [] {
      FilterEmptyPrefix(cities[1..]);
    }
  }

  /** A request without `q` (or with `q=`) returns all of `CITIES`, in order. */
  lemma MissingQueryReturnsAll(cities: seq<string>)
    ensures Suggest(cities, None) == cities
    ensures Suggest(cities, Some("")) == cities
  {
    FilterEmptyPrefix(cities);
  }

  /** The suggestion list drawn from `CITIES` has no duplicates, keeps the
      order of `CITIES` and names only present cells of the column. */
  lemma SuggestionsFromCities(column: seq<Option<string>>, q: Option<string>)
    ensures NoDuplicates(Suggest(Cities(column), q))
    ensures IsSubsequence(Suggest(Cities(column), q), Cities(column))
    ensures forall c :: c in Suggest(Cities(column), q) ==> Some(c) in column
  {
    var cities := Cities(column);
    FilterIsSubsequence(cities, Lower(q.GetOr("")));
    SubsequenceNoDuplicates(Suggest(cities, q), cities);
  }
}

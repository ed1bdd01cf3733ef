/** Sequence helpers shared by the ledger and the pages: `find`, `filter`, distinct keys. */
module Seqs {
  import opened Types

  /** The index of the first occurrence of `x`, as `Array.prototype.findIndex` finds it. */
  function IndexOf<T(==)>(s: seq<T>, x: T): (r: Option<nat>)
    ensures r.Some? ==> r.value < |s| && s[r.value] == x && x !in s[..r.value]
    ensures r.None? <==> x !in s
  {
    if |s| == 0 then None
    else if s[0] == x then Some(0)
    else
      match IndexOf(s[1..], x)
      case None => None
      case Some(k) =>
        assert s[1..][..k] == s[1..k + 1];
        assert s[..k + 1] == [s[0]] + s[1..k + 1];
        Some(k + 1)
  }

  ghost predicate Distinct<T>(s: seq<T>) {
    forall i, j :: 0 <= i < j < |s| ==> s[i] != s[j]
  }

  /** With distinct keys, the first occurrence of the key at `i` is `i` itself. */
  lemma DistinctIndexOf<T>(s: seq<T>, i: nat)
    requires Distinct(s) && i < |s|
    ensures IndexOf(s, s[i]) == Some(i)
  {
    var k := IndexOf(s, s[i]).value;
    assert forall j :: 0 <= j < k ==> s[..k][j] == s[j];
  }

  /** `r` is obtained from `s` by deleting elements, keeping the order of the rest. */
  ghost predicate SubsequenceOf<T>(r: seq<T>, s: seq<T>)
    decreases |s|
  {
    if |r| == 0 then true
    else if |s| == 0 then false
    else (r[0] == s[0] && SubsequenceOf(r[1..], s[1..])) || SubsequenceOf(r, s[1..])
  }

  /** `Array.prototype.filter`. */
  function Filter<T(!new)>(s: seq<T>, p: T -> bool): (r: seq<T>)
    ensures |r| <= |s|
    ensures forall x :: x in r <==> x in s && p(x)
    ensures SubsequenceOf(r, s)
    ensures (forall x :: x in s ==> p(x)) ==> r == s
  {
    if |s| == 0 then []
    else
      var rest := Filter(s[1..], p);
      assert s == [s[0]] + s[1..];
      if p(s[0]) then
        var r := [s[0]] + rest;
        assert r[1..] == rest;
        r
      else
        rest
  }

  /** `filter` keeps each passing element as many times as it occurs, and drops every other. */
  lemma {:induction false} FilterCount<T(!new)>(s: seq<T>, p: T -> bool)
    ensures forall x :: multiset(Filter(s, p))[x] == if p(x) then multiset(s)[x] else 0
  {
    if |s| > 0 {
      FilterCount(s[1..], p);
      assert s == [s[0]] + s[1..];
      assert multiset(s) == multiset([s[0]]) + multiset(s[1..]);
    }
  }

  /** Filters by two predicates that agree on every element give the same result. */
  lemma {:induction false} FilterCongruent<T(!new)>(s: seq<T>, p: T -> bool, q: T -> bool)
    requires forall x :: x in s ==> p(x) == q(x)
    ensures Filter(s, p) == Filter(s, q)
  {
    if |s| > 0 {
      assert forall x :: x in s[1..] ==> x in s;
      FilterCongruent(s[1..], p, q);
    }
  }

  /** Filtering a list with a given head. */
  lemma FilterCons<T(!new)>(a: T, r: seq<T>, p: T -> bool)
    ensures Filter([a] + r, p) == (if p(a) then [a] else []) + Filter(r, p)
  {
    assert ([a] + r)[0] == a && ([a] + r)[1..] == r;
  }

  /** Filtering distributes over appending one element. */
  lemma {:induction false} FilterAppend<T(!new)>(s: seq<T>, x: T, p: T -> bool)
    ensures Filter(s + [x], p) == Filter(s, p) + (if p(x) then [x] else [])
  {
    if |s| == 0 {
      assert s + [x] == [x] + [];
      FilterCons(x, [], p);
    } else {
      var a, r := s[0], s[1..];
      var head := if p(a) then [a] else [];
      var tail := if p(x) then [x] else [];
      calc {
        Filter(s + [x], p);
        { assert s + [x] == [a] + (r + [x]); }
        Filter([a] + (r + [x]), p);
        { FilterCons(a, r + [x], p); }
        head + Filter(r + [x], p);
        { FilterAppend(r, x, p); }
        head + (Filter(r, p) + tail);
        (head + Filter(r, p)) + tail;
        { FilterCons(a, r, p); assert [a] + r == s; }
        Filter(s, p) + tail;
      }
    }
  }

}

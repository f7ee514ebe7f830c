/**
 * Order-preserving filtering and element-wise mapping of sequences, with the
 * facts the column normalisation needs: a filter keeps a subsequence, keeps
 * exactly the occurrences it is asked to keep, and commutes with a map.
 */
module Seqs {

  /** `sub` can be obtained from `s` by deleting elements, keeping the order. */
  predicate IsSubsequence<T(==)>(sub: seq<T>, s: seq<T>)
    decreases |s|
  {
    sub == [] ||
    (s != [] && ((sub[0] == s[0] && IsSubsequence(sub[1..], s[1..])) || IsSubsequence(sub, s[1..])))
  }

  function Map<T, U>(f: T -> U, s: seq<T>): (r: seq<U>)
    ensures |r| == |s|
    ensures forall i :: 0 <= i < |s| ==> r[i] == f(s[i])
  {
    seq(|s|, i requires 0 <= i < |s| => f(s[i]))
  }

  /** The elements of `s` satisfying `keep`, in their original order. */
  function Filter<T>(keep: T -> bool, s: seq<T>): (r: seq<T>)
    ensures |r| <= |s|
    ensures forall i :: 0 <= i < |r| ==> keep(r[i]) && r[i] in s
  {
    if s == [] then []
    else if keep(s[0]) then [s[0]] + Filter(keep, s[1..])
    else Filter(keep, s[1..])
  }

  lemma {:induction false} FilterIsSubsequence<T>(keep: T -> bool, s: seq<T>)
    ensures IsSubsequence(Filter(keep, s), s)
  {
    if s != [] {
      FilterIsSubsequence(keep, s[1..]);
      var r := Filter(keep, s);
      if keep(s[0]) {
        assert r[0] == s[0] && r[1..] == Filter(keep, s[1..]);
      }
    }
  }

  /** Every occurrence of a kept value survives, every other value disappears. */
  lemma {:induction false} FilterCounts<T>(keep: T -> bool, s: seq<T>)
    ensures forall x :: multiset(Filter(keep, s))[x] == if keep(x) then multiset(s)[x] else 0
  {
    if s != [] {
      FilterCounts(keep, s[1..]);
      assert s == [s[0]] + s[1..];
      assert multiset(s) == multiset{s[0]} + multiset(s[1..]);
    }
  }

  /** A filter that keeps every element changes nothing. */
  lemma {:induction false} FilterKeepsAll<T>(keep: T -> bool, s: seq<T>)
    requires forall i :: 0 <= i < |s| ==> keep(s[i])
    ensures Filter(keep, s) == s
  {
    if s != [] {
      FilterKeepsAll(keep, s[1..]);
      assert s == [s[0]] + s[1..];
    }
  }

  /** Filtering on a property of `f(x)` and then mapping `f` is mapping and then filtering. */
  lemma {:induction false} MapFilterCommute<T, U>(f: T -> U, keepU: U -> bool, keepT: T -> bool, s: seq<T>)
    requires forall x :: keepT(x) == keepU(f(x))
    ensures Map(f, Filter(keepT, s)) == Filter(keepU, Map(f, s))
  {
    if s != [] {
      MapFilterCommute(f, keepU, keepT, s[1..]);
      assert Map(f, s)[1..] == Map(f, s[1..]);
      if keepT(s[0]) {
        assert Map(f, Filter(keepT, s)) == [f(s[0])] + Map(f, Filter(keepT, s[1..]));
      }
    }
  }
}

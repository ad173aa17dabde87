/**
 * The two iterator pipelines the storage layer uses, `into_iter().filter(..).collect()`
 * and `into_iter().map(..).collect()`, as functions over sequences.
 */
module Seqs {

  /** `sub` is what remains of `s` after deleting some of its elements; the rest keep their order. */
  ghost predicate IsSubsequence<T>(sub: seq<T>, s: seq<T>)
    decreases |s|
  {
    if |sub| == 0 then true
    else if |s| == 0 then false
    else (sub[0] == s[0] && IsSubsequence(sub[1..], s[1..])) || IsSubsequence(sub, s[1..])
  }

  /** Deleting nothing is a way of deleting some elements. */
  lemma {:induction false} SubsequenceOfItself<T>(s: seq<T>)
    ensures IsSubsequence(s, s)
  {
    if |s| > 0 {
      SubsequenceOfItself(s[1..]);
    }
  }

  /**
   * `filter(keep).collect()`: the elements of `s` that satisfy `keep`, in their
   * original order, each kept as many times as it occurs in `s` and none altered.
   */
  function Filter<T(!new)>(s: seq<T>, keep: T -> bool): (r: seq<T>)
    ensures IsSubsequence(r, s)
    ensures forall x :: multiset(r)[x] == if keep(x) then multiset(s)[x] else 0
    ensures forall x :: x in r <==> x in s && keep(x)
  {
    if |s| == 0 then []
    else
      var rest := Filter(s[1..], keep);
      assert s == [s[0]] + s[1..];
      if keep(s[0]) then [s[0]] + rest else rest
  }

  /** `map(f).collect()`: one image per element, position by position. */
  function Map<T, U>(s: seq<T>, f: T -> U): (r: seq<U>)
    ensures |r| == |s|
    ensures forall i :: 0 <= i < |s| ==> r[i] == f(s[i])
  {
    if |s| == 0 then [] else [f(s[0])] + Map(s[1..], f)
  }

  /** Keeping everything keeps the sequence as it is. */
  lemma {:induction false} FilterKeepsAll<T(!new)>(s: seq<T>, keep: T -> bool)
    requires forall x :: x in s ==> keep(x)
    ensures Filter(s, keep) == s
  {
    if |s| > 0 {
      assert keep(s[0]) by { assert s[0] in s; }
      forall x | x in s[1..]
        ensures keep(x)
      {
        assert x in s;
      }
      FilterKeepsAll(s[1..], keep);
      assert Filter(s, keep) == [s[0]] + Filter(s[1..], keep);
      assert s == [s[0]] + s[1..];
    }
  }

  /**
   * `filter(keep).collect().first()`: when `k` is the first position whose element
   * satisfies `keep`, the filtered sequence is non-empty and starts with `s[k]`.
   */
  lemma {:induction false} FilterHeadIsFirstMatch<T(!new)>(s: seq<T>, keep: T -> bool, k: nat)
    requires k < |s| && keep(s[k])
    requires forall j :: 0 <= j < k ==> !keep(s[j])
    ensures |Filter(s, keep)| > 0 && Filter(s, keep)[0] == s[k]
  {
    if k == 0 {
      assert Filter(s, keep) == [s[0]] + Filter(s[1..], keep);
    } else {
      assert !keep(s[0]);
      assert Filter(s, keep) == Filter(s[1..], keep);
      FilterHeadIsFirstMatch(s[1..], keep, k - 1);
    }
  }
}

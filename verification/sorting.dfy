/** Ascending sort of dice values, standing in for the stable `OrderBy`
    the original applies before dropping the lowest dice. */
module Sorting {

  predicate Sorted(s: seq<int>) {
    forall i, j :: 0 <= i < j < |s| ==> s[i] <= s[j]
  }

  /** `x` placed before the first element of `s` that is not below it. */
  function Insert(x: int, s: seq<int>): (r: seq<int>)
    ensures |r| == |s| + 1
  {
    if |s| == 0 then [x]
    else if x <= s[0] then [x] + s
    else [s[0]] + Insert(x, s[1..])
  }

  /** Inserting into a sorted sequence keeps it sorted and adds exactly
      `x`. */
  lemma {:induction false} InsertFacts(x: int, s: seq<int>)
    requires Sorted(s)
    ensures Sorted(Insert(x, s))
    ensures multiset(Insert(x, s)) == multiset(s) + multiset{x}
  {
    if |s| == 0 {
      assert Insert(x, s) == [x];
    } else if x <= s[0] {
      assert Insert(x, s) == [x] + s;
      PrependSmallest(x, s);
    } else {
      var tail := Insert(x, s[1..]);
      InsertFacts(x, s[1..]);
      assert Insert(x, s) == [s[0]] + tail;
      assert s == [s[0]] + s[1..];
      HeadBelow(s[0], s[1..], x, tail);
    }
  }

  lemma PrependSmallest(x: int, s: seq<int>)
    requires Sorted(s) && |s| > 0 && x <= s[0]
    ensures Sorted([x] + s)
  {
    var r := [x] + s;
    forall i, j | 0 <= i < j < |r| ensures r[i] <= r[j] {
      if i > 0 {
        assert r[i] == s[i - 1] && r[j] == s[j - 1];
      } else {
        assert r[j] == s[j - 1] && s[0] <= s[j - 1];
      }
    }
  }

  /** Putting `h` in front of `t` keeps it sorted when `h` is at most
      every element of `t`, which holds when `t` rearranges a sorted
      sequence headed by `h` plus a larger `x`. */
  lemma HeadBelow(h: int, rest: seq<int>, x: int, t: seq<int>)
    requires Sorted([h] + rest) && h < x && Sorted(t)
    requires multiset(t) == multiset(rest) + multiset{x}
    ensures Sorted([h] + t)
  {
    forall k | 0 <= k < |t| ensures h <= t[k] {
      assert t[k] in multiset(t);
      if t[k] != x {
        assert t[k] in multiset(rest);
        var i :| 0 <= i < |rest| && rest[i] == t[k];
        assert ([h] + rest)[0] == h && ([h] + rest)[i + 1] == rest[i];
      }
    }
    var r := [h] + t;
    forall i, j | 0 <= i < j < |r| ensures r[i] <= r[j] {
      if i > 0 {
        assert r[i] == t[i - 1] && r[j] == t[j - 1];
      } else {
        assert r[j] == t[j - 1];
      }
    }
  }

  /** Insertion sort. */
  function Sort(s: seq<int>): (r: seq<int>)
    ensures |r| == |s|
  {
    if |s| == 0 then [] else Insert(s[0], Sort(s[1..]))
  }

  /** `Sort` returns an ascending permutation of its input. */
  lemma {:induction false} SortFacts(s: seq<int>)
    ensures Sorted(Sort(s))
    ensures multiset(Sort(s)) == multiset(s)
  {
    if |s| > 0 {
      SortFacts(s[1..]);
      InsertFacts(s[0], Sort(s[1..]));
      assert s == [s[0]] + s[1..];
    }
  }

  /** In a sorted sequence every element of a prefix is at most every
      element of the matching suffix. */
  lemma SplitOrdered(s: seq<int>, k: nat)
    requires Sorted(s) && k <= |s|
    ensures forall a, b :: a in s[..k] && b in s[k..] ==> a <= b
  {
    forall a, b | a in s[..k] && b in s[k..] ensures a <= b {
      var i :| 0 <= i < k && s[..k][i] == a;
      var j :| 0 <= j < |s| - k && s[k..][j] == b;
      assert s[i] == a && s[k + j] == b;
    }
  }
}

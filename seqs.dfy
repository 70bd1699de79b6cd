/** Sequence operations shared by the core: `Array.prototype.filter` and the
    stable `Array.prototype.sort` (stable since ECMAScript 2019), with a
    comparator that compares one integer key. */
module Seqs {

  // ---------------------------------------------------------------------
  // filter

  /** `s.filter(p)`: the elements satisfying `p`, in their original order. */
  function Filter<T>(s: seq<T>, p: T -> bool): (r: seq<T>)
    ensures |r| <= |s|
    decreases |s|
  {
    if s == [] then []
    else Filter(s[..|s| - 1], p) + (if p(s[|s| - 1]) then [s[|s| - 1]] else [])
  }

  lemma {:induction false} FilterConcat<T>(a: seq<T>, b: seq<T>, p: T -> bool)
    ensures Filter(a + b, p) == Filter(a, p) + Filter(b, p)
    decreases |b|
  {
    if b == [] {
      assert a + b == a;
    } else {
      assert (a + b)[..|a + b| - 1] == a + b[..|b| - 1];
      FilterConcat(a, b[..|b| - 1], p);
    }
  }

  /** An element is kept exactly when it is in the input and satisfies `p`. */
  lemma {:induction false} FilterMembers<T>(s: seq<T>, p: T -> bool, x: T)
    ensures x in Filter(s, p) <==> x in s && p(x)
    decreases |s|
  {
    if s != [] {
      FilterMembers(s[..|s| - 1], p, x);
      assert s == s[..|s| - 1] + [s[|s| - 1]];
    }
  }

  /** `r` is `s` with some elements left out, the rest in the same order. */
  ghost predicate IsSubsequence<T>(r: seq<T>, s: seq<T>)
    decreases |s|
  {
    if r == [] then true
    else if s == [] then false
    else (r[|r| - 1] == s[|s| - 1] && IsSubsequence(r[..|r| - 1], s[..|s| - 1]))
         || IsSubsequence(r, s[..|s| - 1])
  }

  lemma {:induction false} FilterIsSubsequence<T>(s: seq<T>, p: T -> bool)
    ensures IsSubsequence(Filter(s, p), s)
    decreases |s|
  {
    if s != [] {
      var r := Filter(s, p);
      FilterIsSubsequence(s[..|s| - 1], p);
      if p(s[|s| - 1]) {
        assert r == Filter(s[..|s| - 1], p) + [s[|s| - 1]];
        assert r[..|r| - 1] == Filter(s[..|s| - 1], p);
        assert r[|r| - 1] == s[|s| - 1];
      } else {
        assert r == Filter(s[..|s| - 1], p);
      }
    }
  }

  /** Filtering with a stronger condition keeps a subsequence of what the
      weaker condition keeps. */
  lemma {:induction false} FilterStronger<T>(s: seq<T>, p: T -> bool, q: T -> bool)
    requires forall x :: p(x) ==> q(x)
    ensures IsSubsequence(Filter(s, p), Filter(s, q))
    decreases |s|
  {
    if s != [] {
      var last := s[|s| - 1];
      var rp, rq := Filter(s, p), Filter(s, q);
      FilterStronger(s[..|s| - 1], p, q);
      var ip, iq := Filter(s[..|s| - 1], p), Filter(s[..|s| - 1], q);
      if p(last) {
        assert rp == ip + [last] && rq == iq + [last];
        assert rp[..|rp| - 1] == ip;
        assert rq[..|rq| - 1] == iq;
      } else if q(last) {
        assert rp == ip && rq == iq + [last];
        SubsequenceOfPrefix(ip, iq, last);
      } else {
        assert rp == ip && rq == iq;
      }
    }
  }

  lemma {:induction false} SubsequenceOfPrefix<T>(r: seq<T>, s: seq<T>, x: T)
    requires IsSubsequence(r, s)
    ensures IsSubsequence(r, s + [x])
  {
    assert (s + [x])[..|s|] == s;
    if r != [] {
      assert IsSubsequence(r, (s + [x])[..|s + [x]| - 1]);
    }
  }

  // ---------------------------------------------------------------------
  // stable sort by an integer key

  /** Inserts `x` after every element whose key is at most `x`'s, which is
      where a stable sort puts the newest of equal elements. */
  function Insert<T(==)>(x: T, s: seq<T>, key: T -> int): (r: seq<T>)
    ensures |r| == |s| + 1
    ensures multiset(r) == multiset(s) + multiset{x}
    decreases |s|
  {
    if s == [] || key(s[|s| - 1]) <= key(x) then s + [x]
    else
      assert s == s[..|s| - 1] + [s[|s| - 1]];
      Insert(x, s[..|s| - 1], key) + [s[|s| - 1]]
  }

  /** The result of `s.sort((a, b) => key(a) - key(b))` on a copy of `s`:
      ascending keys, equal keys in input order. */
  function SortBy<T(==)>(s: seq<T>, key: T -> int): (r: seq<T>)
    ensures |r| == |s|
    ensures multiset(r) == multiset(s)
    decreases |s|
  {
    if s == [] then []
    else
      assert s == s[..|s| - 1] + [s[|s| - 1]];
      Insert(s[|s| - 1], SortBy(s[..|s| - 1], key), key)
  }

  ghost predicate SortedBy<T>(s: seq<T>, key: T -> int)
  {
    forall i, j :: 0 <= i < j < |s| ==> key(s[i]) <= key(s[j])
  }

  lemma {:induction false} InsertSorted<T>(x: T, s: seq<T>, key: T -> int)
    requires SortedBy(s, key)
    ensures SortedBy(Insert(x, s, key), key)
    decreases |s|
  {
    if s != [] && key(s[|s| - 1]) > key(x) {
      var init, last := s[..|s| - 1], s[|s| - 1];
      InsertSorted(x, init, key);
      var t := Insert(x, init, key);
      forall i | 0 <= i < |t|
        ensures key(t[i]) <= key(last)
      {
        assert t[i] in multiset(init) + multiset{x};
        if t[i] != x {
          assert t[i] in init;
        }
      }
    }
  }

  /** The sort orders by key. */
  lemma {:induction false} SortBySorted<T>(s: seq<T>, key: T -> int)
    ensures SortedBy(SortBy(s, key), key)
    decreases |s|
  {
    if s != [] {
      SortBySorted(s[..|s| - 1], key);
      InsertSorted(s[|s| - 1], SortBy(s[..|s| - 1], key), key);
    }
  }

  /** The elements of `s` whose key is `k`, in order. */
  function WithKey<T>(s: seq<T>, key: T -> int, k: int): seq<T>
    decreases |s|
  {
    if s == [] then []
    else WithKey(s[..|s| - 1], key, k) + (if key(s[|s| - 1]) == k then [s[|s| - 1]] else [])
  }

  lemma {:induction false} InsertWithKey<T>(x: T, s: seq<T>, key: T -> int, k: int)
    ensures WithKey(Insert(x, s, key), key, k)
            == WithKey(s, key, k) + (if key(x) == k then [x] else [])
    decreases |s|
  {
    if s == [] || key(s[|s| - 1]) <= key(x) {
      assert (s + [x])[..|s|] == s;
    } else {
      var init, last := s[..|s| - 1], s[|s| - 1];
      var t := Insert(x, init, key);
      InsertWithKey(x, init, key, k);
      assert Insert(x, s, key) == t + [last];
      assert (t + [last])[..|t|] == t;
      assert WithKey(t + [last], key, k) == WithKey(t, key, k) + (if key(last) == k then [last] else []);
    }
  }

  /** The sort is stable: for every key, the elements with that key appear in
      the same order as in the input. */
  lemma {:induction false} SortByStable<T>(s: seq<T>, key: T -> int, k: int)
    ensures WithKey(SortBy(s, key), key, k) == WithKey(s, key, k)
    decreases |s|
  {
    if s != [] {
      SortByStable(s[..|s| - 1], key, k);
      InsertWithKey(s[|s| - 1], SortBy(s[..|s| - 1], key), key, k);
    }
  }
}

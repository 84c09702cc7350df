/**
 * List operations the agents use: counting with a condition (`sum(1 for x in s if p(x))`),
 * list comprehensions with a condition, slicing a prefix (`s[:n]`), and
 * Python's stable `list.sort(key=...)`, modelled as an insertion sort on values.
 */
module Seqs {

  function Count<T>(s: seq<T>, p: T -> bool): (n: nat)
    ensures n <= |s|
  {
    if s == [] then 0 else (if p(s[0]) then 1 else 0) + Count(s[1..], p)
  }

  lemma {:induction false} CountAppend<T>(a: seq<T>, b: seq<T>, p: T -> bool)
    ensures Count(a + b, p) == Count(a, p) + Count(b, p)
  {
    if a == [] {
      assert a + b == b;
    } else {
      CountAppend(a[1..], b, p);
      assert (a + b)[0] == a[0];
      assert (a + b)[1..] == a[1..] + b;
    }
  }

  /** `[x for x in s if p(x)]`. */
  function Filter<T>(s: seq<T>, p: T -> bool): (r: seq<T>)
    ensures |r| == Count(s, p)
    ensures forall i :: 0 <= i < |r| ==> r[i] in s && p(r[i])
    ensures forall i :: 0 <= i < |s| && p(s[i]) ==> s[i] in r
  {
    if s == [] then []
    else if p(s[0]) then [s[0]] + Filter(s[1..], p)
    else Filter(s[1..], p)
  }

  /** `a` is `b` with some elements left out and the rest kept in order. */
  predicate IsSubsequence<T(==)>(a: seq<T>, b: seq<T>)
    decreases |b|
  {
    if a == [] then true
    else if b == [] then false
    else (a[0] == b[0] && IsSubsequence(a[1..], b[1..])) || IsSubsequence(a, b[1..])
  }

  lemma {:induction false} FilterIsSubsequence<T>(s: seq<T>, p: T -> bool)
    ensures IsSubsequence(Filter(s, p), s)
  {
    if s != [] {
      FilterIsSubsequence(s[1..], p);
      var r := Filter(s, p);
      if p(s[0]) {
        assert r[0] == s[0] && r[1..] == Filter(s[1..], p);
      }
    }
  }

  /** Every element occurs at most once. */
  ghost predicate NoDuplicates<T>(s: seq<T>) {
    forall i, j :: 0 <= i < j < |s| ==> s[i] != s[j]
  }

  /** `s[:n]`. */
  function Take<T>(s: seq<T>, n: nat): (r: seq<T>)
    ensures |r| == if |s| < n then |s| else n
    ensures r == s[..|r|]
  {
    if |s| <= n then s else s[..n]
  }

  // ---- stable sort by a real-valued key, ascending ----

  predicate SortedBy<T>(s: seq<T>, key: T -> real) {
    forall i, j :: 0 <= i < j < |s| ==> key(s[i]) <= key(s[j])
  }

  /** In a sequence sorted by key, no element has a larger key than the last. */
  lemma SortedLastIsMax<T>(t: seq<T>, key: T -> real, x: T)
    requires SortedBy(t, key) && x in t
    ensures t != [] && key(x) <= key(t[|t| - 1])
  {
    var k :| 0 <= k < |t| && t[k] == x;
    if k < |t| - 1 {
      assert key(t[k]) <= key(t[|t| - 1]);
    }
  }

  /** The elements of `s` whose key is `k`, in order. */
  function WithKey<T>(s: seq<T>, key: T -> real, k: real): seq<T> {
    if s == [] then []
    else if key(s[0]) == k then [s[0]] + WithKey(s[1..], key, k)
    else WithKey(s[1..], key, k)
  }

  /**
   * `t` is what a stable sort of `s` must produce: ordered by key, and for every
   * key the elements carrying it appear in `t` exactly as they appear in `s`.
   */
  ghost predicate StablySorted<T>(t: seq<T>, s: seq<T>, key: T -> real) {
    SortedBy(t, key) && forall k :: WithKey(t, key, k) == WithKey(s, key, k)
  }

  /** Puts `x` in front of the first element whose key is not smaller. */
  function InsertBy<T>(x: T, s: seq<T>, key: T -> real): seq<T> {
    if s == [] || key(x) <= key(s[0]) then [x] + s
    else [s[0]] + InsertBy(x, s[1..], key)
  }

  function SortBy<T>(s: seq<T>, key: T -> real): seq<T> {
    if s == [] then [] else InsertBy(s[0], SortBy(s[1..], key), key)
  }

  lemma {:induction false} InsertByMembers<T>(x: T, s: seq<T>, key: T -> real)
    ensures |InsertBy(x, s, key)| == |s| + 1
    ensures multiset(InsertBy(x, s, key)) == multiset(s) + multiset{x}
    ensures forall y :: y in InsertBy(x, s, key) <==> y == x || y in s
  {
    if !(s == [] || key(x) <= key(s[0])) {
      InsertByMembers(x, s[1..], key);
      assert s == [s[0]] + s[1..];
    }
  }

  lemma InsertedMember<T>(x: T, s: seq<T>, key: T -> real, z: T)
    requires z in InsertBy(x, s, key)
    ensures z == x || z in s
  {
    InsertByMembers(x, s, key);
  }

  lemma {:induction false} InsertBySorted<T>(x: T, s: seq<T>, key: T -> real)
    requires SortedBy(s, key)
    ensures SortedBy(InsertBy(x, s, key), key)
  {
    var t := InsertBy(x, s, key);
    if s == [] || key(x) <= key(s[0]) {
      assert t == [x] + s;
    } else {
      var u := InsertBy(x, s[1..], key);
      InsertBySorted(x, s[1..], key);
      InsertByMembers(x, s[1..], key);
      assert t == [s[0]] + u;
      forall i, j | 0 <= i < j < |t| ensures key(t[i]) <= key(t[j]) {
        if i == 0 {
          assert t[j] == u[j - 1];
          InsertedMember(x, s[1..], key, t[j]);
          if t[j] != x {
            var m :| 0 <= m < |s[1..]| && s[1..][m] == t[j];
            assert s[m + 1] == t[j];
          }
        } else {
          assert t[i] == u[i - 1] && t[j] == u[j - 1];
        }
      }
    }
  }

  lemma {:induction false} InsertByWithKey<T>(x: T, s: seq<T>, key: T -> real, k: real)
    ensures WithKey(InsertBy(x, s, key), key, k) == (if key(x) == k then [x] else []) + WithKey(s, key, k)
  {
    var t := InsertBy(x, s, key);
    if s == [] || key(x) <= key(s[0]) {
      assert t[0] == x && t[1..] == s;
    } else {
      var u := InsertBy(x, s[1..], key);
      InsertByWithKey(x, s[1..], key, k);
      assert t[0] == s[0] && t[1..] == u;
      if key(x) == k {
        assert key(s[0]) != k;
      }
    }
  }

  lemma {:induction false} SortByIsStable<T>(s: seq<T>, key: T -> real)
    ensures StablySorted(SortBy(s, key), s, key)
    ensures multiset(SortBy(s, key)) == multiset(s)
    ensures |SortBy(s, key)| == |s|
  {
    if s != [] {
      var rest := SortBy(s[1..], key);
      SortByIsStable(s[1..], key);
      InsertBySorted(s[0], rest, key);
      InsertByMembers(s[0], rest, key);
      assert s == [s[0]] + s[1..];
      forall k ensures WithKey(SortBy(s, key), key, k) == WithKey(s, key, k) {
        InsertByWithKey(s[0], rest, key, k);
      }
    }
  }

  lemma {:induction false} CountSortBy<T>(s: seq<T>, key: T -> real, p: T -> bool)
    ensures Count(SortBy(s, key), p) == Count(s, p)
  {
    if s != [] {
      CountSortBy(s[1..], key, p);
      CountInsertBy(s[0], SortBy(s[1..], key), key, p);
    }
  }

  lemma {:induction false} CountInsertBy<T>(x: T, s: seq<T>, key: T -> real, p: T -> bool)
    ensures Count(InsertBy(x, s, key), p) == Count(s, p) + (if p(x) then 1 else 0)
  {
    if s == [] || key(x) <= key(s[0]) {
      assert InsertBy(x, s, key)[1..] == s;
    } else {
      CountInsertBy(x, s[1..], key, p);
      assert InsertBy(x, s, key)[1..] == InsertBy(x, s[1..], key);
    }
  }

  /** No two elements of `s` agree on `f` (for example: identifiers are pairwise distinct). */
  ghost predicate DistinctBy<T, U>(s: seq<T>, f: T -> U) {
    forall i, j :: 0 <= i < j < |s| ==> f(s[i]) != f(s[j])
  }

  lemma {:induction false} SortByKeepsDistinct<T, U>(s: seq<T>, key: T -> real, f: T -> U)
    requires DistinctBy(s, f)
    ensures DistinctBy(SortBy(s, key), f)
  {
    if s != [] {
      var rest := SortBy(s[1..], key);
      SortByKeepsDistinct(s[1..], key, f);
      SortByIsStable(s[1..], key);
      forall y | y in rest ensures f(y) != f(s[0]) {
        assert y in multiset(s[1..]);
        var m :| 0 <= m < |s[1..]| && s[1..][m] == y;
        assert s[m + 1] == y;
      }
      InsertKeepsDistinct(s[0], rest, key, f);
    }
  }

  lemma {:induction false} InsertKeepsDistinct<T, U>(x: T, s: seq<T>, key: T -> real, f: T -> U)
    requires DistinctBy(s, f)
    requires forall y :: y in s ==> f(y) != f(x)
    ensures DistinctBy(InsertBy(x, s, key), f)
  {
    var t := InsertBy(x, s, key);
    if s == [] || key(x) <= key(s[0]) {
      assert t == [x] + s;
      forall i, j | 0 <= i < j < |t| ensures f(t[i]) != f(t[j]) {
        if i == 0 { assert t[j] == s[j - 1]; } else { assert t[i] == s[i - 1] && t[j] == s[j - 1]; }
      }
    } else {
      var u := InsertBy(x, s[1..], key);
      InsertKeepsDistinct(x, s[1..], key, f);
      InsertByMembers(x, s[1..], key);
      assert t == [s[0]] + u;
      forall i, j | 0 <= i < j < |t| ensures f(t[i]) != f(t[j]) {
        if i == 0 {
          assert t[j] == u[j - 1];
          InsertedMember(x, s[1..], key, t[j]);
          if t[j] != x {
            var m :| 0 <= m < |s[1..]| && s[1..][m] == t[j];
            assert s[m + 1] == t[j];
          } else {
            assert s[0] in s;
          }
        } else {
          assert t[i] == u[i - 1] && t[j] == u[j - 1];
        }
      }
    }
  }

}

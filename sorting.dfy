/** `Array.prototype.sort` with a comparator of the form `(a, b) => key(b) - key(a)`:
    a stable sort into non-increasing key order, written as insertion sort on sequences. */
module Sorting {

  /** Non-increasing order of `key`. */
  ghost predicate SortedDesc<T>(s: seq<T>, key: T -> int) {
    forall i, j :: 0 <= i < j < |s| ==> key(s[i]) >= key(s[j])
  }

  /** Ordered by `k1` descending, and by `k2` descending among elements with equal `k1`. */
  ghost predicate SortedLex<T>(s: seq<T>, k1: T -> int, k2: T -> int) {
    forall i, j :: 0 <= i < j < |s| ==> LexBefore(s[i], s[j], k1, k2)
  }

  ghost predicate LexBefore<T>(a: T, b: T, k1: T -> int, k2: T -> int) {
    k1(a) > k1(b) || (k1(a) == k1(b) && k2(a) >= k2(b))
  }

  /** Puts `x` in front of the first element whose key is not larger than its own. */
  function Insert<T>(x: T, s: seq<T>, key: T -> int): (r: seq<T>)
    ensures |r| == |s| + 1
    ensures multiset(r) == multiset(s) + multiset{x}
  {
    if s == [] || key(x) >= key(s[0]) then [x] + s
    else
      assert s == [s[0]] + s[1..];
      [s[0]] + Insert(x, s[1..], key)
  }

  lemma InsertMembers<T>(x: T, s: seq<T>, key: T -> int, y: T)
    ensures y in Insert(x, s, key) <==> y == x || y in s
  {
    var r := Insert(x, s, key);
    assert y in r <==> y in multiset(r);
    assert y in s <==> y in multiset(s);
  }

  lemma {:induction false} InsertSorted<T>(x: T, s: seq<T>, key: T -> int)
    requires SortedDesc(s, key)
    ensures SortedDesc(Insert(x, s, key), key)
  {
    if s == [] || key(x) >= key(s[0]) {
      var r := [x] + s;
      forall i, j | 0 <= i < j < |r| ensures key(r[i]) >= key(r[j]) {
        assert r[j] == s[j - 1];
        if i > 0 { assert r[i] == s[i - 1]; }
      }
    } else {
      var t := Insert(x, s[1..], key);
      assert SortedDesc(s[1..], key) by {
        forall i, j | 0 <= i < j < |s[1..]| ensures key(s[1..][i]) >= key(s[1..][j]) {
          assert s[1..][i] == s[i + 1] && s[1..][j] == s[j + 1];
        }
      }
      InsertSorted(x, s[1..], key);
      var r := [s[0]] + t;
      forall i, j | 0 <= i < j < |r| ensures key(r[i]) >= key(r[j]) {
        if i == 0 {
          var y := r[j];
          assert y == t[j - 1];
          InsertMembers(x, s[1..], key, y);
          if y != x {
            var m :| 0 <= m < |s[1..]| && s[1..][m] == y;
            assert s[1 + m] == y;
          }
        } else {
          assert r[i] == t[i - 1] && r[j] == t[j - 1];
        }
      }
    }
  }

  /** The stable sort, newest (largest key) first. */
  function SortDesc<T>(s: seq<T>, key: T -> int): (r: seq<T>)
    ensures |r| == |s|
    ensures multiset(r) == multiset(s)
    ensures SortedDesc(r, key)
  {
    if s == [] then [] else
      assert s == [s[0]] + s[1..];
      InsertSorted(s[0], SortDesc(s[1..], key), key);
      Insert(s[0], SortDesc(s[1..], key), key)
  }

  lemma SortedMembers<T>(s: seq<T>, key: T -> int, y: T)
    ensures y in SortDesc(s, key) <==> y in s
  {
    var r := SortDesc(s, key);
    assert y in r <==> y in multiset(r);
  }

  /** `s.slice(0, n)`, and `s.substring(0, n)` on strings. */
  function Prefix<T>(s: seq<T>, n: nat): (r: seq<T>)
    ensures |r| == if |s| <= n then |s| else n
    ensures r == s[..|r|]
  {
    if |s| <= n then s else s[..n]
  }

  // ---------------------------------------------------------------------------
  // Stability
  // ---------------------------------------------------------------------------

  /** The elements of `s` whose key is `v`, in their order in `s`. */
  function WithKey<T>(s: seq<T>, key: T -> int, v: int): seq<T> {
    if s == [] then []
    else (if key(s[0]) == v then [s[0]] else []) + WithKey(s[1..], key, v)
  }

  lemma {:induction false} WithKeyMembers<T>(s: seq<T>, key: T -> int, v: int, y: T)
    ensures y in WithKey(s, key, v) <==> y in s && key(y) == v
  {
    if s != [] {
      WithKeyMembers(s[1..], key, v, y);
      assert s == [s[0]] + s[1..];
    }
  }

  lemma WithKeyCons<T>(y: T, s: seq<T>, key: T -> int, v: int)
    ensures WithKey([y] + s, key, v) == (if key(y) == v then [y] else []) + WithKey(s, key, v)
  {
    assert ([y] + s)[0] == y && ([y] + s)[1..] == s;
  }

  lemma {:induction false} InsertWithKey<T>(x: T, s: seq<T>, key: T -> int, v: int)
    ensures WithKey(Insert(x, s, key), key, v)
            == (if key(x) == v then [x] else []) + WithKey(s, key, v)
  {
    if s == [] || key(x) >= key(s[0]) {
      assert Insert(x, s, key) == [x] + s;
      WithKeyCons(x, s, key, v);
    } else {
      InsertWithKey(x, s[1..], key, v);
      assert Insert(x, s, key) == [s[0]] + Insert(x, s[1..], key);
      BehindWithKey(x, s, Insert(x, s[1..], key), key, v);
    }
  }

  /** The step of InsertWithKey where `x` goes behind the head, `t` being `x` inserted
      into the tail. */
  lemma BehindWithKey<T>(x: T, s: seq<T>, t: seq<T>, key: T -> int, v: int)
    requires s != [] && key(x) < key(s[0])
    requires WithKey(t, key, v) == (if key(x) == v then [x] else []) + WithKey(s[1..], key, v)
    ensures WithKey([s[0]] + t, key, v) == (if key(x) == v then [x] else []) + WithKey(s, key, v)
  {
    var hx: seq<T> := if key(x) == v then [x] else [];
    var h0: seq<T> := if key(s[0]) == v then [s[0]] else [];
    var w := WithKey(s[1..], key, v);
    WithKeyCons(s[0], t, key, v);
    assert s == [s[0]] + s[1..];
    WithKeyCons(s[0], s[1..], key, v);
    assert h0 == [] || hx == [];
    assert h0 + (hx + w) == hx + (h0 + w);
  }

  /** Stability: the elements sharing one key keep their relative order. */
  lemma {:induction false} SortIsStable<T>(s: seq<T>, key: T -> int, v: int)
    ensures WithKey(SortDesc(s, key), key, v) == WithKey(s, key, v)
  {
    if s != [] {
      SortIsStable(s[1..], key, v);
      InsertWithKey(s[0], SortDesc(s[1..], key), key, v);
    }
  }

  // ---------------------------------------------------------------------------
  // Sorting an already sorted sequence by a second key
  // ---------------------------------------------------------------------------

  lemma {:induction false} InsertLex<T>(x: T, s: seq<T>, k1: T -> int, k2: T -> int)
    requires SortedLex(s, k1, k2)
    requires forall y :: y in s ==> k2(x) >= k2(y)
    ensures SortedLex(Insert(x, s, k1), k1, k2)
  {
    if s == [] || k1(x) >= k1(s[0]) {
      var r := [x] + s;
      forall i, j | 0 <= i < j < |r| ensures LexBefore(r[i], r[j], k1, k2) {
        assert r[j] == s[j - 1];
        if i == 0 {
          if j > 1 { assert LexBefore(s[0], s[j - 1], k1, k2); }
        } else {
          assert r[i] == s[i - 1];
        }
      }
    } else {
      var t := Insert(x, s[1..], k1);
      assert SortedLex(s[1..], k1, k2) by {
        forall i, j | 0 <= i < j < |s[1..]| ensures LexBefore(s[1..][i], s[1..][j], k1, k2) {
          assert s[1..][i] == s[i + 1] && s[1..][j] == s[j + 1];
        }
      }
      InsertLex(x, s[1..], k1, k2);
      var r := [s[0]] + t;
      forall i, j | 0 <= i < j < |r| ensures LexBefore(r[i], r[j], k1, k2) {
        if i == 0 {
          var y := r[j];
          assert y == t[j - 1];
          InsertMembers(x, s[1..], k1, y);
          if y != x {
            var m :| 0 <= m < |s[1..]| && s[1..][m] == y;
            assert s[1 + m] == y;
            assert LexBefore(s[0], s[1 + m], k1, k2);
          }
        } else {
          assert r[i] == t[i - 1] && r[j] == t[j - 1];
        }
      }
    }
  }

  /** Sorting by `k1` a sequence already sorted by `k2` orders it by `k1` first and, among
      equal `k1`, still by `k2`. */
  lemma {:induction false} SortThenSort<T>(s: seq<T>, k1: T -> int, k2: T -> int)
    requires SortedDesc(s, k2)
    ensures SortedLex(SortDesc(s, k1), k1, k2)
  {
    if s != [] {
      assert SortedDesc(s[1..], k2) by {
        forall i, j | 0 <= i < j < |s[1..]| ensures k2(s[1..][i]) >= k2(s[1..][j]) {
          assert s[1..][i] == s[i + 1] && s[1..][j] == s[j + 1];
        }
      }
      SortThenSort(s[1..], k1, k2);
      var t := SortDesc(s[1..], k1);
      forall y | y in t ensures k2(s[0]) >= k2(y) {
        SortedMembers(s[1..], k1, y);
        var m :| 0 <= m < |s[1..]| && s[1..][m] == y;
        assert s[1 + m] == y;
      }
      InsertLex(s[0], t, k1, k2);
    }
  }

  /** Cutting a sorted sequence keeps the order, and nothing cut off precedes anything
      kept. */
  lemma PrefixOfSortedLex<T>(s: seq<T>, n: nat, k1: T -> int, k2: T -> int)
    requires SortedLex(s, k1, k2)
    ensures multiset(Prefix(s, n)) <= multiset(s)
    ensures SortedLex(Prefix(s, n), k1, k2)
    ensures forall x, y :: x in Prefix(s, n) && y in multiset(s) - multiset(Prefix(s, n))
              ==> LexBefore(x, y, k1, k2)
  {
    var r := Prefix(s, n);
    var rest := s[|r|..];
    assert s == r + rest;
    assert multiset(s) == multiset(r) + multiset(rest);
    forall x, y | x in r && y in multiset(s) - multiset(r)
      ensures LexBefore(x, y, k1, k2)
    {
      var i :| 0 <= i < |r| && r[i] == x;
      assert y in multiset(rest);
      var j :| 0 <= j < |rest| && rest[j] == y;
      assert s[i] == x && s[|r| + j] == y;
    }
  }

  // ---------------------------------------------------------------------------
  // Distinct identities survive sorting
  // ---------------------------------------------------------------------------

  ghost predicate DistinctBy<T, U>(s: seq<T>, id: T -> U) {
    forall i, j :: 0 <= i < j < |s| ==> id(s[i]) != id(s[j])
  }

  /** A distinct list stays distinct with an element of a new identity in front. */
  lemma ConsDistinct<T, U>(y: T, t: seq<T>, id: T -> U)
    requires DistinctBy(t, id)
    requires forall z :: z in t ==> id(z) != id(y)
    ensures DistinctBy([y] + t, id)
  {
    var r := [y] + t;
    forall i, j | 0 <= i < j < |r| ensures id(r[i]) != id(r[j]) {
      assert r[j] == t[j - 1];
      if i > 0 { assert r[i] == t[i - 1]; }
    }
  }

  lemma {:induction false} InsertDistinct<T, U>(x: T, s: seq<T>, key: T -> int, id: T -> U)
    requires DistinctBy(s, id)
    requires forall y :: y in s ==> id(y) != id(x)
    ensures DistinctBy(Insert(x, s, key), id)
  {
    if s == [] || key(x) >= key(s[0]) {
      assert Insert(x, s, key) == [x] + s;
      ConsDistinct(x, s, id);
    } else {
      assert DistinctBy(s[1..], id) by {
        forall i, j | 0 <= i < j < |s[1..]| ensures id(s[1..][i]) != id(s[1..][j]) {
          assert s[1..][i] == s[i + 1] && s[1..][j] == s[j + 1];
        }
      }
      InsertDistinct(x, s[1..], key, id);
      var t := Insert(x, s[1..], key);
      forall z | z in t ensures id(z) != id(s[0]) {
        InsertMembers(x, s[1..], key, z);
        if z != x {
          var m :| 0 <= m < |s[1..]| && s[1..][m] == z;
          assert s[1 + m] == z;
        }
      }
      assert Insert(x, s, key) == [s[0]] + t;
      ConsDistinct(s[0], t, id);
    }
  }

  lemma {:induction false} SortKeepsDistinct<T, U>(s: seq<T>, key: T -> int, id: T -> U)
    requires DistinctBy(s, id)
    ensures DistinctBy(SortDesc(s, key), id)
  {
    if s != [] {
      assert DistinctBy(s[1..], id) by {
        forall i, j | 0 <= i < j < |s[1..]| ensures id(s[1..][i]) != id(s[1..][j]) {
          assert s[1..][i] == s[i + 1] && s[1..][j] == s[j + 1];
        }
      }
      SortKeepsDistinct(s[1..], key, id);
      var t := SortDesc(s[1..], key);
      forall y | y in t ensures id(y) != id(s[0]) {
        SortedMembers(s[1..], key, y);
        var m :| 0 <= m < |s[1..]| && s[1..][m] == y;
        assert s[1 + m] == y;
      }
      InsertDistinct(s[0], t, key, id);
    }
  }

  /** `a` is `b` with some elements left out, the rest in their order. */
  ghost predicate IsSubsequence<T>(a: seq<T>, b: seq<T>)
    decreases |b|
  {
    || a == []
    || (b != [] && ((a[0] == b[0] && IsSubsequence(a[1..], b[1..])) || IsSubsequence(a, b[1..])))
  }

  /** Adding an element at the end of both keeps a subsequence, and so does adding one at
      the end of the longer sequence only. */
  lemma {:induction false} SubsequenceSnoc<T>(a: seq<T>, b: seq<T>, x: T)
    requires IsSubsequence(a, b)
    decreases |b|
    ensures IsSubsequence(a, b + [x]) && IsSubsequence(a + [x], b + [x])
  {
    var bx := b + [x];
    var ax := a + [x];
    if b == [] {
      assert a == [];
      assert ax[0] == bx[0] && ax[1..] == [] && bx[1..] == [];
    } else {
      assert bx[0] == b[0] && bx[1..] == b[1..] + [x];
      if a == [] {
        SubsequenceSnoc(a, b[1..], x);
        assert a + [x] == [x];
      } else if a[0] == b[0] && IsSubsequence(a[1..], b[1..]) {
        SubsequenceSnoc(a[1..], b[1..], x);
        assert ax[0] == a[0] && ax[1..] == a[1..] + [x];
      } else {
        SubsequenceSnoc(a, b[1..], x);
      }
    }
  }

  /** What is kept from a suffix of `b` is kept from `b`. */
  lemma {:induction false} SubsequenceOfSuffix<T>(a: seq<T>, b: seq<T>, k: nat)
    requires k <= |b| && IsSubsequence(a, b[k..])
    decreases k
    ensures IsSubsequence(a, b)
  {
    if k > 0 {
      assert b[k - 1..][1..] == b[k..];
      assert IsSubsequence(a, b[k - 1..]);
      SubsequenceOfSuffix(a, b, k - 1);
    }
  }

  /** `s.filter(p)`: the elements that pass `p`, in order. */
  function Filter<T>(s: seq<T>, p: T -> bool): seq<T> {
    if s == [] then [] else (if p(s[0]) then [s[0]] else []) + Filter(s[1..], p)
  }

  /** The filter keeps exactly the passing elements, in their order, and keeps a list
      whose elements all pass unchanged. */
  lemma {:induction false} FilterFacts<T>(s: seq<T>, p: T -> bool)
    ensures forall y :: y in Filter(s, p) <==> y in s && p(y)
    ensures IsSubsequence(Filter(s, p), s) && |Filter(s, p)| <= |s|
    ensures (forall y :: y in s ==> p(y)) ==> Filter(s, p) == s
  {
    if s != [] {
      FilterFacts(s[1..], p);
      var rest := Filter(s[1..], p);
      var r := Filter(s, p);
      if p(s[0]) {
        assert r == [s[0]] + rest;
        assert r[0] == s[0] && r[1..] == rest;
      } else {
        assert r == rest;
      }
      assert forall y :: y in s <==> y == s[0] || y in s[1..];
      if forall y :: y in s ==> p(y) {
        assert s == [s[0]] + s[1..];
      }
    }
  }

  lemma {:induction false} FilterSnoc<T>(s: seq<T>, x: T, p: T -> bool)
    ensures Filter(s + [x], p) == Filter(s, p) + (if p(x) then [x] else [])
  {
    if s != [] {
      assert (s + [x])[1..] == s[1..] + [x];
      FilterSnoc(s[1..], x, p);
    } else {
      assert [x][1..] == [];
    }
  }
}

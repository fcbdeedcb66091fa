/** Sorting as the scripts use it (`sort_values`, `sort_index`, `sorted`):
    one stable insertion sort, parameterised by a key and an order on keys.
    pandas' default sort is an unstable quicksort; the model fixes the stable
    order, and what is proved about sorted output holds for any tie order. */
module Sorting {

  ghost predicate TotalPreorder<K(!new)>(le: (K, K) -> bool) {
    && (forall a, b :: le(a, b) || le(b, a))
    && (forall a, b, c :: le(a, b) && le(b, c) ==> le(a, c))
  }

  ghost predicate SortedBy<T, K>(s: seq<T>, key: T -> K, le: (K, K) -> bool) {
    forall i, j :: 0 <= i < j < |s| ==> le(key(s[i]), key(s[j]))
  }

  /** The keys of a sequence, in order. */
  function Keys<T, K>(s: seq<T>, key: T -> K): (r: seq<K>)
    ensures |r| == |s|
    ensures forall i :: 0 <= i < |s| ==> r[i] == key(s[i])
  {
    if |s| == 0 then [] else [key(s[0])] + Keys(s[1..], key)
  }

  /** Inserts `x` before the first element it does not exceed: ahead of its equals. */
  function Insert<T, K>(x: T, s: seq<T>, key: T -> K, le: (K, K) -> bool): (r: seq<T>)
    ensures |r| == |s| + 1
  {
    if |s| == 0 then [x]
    else if le(key(x), key(s[0])) then [x] + s
    else [s[0]] + Insert(x, s[1..], key, le)
  }

  /** Inserting adds `x` and keeps every element of `s`. */
  lemma {:induction false} InsertPerm<T, K>(x: T, s: seq<T>, key: T -> K, le: (K, K) -> bool)
    ensures multiset(Insert(x, s, key, le)) == multiset(s) + multiset{x}
    ensures forall k :: 0 <= k < |s| + 1 ==> Insert(x, s, key, le)[k] == x || Insert(x, s, key, le)[k] in s
    decreases |s|
  {
    if s != [] && !le(key(x), key(s[0])) {
      var t := Insert(x, s[1..], key, le);
      InsertPerm(x, s[1..], key, le);
      assert s == [s[0]] + s[1..];
      forall k | 0 <= k < |s| + 1 ensures ([s[0]] + t)[k] == x || ([s[0]] + t)[k] in s {
        if k > 0 && t[k - 1] != x {
          assert t[k - 1] in s[1..];
        }
      }
    }
  }

  /** Stable sort: equal keys keep their input order. */
  function SortBy<T, K>(s: seq<T>, key: T -> K, le: (K, K) -> bool): (r: seq<T>)
    ensures |r| == |s|
  {
    if |s| == 0 then []
    else Insert(s[0], SortBy(s[1..], key, le), key, le)
  }

  /** Sorting is a permutation: the same elements, as often. */
  lemma {:induction false} SortByPerm<T, K>(s: seq<T>, key: T -> K, le: (K, K) -> bool)
    ensures multiset(SortBy(s, key, le)) == multiset(s)
    ensures forall k :: 0 <= k < |s| ==> SortBy(s, key, le)[k] in s
    decreases |s|
  {
    if s != [] {
      var t := SortBy(s[1..], key, le);
      SortByPerm(s[1..], key, le);
      InsertPerm(s[0], t, key, le);
      assert s == [s[0]] + s[1..];
      var r := SortBy(s, key, le);
      assert multiset(r) == multiset(s);
      forall k | 0 <= k < |s| ensures r[k] in s {
        assert r[k] in multiset(r);
      }
    }
  }

  lemma {:induction false} InsertSorted<T, K(!new)>(x: T, s: seq<T>, key: T -> K, le: (K, K) -> bool)
    requires TotalPreorder(le)
    requires SortedBy(s, key, le)
    ensures SortedBy(Insert(x, s, key, le), key, le)
    decreases |s|
  {
    if s == [] {
    } else if le(key(x), key(s[0])) {
      var r := [x] + s;
      forall i, j | 0 <= i < j < |r| ensures le(key(r[i]), key(r[j])) {
        if i == 0 {
          assert le(key(s[0]), key(s[j - 1])) || j == 1;
        }
      }
    } else {
      var s' := s[1..];
      var t := Insert(x, s', key, le);
      assert SortedBy(s', key, le);
      InsertSorted(x, s', key, le);
      InsertPerm(x, s', key, le);
      assert le(key(s[0]), key(x));
      assert forall k :: 0 <= k < |t| ==> t[k] == x || t[k] in s';
      forall k | 0 <= k < |t| ensures le(key(s[0]), key(t[k])) {
        if t[k] != x {
          var m :| 0 <= m < |s'| && s'[m] == t[k];
          assert s[m + 1] == t[k];
        }
      }
      var r := [s[0]] + t;
      assert SortedBy(r, key, le) by {
        forall i, j | 0 <= i < j < |r| ensures le(key(r[i]), key(r[j])) {
          if i == 0 {
            assert r[j] == t[j - 1];
          } else {
            assert r[i] == t[i - 1] && r[j] == t[j - 1];
          }
        }
      }
    }
  }

  lemma {:induction false} SortBySorted<T, K(!new)>(s: seq<T>, key: T -> K, le: (K, K) -> bool)
    requires TotalPreorder(le)
    ensures SortedBy(SortBy(s, key, le), key, le)
    decreases |s|
  {
    if s != [] {
      SortBySorted(s[1..], key, le);
      InsertSorted(s[0], SortBy(s[1..], key, le), key, le);
    }
  }

  /** The order a stable sort produces depends only on the keys: two inputs
      with the same key sequence come out with the same key sequence. */
  lemma {:induction false} InsertKeys<T, K>(x1: T, s1: seq<T>, x2: T, s2: seq<T>, key: T -> K, le: (K, K) -> bool)
    requires key(x1) == key(x2) && Keys(s1, key) == Keys(s2, key)
    ensures Keys(Insert(x1, s1, key, le), key) == Keys(Insert(x2, s2, key, le), key)
    decreases |s1|
  {
    if s1 != [] {
      assert key(s1[0]) == Keys(s1, key)[0] == Keys(s2, key)[0] == key(s2[0]);
      if !le(key(x1), key(s1[0])) {
        assert Keys(s1[1..], key) == Keys(s2[1..], key) by {
          assert Keys(s1, key)[1..] == Keys(s1[1..], key);
          assert Keys(s2, key)[1..] == Keys(s2[1..], key);
        }
        InsertKeys(x1, s1[1..], x2, s2[1..], key, le);
      }
    }
  }

  lemma {:induction false} SortByKeys<T, K>(s1: seq<T>, s2: seq<T>, key: T -> K, le: (K, K) -> bool)
    requires Keys(s1, key) == Keys(s2, key)
    ensures Keys(SortBy(s1, key, le), key) == Keys(SortBy(s2, key, le), key)
    decreases |s1|
  {
    if s1 != [] {
      assert key(s1[0]) == Keys(s1, key)[0] == Keys(s2, key)[0] == key(s2[0]);
      assert Keys(s1[1..], key) == Keys(s2[1..], key) by {
        assert Keys(s1, key)[1..] == Keys(s1[1..], key);
        assert Keys(s2, key)[1..] == Keys(s2[1..], key);
      }
      SortByKeys(s1[1..], s2[1..], key, le);
      InsertKeys(s1[0], SortBy(s1[1..], key, le), s2[0], SortBy(s2[1..], key, le), key, le);
    }
  }

  /** Sorting a sequence already in order leaves it as it is. */
  lemma {:induction false} SortByOfSorted<T, K>(s: seq<T>, key: T -> K, le: (K, K) -> bool)
    requires SortedBy(s, key, le)
    ensures SortBy(s, key, le) == s
    decreases |s|
  {
    if |s| > 0 {
      assert SortedBy(s[1..], key, le) by {
        forall i, j | 0 <= i < j < |s[1..]| ensures le(key(s[1..][i]), key(s[1..][j])) {
          assert s[1..][i] == s[i + 1] && s[1..][j] == s[j + 1];
        }
      }
      SortByOfSorted(s[1..], key, le);
      if |s| > 1 {
        assert le(key(s[0]), key(s[1..][0]));
      }
      assert [s[0]] + s[1..] == s;
    }
  }

  /** No two elements share a key. */
  ghost predicate DistinctKeys<T, K>(s: seq<T>, key: T -> K) {
    forall i, j :: 0 <= i < j < |s| ==> key(s[i]) != key(s[j])
  }

  lemma {:induction false} InsertDistinct<T, K>(x: T, s: seq<T>, key: T -> K, le: (K, K) -> bool)
    requires DistinctKeys(s, key)
    requires forall k :: 0 <= k < |s| ==> key(s[k]) != key(x)
    ensures DistinctKeys(Insert(x, s, key, le), key)
    decreases |s|
  {
    if s != [] && !le(key(x), key(s[0])) {
      var t := Insert(x, s[1..], key, le);
      InsertDistinct(x, s[1..], key, le);
      InsertPerm(x, s[1..], key, le);
      var r := [s[0]] + t;
      forall i, j | 0 <= i < j < |r| ensures key(r[i]) != key(r[j]) {
        if i == 0 {
          assert r[j] == t[j - 1];
          if t[j - 1] != x {
            var m :| 0 <= m < |s[1..]| && s[1..][m] == t[j - 1];
            assert s[m + 1] == t[j - 1];
          }
        } else {
          assert r[i] == t[i - 1] && r[j] == t[j - 1];
        }
      }
    }
  }

  /** Sorting neither merges nor duplicates keys. */
  lemma {:induction false} SortByDistinct<T, K>(s: seq<T>, key: T -> K, le: (K, K) -> bool)
    requires DistinctKeys(s, key)
    ensures DistinctKeys(SortBy(s, key, le), key)
    decreases |s|
  {
    if s != [] {
      var t := SortBy(s[1..], key, le);
      assert DistinctKeys(s[1..], key) by {
        forall i, j | 0 <= i < j < |s[1..]| ensures key(s[1..][i]) != key(s[1..][j]) {
          assert s[1..][i] == s[i + 1] && s[1..][j] == s[j + 1];
        }
      }
      SortByDistinct(s[1..], key, le);
      SortByPerm(s[1..], key, le);
      forall k | 0 <= k < |t| ensures key(t[k]) != key(s[0]) {
        var m :| 0 <= m < |s[1..]| && s[1..][m] == t[k];
        assert s[m + 1] == t[k];
      }
      InsertDistinct(s[0], t, key, le);
    }
  }

  /** Integers in ascending order. */
  function IntLe(a: int, b: int): bool { a <= b }

  function IntId(a: int): int { a }

  lemma IntLeTotal()
    ensures TotalPreorder(IntLe)
  {
  }

  /** Drops each element equal to its predecessor. */
  function DedupSorted(s: seq<int>): (r: seq<int>)
    ensures |r| <= |s|
    ensures forall x :: x in r <==> x in s
    ensures (forall i, j :: 0 <= i < j < |s| ==> s[i] <= s[j]) ==> (forall i, j :: 0 <= i < j < |r| ==> r[i] < r[j])
    ensures s != [] && (forall i, j :: 0 <= i < j < |s| ==> s[i] <= s[j]) ==> r != [] && r[0] == s[0]
  {
    if |s| <= 1 then s
    else
      var rest := DedupSorted(s[1..]);
      assert forall x :: x in s <==> x == s[0] || x in s[1..];
      if s[0] == s[1] then rest else [s[0]] + rest
  }

  /** `sorted(xs.unique())`: the distinct values in strictly increasing order. */
  function SortedUnique(xs: seq<int>): (r: seq<int>)
    ensures forall x :: x in r <==> x in xs
    ensures forall i, j :: 0 <= i < j < |r| ==> r[i] < r[j]
  {
    var sorted := SortBy(xs, IntId, IntLe);
    IntLeTotal();
    SortBySorted(xs, IntId, IntLe);
    SortByPerm(xs, IntId, IntLe);
    assert forall x :: x in sorted <==> x in multiset(sorted);
    assert forall x :: x in xs <==> x in multiset(xs);
    DedupSorted(sorted)
  }
}

/** Python's stable `list.sort(key=...)` followed by a slice `[:n]`, for any element
    type ranked by a `(bool, str)` key. */
module Ranking {
  import opened Ordering

  predicate SortedByKey<T>(s: seq<T>, key: T -> RankKey) {
    forall i, j | 0 <= i < j < |s| :: KeyLe(key(s[i]), key(s[j]))
  }

  /** The elements of s whose key is k, in their order in s. */
  function WithKey<T(==)>(s: seq<T>, k: RankKey, key: T -> RankKey): seq<T> {
    if s == [] then []
    else (if key(s[0]) == k then [s[0]] else []) + WithKey(s[1..], k, key)
  }

  /** Places x after every element whose key is not above its own. */
  function Insert<T>(x: T, s: seq<T>, key: T -> RankKey): (r: seq<T>)
    ensures |r| == |s| + 1
    ensures multiset(r) == multiset(s) + multiset{x}
  {
    if s == [] then [x]
    else if KeyLt(key(x), key(s[0])) then [x] + s
    else
      assert s == [s[0]] + s[1..];
      [s[0]] + Insert(x, s[1..], key)
  }

  /** `list.sort(key=...)`: Python's sort is stable, which inserting each
      element after the equal ones before it reproduces. */
  function SortByKey<T>(s: seq<T>, key: T -> RankKey): (r: seq<T>)
    ensures |r| == |s|
    ensures multiset(r) == multiset(s)
  {
    if s == [] then []
    else
      assert s == s[..|s| - 1] + [s[|s| - 1]];
      Insert(s[|s| - 1], SortByKey(s[..|s| - 1], key), key)
  }

  /** In a sorted sequence whose head sorts after x, every element does. */
  lemma SortedAbove<T>(x: T, s: seq<T>, key: T -> RankKey)
    requires SortedByKey(s, key)
    requires s != [] && KeyLt(key(x), key(s[0]))
    ensures forall y | y in s :: KeyLt(key(x), key(y))
  {
    forall y | y in s
      ensures KeyLt(key(x), key(y))
    {
      var m :| 0 <= m < |s| && s[m] == y;
      KeyLtIrreflexive(key(s[0]));
      KeyLtLeTransitive(key(x), key(s[0]), key(y));
    }
  }

  lemma {:induction false} InsertSorted<T>(x: T, s: seq<T>, key: T -> RankKey)
    requires SortedByKey(s, key)
    ensures SortedByKey(Insert(x, s, key), key)
  {
    if s == [] {
    } else if KeyLt(key(x), key(s[0])) {
      SortedAbove(x, s, key);
      var r := [x] + s;
      forall i, j | 0 <= i < j < |r|
        ensures KeyLe(key(r[i]), key(r[j]))
      {
        if i == 0 {
          assert r[j] in s;
          KeyLtAsymmetric(key(x), key(r[j]));
        }
      }
    } else {
      var t := s[1..];
      assert SortedByKey(t, key);
      InsertSorted(x, t, key);
      var r := [s[0]] + Insert(x, t, key);
      forall i, j | 0 <= i < j < |r|
        ensures KeyLe(key(r[i]), key(r[j]))
      {
        if i == 0 {
          var y := r[j];
          assert y in multiset(Insert(x, t, key));
          if y != x {
            assert y in t;
            var m :| 0 <= m < |t| && t[m] == y;
            assert s[m + 1] == y;
          }
        }
      }
    }
  }

  /** The sort's result is in key order. */
  lemma {:induction false} SortByKeySorted<T>(s: seq<T>, key: T -> RankKey)
    ensures SortedByKey(SortByKey(s, key), key)
  {
    if s != [] {
      SortByKeySorted(s[..|s| - 1], key);
      InsertSorted(s[|s| - 1], SortByKey(s[..|s| - 1], key), key);
    }
  }

  lemma {:induction false} WithKeyAppend<T>(a: seq<T>, b: seq<T>, k: RankKey, key: T -> RankKey)
    ensures WithKey(a + b, k, key) == WithKey(a, k, key) + WithKey(b, k, key)
  {
    if a == [] {
      assert a + b == b;
    } else {
      assert (a + b)[0] == a[0];
      assert (a + b)[1..] == a[1..] + b;
      WithKeyAppend(a[1..], b, k, key);
    }
  }

  /** When every element sorts strictly after x, none shares x's key. */
  lemma {:induction false} WithKeyAbove<T>(x: T, s: seq<T>, key: T -> RankKey)
    requires forall y | y in s :: KeyLt(key(x), key(y))
    ensures WithKey(s, key(x), key) == []
  {
    if s != [] {
      KeyLtIrreflexive(key(x));
      WithKeyAbove(x, s[1..], key);
    }
  }

  /** Inserting x into a sorted sequence puts it after every element with the
      same key. */
  lemma {:induction false} InsertWithKey<T>(x: T, s: seq<T>, k: RankKey, key: T -> RankKey)
    requires SortedByKey(s, key)
    ensures WithKey(Insert(x, s, key), k, key) == WithKey(s, k, key) + (if key(x) == k then [x] else [])
  {
    if s == [] {
    } else if KeyLt(key(x), key(s[0])) {
      assert ([x] + s)[1..] == s;
      if key(x) == k {
        SortedAbove(x, s, key);
        WithKeyAbove(x, s, key);
      }
    } else {
      var t := s[1..];
      assert SortedByKey(t, key);
      InsertWithKey(x, t, k, key);
      assert ([s[0]] + Insert(x, t, key))[1..] == Insert(x, t, key);
    }
  }

  /** The sort is stable: for every key, the elements with that key keep
      their relative order. */
  lemma {:induction false} SortByKeyStable<T>(s: seq<T>, k: RankKey, key: T -> RankKey)
    ensures WithKey(SortByKey(s, key), k, key) == WithKey(s, k, key)
  {
    if s != [] {
      var init := s[..|s| - 1];
      var last := s[|s| - 1];
      assert s == init + [last];
      WithKeyAppend(init, [last], k, key);
      SortByKeyStable(init, k, key);
      SortByKeySorted(init, key);
      InsertWithKey(last, SortByKey(init, key), k, key);
    }
  }

  /** Keeping a prefix keeps a prefix of each key's elements. */
  lemma WithKeyPrefix<T>(s: seq<T>, n: nat, k: RankKey, key: T -> RankKey)
    requires n <= |s|
    ensures WithKey(s[..n], k, key) <= WithKey(s, k, key)
  {
    assert s == s[..n] + s[n..];
    WithKeyAppend(s[..n], s[n..], k, key);
  }

  function Min(a: int, b: int): int {
    if a < b then a else b
  }

  /** `sorted(s, key=key)[:n]`. */
  function Top<T>(s: seq<T>, n: nat, key: T -> RankKey): (r: seq<T>)
    ensures |r| == Min(n, |s|)
  {
    SortByKey(s, key)[..Min(n, |s|)]
  }

  /** The first n elements of a stable sort: each comes from s, they are in
      key order, no element left out ranks before one kept, and elements
      sharing a key keep their order in s. */
  lemma TopSpec<T>(s: seq<T>, n: nat, key: T -> RankKey)
    ensures var r := Top(s, n, key);
      && (forall x | x in r :: x in s)
      && SortedByKey(r, key)
      && (forall x, y | x in s && x !in r && y in r :: KeyLe(key(y), key(x)))
      && (forall k :: WithKey(r, k, key) <= WithKey(s, k, key))
  {
    var sorted := SortByKey(s, key);
    var r := Top(s, n, key);
    SortByKeySorted(s, key);
    forall x | x in r
      ensures x in s
    {
      assert x in multiset(sorted);
    }
    forall x, y | x in s && x !in r && y in r
      ensures KeyLe(key(y), key(x))
    {
      assert x in multiset(sorted);
      var m :| 0 <= m < |sorted| && sorted[m] == x;
      var p :| 0 <= p < |r| && r[p] == y;
    }
    forall k
      ensures WithKey(r, k, key) <= WithKey(s, k, key)
    {
      WithKeyPrefix(sorted, |r|, k, key);
      SortByKeyStable(s, k, key);
    }
  }
}

/** Python's ordering on the ranking key `(bool, str)` that the load search
    sorts by: tuples compare element by element, `False < True`, and strings
    compare lexicographically by code point. */
module Ordering {

  /** Python's `a < b` on str. */
  predicate StrLt(a: string, b: string) {
    if a == [] then b != []
    else if b == [] then false
    else if a[0] != b[0] then a[0] < b[0]
    else StrLt(a[1..], b[1..])
  }

  lemma {:induction false} StrLtIrreflexive(a: string)
    ensures !StrLt(a, a)
  {
    if a != [] {
      StrLtIrreflexive(a[1..]);
    }
  }

  lemma {:induction false} StrLtTransitive(a: string, b: string, c: string)
    requires StrLt(a, b) && StrLt(b, c)
    ensures StrLt(a, c)
  {
    if a != [] && a[0] == b[0] && b[0] == c[0] {
      StrLtTransitive(a[1..], b[1..], c[1..]);
    }
  }

  /** Any two different strings are ordered one way or the other. */
  lemma {:induction false} StrLtTotal(a: string, b: string)
    requires a != b
    ensures StrLt(a, b) || StrLt(b, a)
  {
    if a != [] && b != [] && a[0] == b[0] {
      assert a == [a[0]] + a[1..] && b == [b[0]] + b[1..];
      StrLtTotal(a[1..], b[1..]);
    }
  }

  /** The sort key of one load: whether its equipment misses the requested
      type, then its pickup time as text. */
  datatype RankKey = RankKey(mismatch: bool, pickup: string)

  /** Python's `<` on the tuple `(mismatch, pickup)`. */
  predicate KeyLt(k1: RankKey, k2: RankKey) {
    (!k1.mismatch && k2.mismatch) || (k1.mismatch == k2.mismatch && StrLt(k1.pickup, k2.pickup))
  }

  lemma KeyLtIrreflexive(k: RankKey)
    ensures !KeyLt(k, k)
  {
    StrLtIrreflexive(k.pickup);
  }

  lemma KeyLtTransitive(k1: RankKey, k2: RankKey, k3: RankKey)
    requires KeyLt(k1, k2) && KeyLt(k2, k3)
    ensures KeyLt(k1, k3)
  {
    if k1.mismatch == k2.mismatch == k3.mismatch {
      StrLtTransitive(k1.pickup, k2.pickup, k3.pickup);
    }
  }

  /** Keys form a strict total order: any two are equal or ordered. */
  lemma KeyLtTotal(k1: RankKey, k2: RankKey)
    ensures k1 == k2 || KeyLt(k1, k2) || KeyLt(k2, k1)
  {
    if k1.pickup != k2.pickup {
      StrLtTotal(k1.pickup, k2.pickup);
    }
  }

  lemma KeyLtAsymmetric(k1: RankKey, k2: RankKey)
    ensures !(KeyLt(k1, k2) && KeyLt(k2, k1))
  {
    if KeyLt(k1, k2) && KeyLt(k2, k1) {
      KeyLtTransitive(k1, k2, k1);
      KeyLtIrreflexive(k1);
    }
  }

  /** k1 sorts no later than k2. */
  predicate KeyLe(k1: RankKey, k2: RankKey) {
    !KeyLt(k2, k1)
  }

  lemma KeyLtLeTransitive(k1: RankKey, k2: RankKey, k3: RankKey)
    requires KeyLt(k1, k2) && KeyLe(k2, k3)
    ensures KeyLt(k1, k3) && KeyLe(k1, k3)
  {
    KeyLtTotal(k2, k3);
    if k2 != k3 {
      KeyLtTransitive(k1, k2, k3);
    }
    KeyLtAsymmetric(k1, k3);
  }

  lemma KeyLeTransitive(k1: RankKey, k2: RankKey, k3: RankKey)
    requires KeyLe(k1, k2) && KeyLe(k2, k3)
    ensures KeyLe(k1, k3)
  {
    KeyLtTotal(k1, k2);
    if k1 != k2 {
      KeyLtLeTransitive(k1, k2, k3);
    }
  }
}

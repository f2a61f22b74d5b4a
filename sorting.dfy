/**
 * Python's `sorted(items, key=...)`: a stable sort on a key. The key order is
 * given as the strict "comes before" relation `lt`; `reverse=True` is the
 * same stable sort with `lt` flipped.
 */
module Sorting {

  /** `lt` never holds in both directions (hence never of a key and itself). */
  ghost predicate Asymmetric<K(!new)>(lt: (K, K) -> bool)
  {
    forall a, b :: lt(a, b) ==> !lt(b, a)
  }

  /** Places `x` before the first element of `l` that does not come strictly before it. */
  function Insert<T, K>(x: T, l: seq<T>, key: T -> K, lt: (K, K) -> bool): (r: seq<T>)
    ensures |r| == |l| + 1
  {
    if l == [] || !lt(key(l[0]), key(x)) then [x] + l
    else [l[0]] + Insert(x, l[1..], key, lt)
  }

  /** Stable insertion sort: equal keys keep their input order. */
  function SortBy<T, K>(s: seq<T>, key: T -> K, lt: (K, K) -> bool): (r: seq<T>)
    ensures |r| == |s|
  {
    if s == [] then [] else Insert(s[0], SortBy(s[1..], key, lt), key, lt)
  }

  /** Non-decreasing: no element's key comes strictly before its predecessor's. */
  ghost predicate SortedBy<T, K>(s: seq<T>, key: T -> K, lt: (K, K) -> bool)
  {
    forall i :: 0 < i < |s| ==> !lt(key(s[i]), key(s[i - 1]))
  }

  /** The elements of `s` whose key is `k`, in their order in `s`. */
  function KeyFilter<T, K(==)>(s: seq<T>, key: T -> K, k: K): seq<T>
  {
    if s == [] then [] else (if key(s[0]) == k then [s[0]] else []) + KeyFilter(s[1..], key, k)
  }

  lemma {:induction false} InsertSorted<T, K(!new)>(x: T, l: seq<T>, key: T -> K, lt: (K, K) -> bool)
    requires Asymmetric(lt) && SortedBy(l, key, lt)
    ensures SortedBy(Insert(x, l, key, lt), key, lt)
    ensures Insert(x, l, key, lt)[0] == x || (l != [] && Insert(x, l, key, lt)[0] == l[0])
  {
    if l != [] && lt(key(l[0]), key(x)) {
      assert SortedBy(l[1..], key, lt) by {
        forall i | 0 < i < |l[1..]| ensures !lt(key(l[1..][i]), key(l[1..][i - 1])) {
          assert l[1..][i] == l[i + 1] && l[1..][i - 1] == l[i];
        }
      }
      InsertSorted(x, l[1..], key, lt);
      var r := Insert(x, l, key, lt);
      var t := Insert(x, l[1..], key, lt);
      assert r == [l[0]] + t;
      forall i | 0 < i < |r| ensures !lt(key(r[i]), key(r[i - 1])) {
        if i == 1 {
          if t[0] == x {
            assert !lt(key(x), key(l[0]));
          } else {
            assert t[0] == l[1..][0] == l[1];
          }
        } else {
          assert r[i] == t[i - 1] && r[i - 1] == t[i - 2];
        }
      }
    }
  }

  /** `SortBy` yields a non-decreasing sequence. */
  lemma {:induction false} SortBySorted<T, K(!new)>(s: seq<T>, key: T -> K, lt: (K, K) -> bool)
    requires Asymmetric(lt)
    ensures SortedBy(SortBy(s, key, lt), key, lt)
  {
    if s != [] {
      SortBySorted(s[1..], key, lt);
      InsertSorted(s[0], SortBy(s[1..], key, lt), key, lt);
    }
  }

  lemma {:induction false} InsertMultiset<T, K>(x: T, l: seq<T>, key: T -> K, lt: (K, K) -> bool)
    ensures multiset(Insert(x, l, key, lt)) == multiset(l) + multiset{x}
  {
    if l != [] && lt(key(l[0]), key(x)) {
      InsertMultiset(x, l[1..], key, lt);
      assert l == [l[0]] + l[1..];
    }
  }

  /** `SortBy` rearranges its input: the result is a permutation of it. */
  lemma {:induction false} SortByPermutes<T, K>(s: seq<T>, key: T -> K, lt: (K, K) -> bool)
    ensures multiset(SortBy(s, key, lt)) == multiset(s)
  {
    if s != [] {
      SortByPermutes(s[1..], key, lt);
      InsertMultiset(s[0], SortBy(s[1..], key, lt), key, lt);
      assert s == [s[0]] + s[1..];
    }
  }

  lemma {:induction false} InsertKeyFilter<T, K(!new)>(x: T, l: seq<T>, key: T -> K, lt: (K, K) -> bool, k: K)
    requires Asymmetric(lt)
    ensures KeyFilter(Insert(x, l, key, lt), key, k) == KeyFilter([x] + l, key, k)
  {
    if l != [] && lt(key(l[0]), key(x)) {
      InsertKeyFilter(x, l[1..], key, lt, k);
      var r := Insert(x, l, key, lt);
      assert r == [l[0]] + Insert(x, l[1..], key, lt);
      assert r[1..] == Insert(x, l[1..], key, lt);
      assert ([x] + l)[1..] == l;
      assert ([x] + l[1..])[1..] == l[1..];
      assert l[1..] == l[1..];
      // l[0] strictly precedes x, so l[0] and x cannot both have key k
      assert key(l[0]) != key(x);
    }
  }

  /**
   * Stability: for every key, the elements with that key appear in the output
   * in exactly the order they had in the input.
   */
  lemma {:induction false} SortByStable<T, K(!new)>(s: seq<T>, key: T -> K, lt: (K, K) -> bool, k: K)
    requires Asymmetric(lt)
    ensures KeyFilter(SortBy(s, key, lt), key, k) == KeyFilter(s, key, k)
  {
    if s != [] {
      SortByStable(s[1..], key, lt, k);
      InsertKeyFilter(s[0], SortBy(s[1..], key, lt), key, lt, k);
      assert ([s[0]] + SortBy(s[1..], key, lt))[1..] == SortBy(s[1..], key, lt);
    }
  }

  /** The usual `<` on integers. */
  function IntLt(a: int, b: int): bool { a < b }

  /** `>` on integers, which is the order `sorted(..., reverse=True)` uses. */
  function IntGt(a: int, b: int): bool { a > b }

  lemma IntOrdersAsymmetric()
    ensures Asymmetric(IntLt) && Asymmetric(IntGt)
  {
  }
}

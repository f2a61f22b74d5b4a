/** Small shared building blocks: an optional value and integer sums. */
module Basics {

  /** Python's `None` / a present value. */
  datatype Option<T> = None | Some(value: T)

  /** Python's `sum` over a list of ints. */
  function Sum(s: seq<int>): int
  {
    if s == [] then 0 else s[0] + Sum(s[1..])
  }

  lemma {:induction false} SumAppend(a: seq<int>, b: seq<int>)
    ensures Sum(a + b) == Sum(a) + Sum(b)
  {
    if a == [] {
      assert a + b == b;
    } else {
      assert (a + b)[1..] == a[1..] + b;
      SumAppend(a[1..], b);
    }
  }

  /** Summing a list whose last element is split off. */
  lemma SumSnoc(a: seq<int>, x: int)
    ensures Sum(a + [x]) == Sum(a) + x
  {
    SumAppend(a, [x]);
  }

  /** A sum of elements that are all at least `lo` is at least `lo * |s|`. */
  lemma {:induction false} SumLowerBound(s: seq<int>, lo: int)
    requires forall i :: 0 <= i < |s| ==> lo <= s[i]
    ensures lo * |s| <= Sum(s)
  {
    if s != [] {
      SumLowerBound(s[1..], lo);
    }
  }

  /** `f` applied to each element, in order. */
  function Map<A, B>(f: A -> B, s: seq<A>): (r: seq<B>)
    ensures |r| == |s|
    ensures forall i :: 0 <= i < |s| ==> r[i] == f(s[i])
  {
    seq(|s|, i requires 0 <= i < |s| => f(s[i]))
  }

  lemma MapAppend<A, B>(f: A -> B, a: seq<A>, b: seq<A>)
    ensures Map(f, a + b) == Map(f, a) + Map(f, b)
  {
    var l, r := Map(f, a + b), Map(f, a) + Map(f, b);
    forall i | 0 <= i < |a + b| ensures l[i] == r[i] {
      if i < |a| {
        assert (a + b)[i] == a[i];
      } else {
        assert (a + b)[i] == b[i - |a|];
      }
    }
  }

  /** Summing a mapped list whose last element is split off. */
  lemma SumMapSnoc<A>(f: A -> int, s: seq<A>)
    requires s != []
    ensures Sum(Map(f, s)) == Sum(Map(f, s[..|s| - 1])) + f(s[|s| - 1])
  {
    var init := s[..|s| - 1];
    assert s == init + [s[|s| - 1]];
    MapAppend(f, init, [s[|s| - 1]]);
    assert Map(f, [s[|s| - 1]]) == [f(s[|s| - 1])];
    SumSnoc(Map(f, init), f(s[|s| - 1]));
  }

  /** The present values, in order. */
  function Somes<T>(os: seq<Option<T>>): (r: seq<T>)
    ensures |r| <= |os|
    ensures forall i :: 0 <= i < |r| ==> Some(r[i]) in os
  {
    if os == [] then []
    else
      var init := Somes(os[..|os| - 1]);
      var last := os[|os| - 1];
      assert forall x :: x in os[..|os| - 1] ==> x in os;
      if last.Some? then init + [last.value] else init
  }

  lemma AppendAssoc<T>(a: seq<T>, b: seq<T>, c: seq<T>)
    ensures (a + b) + c == a + (b + c)
  {
  }

  /** Extending the list by one entry adds that entry's value, if present. */
  lemma SomesSnoc<T>(os: seq<Option<T>>, i: nat)
    requires i < |os|
    ensures Somes(os[..i + 1]) == Somes(os[..i]) + (if os[i].Some? then [os[i].value] else [])
  {
    assert os[..i + 1][..i] == os[..i];
  }

  /** A list with no present value has no values. */
  lemma {:induction false} SomesOfNones<T>(os: seq<Option<T>>)
    requires forall i :: 0 <= i < |os| ==> os[i].None?
    ensures Somes(os) == []
  {
    if os != [] {
      SomesOfNones(os[..|os| - 1]);
    }
  }

  /** The values a mapping yields all satisfy `P` when every value it can yield does. */
  lemma SomesOfMap<A, B>(f: A -> Option<B>, P: B -> bool, s: seq<A>)
    requires forall x :: f(x).Some? ==> P(f(x).value)
    ensures forall i :: 0 <= i < |Somes(Map(f, s))| ==> P(Somes(Map(f, s))[i])
  {
    var os := Map(f, s);
    var r := Somes(os);
    forall i | 0 <= i < |r| ensures P(r[i]) {
      var j :| 0 <= j < |os| && os[j] == Some(r[i]);
      assert f(s[j]) == Some(r[i]);
    }
  }

  function Max(a: int, b: int): (m: int)
    ensures m >= a && m >= b && (m == a || m == b)
  {
    if a >= b then a else b
  }

  function Min(a: int, b: int): (m: int)
    ensures m <= a && m <= b && (m == a || m == b)
  {
    if a <= b then a else b
  }

  /** Python's `int(a / b)` for a positive divisor: division truncated toward zero. */
  function TruncDiv(a: int, b: int): (q: int)
    requires b > 0
    ensures a >= 0 ==> 0 <= q * b <= a < q * b + b
    ensures a < 0 ==> q * b - b < a <= q * b <= 0
  {
    if a >= 0 then
      DivBounds(a, b);
      a / b
    else
      NegDivBounds(a, b);
      -((-a) / b)
  }

  lemma DivRemainder(n: nat, b: int)
    requires b > 0
    ensures (n / b) * b <= n < (n / b) * b + b
  {
    assert n == (n / b) * b + n % b;
  }

  lemma DivBounds(a: int, b: int)
    requires b > 0 && a >= 0
    ensures 0 <= (a / b) * b <= a < (a / b) * b + b
  {
    DivRemainder(a, b);
  }

  lemma NegDivBounds(a: int, b: int)
    requires b > 0 && a < 0
    ensures var q := -((-a) / b); q * b - b < a <= q * b <= 0
  {
    var k := (-a) / b;
    DivRemainder(-a, b);
    assert 0 <= k;
    assert (-k) * b == -(k * b);
  }

  /** The elements in reverse order. */
  function Reverse<T>(s: seq<T>): (r: seq<T>)
    ensures |r| == |s|
    ensures forall i :: 0 <= i < |s| ==> r[i] == s[|s| - 1 - i]
  {
    if s == [] then [] else Reverse(s[1..]) + [s[0]]
  }
  /**
   * A list whose first `i` elements have been replaced, with element `i`
   * replaced as well: the prefix grows by one and the rest shrinks by one.
   */
  lemma SnocUpdate<T>(a: seq<T>, x: T, s: seq<T>, i: nat)
    requires |a| == i < |s|
    ensures (a + [x]) + s[i + 1..] == (a + s[i..])[i := x]
  {
    var l, r := (a + [x]) + s[i + 1..], (a + s[i..])[i := x];
    forall j | 0 <= j < |s| ensures l[j] == r[j] {
      if j > i {
        assert l[j] == s[j];
      }
    }
  }

  /** The elements of `s` satisfying `p`, in their order in `s`. */
  function Filter<T>(p: T -> bool, s: seq<T>): (r: seq<T>)
    ensures |r| <= |s|
  {
    if s == [] then [] else Filter(p, s[..|s| - 1]) + (if p(s[|s| - 1]) then [s[|s| - 1]] else [])
  }

  /** An element is kept exactly when it is in the list and satisfies `p`. */
  lemma {:induction false} FilterMembers<T>(p: T -> bool, s: seq<T>)
    ensures forall i :: 0 <= i < |Filter(p, s)| ==> Filter(p, s)[i] in s && p(Filter(p, s)[i])
    ensures forall i :: 0 <= i < |s| && p(s[i]) ==> s[i] in Filter(p, s)
  {
    if s != [] {
      var init := s[..|s| - 1];
      FilterMembers(p, init);
      assert forall i :: 0 <= i < |init| ==> init[i] == s[i];
      assert forall x :: x in init ==> x in s;
    }
  }

  /** Extending the list by one element extends the filtered list by it when it passes. */
  lemma FilterSnoc<T>(p: T -> bool, s: seq<T>, i: nat)
    requires i < |s|
    ensures Filter(p, s[..i + 1]) == Filter(p, s[..i]) + (if p(s[i]) then [s[i]] else [])
  {
    assert s[..i + 1][..i] == s[..i];
  }

  /**
   * The positions of the elements `Filter` keeps: strictly increasing, so the
   * kept elements are in their input order.
   */
  function FilterIndices<T>(p: T -> bool, s: seq<T>): (ix: seq<nat>)
    ensures |ix| == |Filter(p, s)|
    ensures forall k :: 0 <= k < |ix| ==> ix[k] < |s| && s[ix[k]] == Filter(p, s)[k]
    ensures forall k, l :: 0 <= k < l < |ix| ==> ix[k] < ix[l]
  {
    if s == [] then []
    else
      var ix := FilterIndices(p, s[..|s| - 1]);
      FilterIndicesSnoc(p, s, ix);
      ix + (if p(s[|s| - 1]) then [|s| - 1] else [])
  }

  /** Positions of the kept elements of all but the last, extended by the last one's when it is kept. */
  lemma FilterIndicesSnoc<T>(p: T -> bool, s: seq<T>, ix: seq<nat>)
    requires s != []
    requires |ix| == |Filter(p, s[..|s| - 1])|
    requires forall k :: 0 <= k < |ix| ==> ix[k] < |s| - 1 && s[..|s| - 1][ix[k]] == Filter(p, s[..|s| - 1])[k]
    requires forall k, l :: 0 <= k < l < |ix| ==> ix[k] < ix[l]
    ensures var r := ix + (if p(s[|s| - 1]) then [|s| - 1] else []);
      |r| == |Filter(p, s)|
      && (forall k :: 0 <= k < |r| ==> r[k] < |s| && s[r[k]] == Filter(p, s)[k])
      && (forall k, l :: 0 <= k < l < |r| ==> r[k] < r[l])
  {
    var init, last := s[..|s| - 1], s[|s| - 1];
    var tail: seq<nat> := if p(last) then [|s| - 1] else [];
    var r := ix + tail;
    var f := Filter(p, init);
    assert Filter(p, s) == f + (if p(last) then [last] else []);
    forall k | 0 <= k < |r| ensures r[k] < |s| && s[r[k]] == Filter(p, s)[k] {
      if k < |ix| {
        assert r[k] == ix[k];
        assert s[ix[k]] == init[ix[k]];
      }
    }
  }

  /** Nothing passes the filter exactly when no element satisfies `p`. */
  lemma {:induction false} FilterEmpty<T>(p: T -> bool, s: seq<T>)
    ensures Filter(p, s) == [] <==> forall i :: 0 <= i < |s| ==> !p(s[i])
  {
    if s != [] {
      var init := s[..|s| - 1];
      FilterEmpty(p, init);
      assert forall i :: 0 <= i < |init| ==> init[i] == s[i];
    }
  }

  /** A subset has no more elements than the set containing it. */
  lemma SubsetSize<T>(a: set<T>, b: set<T>)
    requires a <= b
    ensures |a| <= |b|
  {
    assert b == a + (b - a);
  }

  /** How many elements satisfy `p`. */
  function CountIf<T>(p: T -> bool, s: seq<T>): (n: nat)
    ensures n <= |s|
    ensures n == 0 <==> forall i :: 0 <= i < |s| ==> !p(s[i])
  {
    if s == [] then 0
    else
      assert forall i :: 1 <= i < |s| ==> s[i] == s[1..][i - 1];
      (if p(s[0]) then 1 else 0) + CountIf(p, s[1..])
  }

  /** Counting over a list extended by one element adds one when that element satisfies `f`. */
  lemma {:induction false} CountIfSnoc<X>(f: X -> bool, s: seq<X>, i: nat)
    requires i < |s|
    ensures CountIf(f, s[..i + 1]) == CountIf(f, s[..i]) + (if f(s[i]) then 1 else 0)
    decreases i
  {
    if i > 0 {
      var t := s[1..];
      assert s[..i + 1][1..] == t[..i] && s[..i][1..] == t[..i - 1];
      CountIfSnoc(f, t, i - 1);
    }
  }

  /** The count of elements satisfying `p` is the length of the list of those elements. */
  lemma {:induction false} CountIfIsFilterLength<T>(p: T -> bool, s: seq<T>)
    ensures CountIf(p, s) == |Filter(p, s)|
  {
    if s != [] {
      var init := s[..|s| - 1];
      CountIfIsFilterLength(p, init);
      CountIfSnoc(p, s, |s| - 1);
      assert s[..|s| - 1 + 1] == s;
    }
  }

  /** Filtering a list that starts with `x` keeps `x` first when it passes. */
  lemma {:induction false} FilterCons<T>(p: T -> bool, x: T, s: seq<T>)
    ensures Filter(p, [x] + s) == (if p(x) then [x] else []) + Filter(p, s)
    decreases |s|
  {
    if s != [] {
      var init := s[..|s| - 1];
      FilterCons(p, x, init);
      assert ([x] + s)[..|[x] + s| - 1] == [x] + init;
    }
  }

  /**
   * A list splits into the elements that pass `p` and those that pass its
   * negation `q`: together they are a rearrangement of the list.
   */
  lemma {:induction false} FilterPartition<T>(p: T -> bool, q: T -> bool, s: seq<T>)
    requires forall x :: q(x) == !p(x)
    ensures multiset(Filter(p, s)) + multiset(Filter(q, s)) == multiset(s)
    ensures |Filter(p, s)| + |Filter(q, s)| == |s|
  {
    if s != [] {
      var init, last := s[..|s| - 1], s[|s| - 1];
      FilterPartition(p, q, init);
      assert s == init + [last];
      var fp, fq := Filter(p, init), Filter(q, init);
      if p(last) {
        assert Filter(p, s) == fp + [last];
        assert Filter(q, s) == fq;
      } else {
        assert Filter(p, s) == fp;
        assert Filter(q, s) == fq + [last];
      }
      assert multiset(s) == multiset(init) + multiset{last};
    }
  }

  /** A list has at least as many elements as the set of its elements. */
  lemma {:induction false} DistinctAtMostLength<T>(s: seq<T>)
    ensures |(set x | x in s)| <= |s|
  {
    if s != [] {
      var init := s[..|s| - 1];
      DistinctAtMostLength(init);
      assert (set x | x in s) == (set x | x in init) + {s[|s| - 1]};
    }
  }
}

/**
 * Grouping by key, as an insertion-ordered Ruby hash does it: the distinct
 * keys in order of first appearance, and for each key the elements that
 * carry it. Used for group ids, definition names and material origins.
 */
module Collect {

  /** The elements of `s` whose key is `k`, in order. */
  function Filter<T, K(==)>(s: seq<T>, key: T -> K, k: K): (r: seq<T>)
    ensures |r| <= |s|
    ensures forall x :: x in r ==> x in s && key(x) == k
  {
    if s == [] then []
    else Filter(s[..|s| - 1], key, k) + (if key(s[|s| - 1]) == k then [s[|s| - 1]] else [])
  }

  /** The distinct keys of `s`, in order of their first appearance. */
  function Keys<T, K(==)>(s: seq<T>, key: T -> K): (ks: seq<K>)
    ensures forall i :: 0 <= i < |s| ==> key(s[i]) in ks
    ensures forall j, j' :: 0 <= j < j' < |ks| ==> ks[j] != ks[j']
  {
    if s == [] then []
    else
      var init := s[..|s| - 1];
      var ks := Keys(init, key);
      assert forall i :: 0 <= i < |init| ==> s[i] == init[i];
      if key(s[|s| - 1]) in ks then ks else ks + [key(s[|s| - 1])]
  }

  /** Two maps with the same keys and the same value at every key are equal. */
  lemma MapExt<K, V>(a: map<K, V>, b: map<K, V>)
    requires forall k :: k in a <==> k in b
    requires forall k :: k in a ==> a[k] == b[k]
    ensures a == b
  {
  }

  lemma SnocParts<T>(s: seq<T>, x: T)
    ensures (s + [x])[..|s|] == s && (s + [x])[|s|] == x
  {
    assert (s + [x])[..|s|] == s;
  }

  lemma FilterSnoc<T, K>(s: seq<T>, x: T, key: T -> K, k: K)
    ensures Filter(s + [x], key, k) == Filter(s, key, k) + (if key(x) == k then [x] else [])
  {
    SnocParts(s, x);
  }

  lemma KeysSnoc<T, K>(s: seq<T>, x: T, key: T -> K)
    ensures Keys(s + [x], key) == if key(x) in Keys(s, key) then Keys(s, key) else Keys(s, key) + [key(x)]
  {
    SnocParts(s, x);
  }

  /** Every listed key selects at least one element. */
  lemma {:induction false} FilterPresent<T, K>(s: seq<T>, key: T -> K, k: K)
    requires k in Keys(s, key)
    ensures Filter(s, key, k) != []
  {
    var init, x := s[..|s| - 1], s[|s| - 1];
    assert s == init + [x];
    KeysSnoc(init, x, key);
    FilterSnoc(init, x, key, k);
    if key(x) != k {
      FilterPresent(init, key, k);
    }
  }

  /** A key that never appears selects nothing. */
  lemma {:induction false} FilterAbsent<T, K>(s: seq<T>, key: T -> K, k: K)
    requires k !in Keys(s, key)
    ensures Filter(s, key, k) == []
  {
    if s != [] {
      var init := s[..|s| - 1];
      assert forall i :: 0 <= i < |init| ==> s[i] == init[i];
      FilterAbsent(init, key, k);
    }
  }

  /** Filter keeps exactly the elements with key `k`. */
  lemma {:induction false} FilterMembers<T, K>(s: seq<T>, key: T -> K, k: K)
    ensures forall x :: x in Filter(s, key, k) <==> x in s && key(x) == k
  {
    if s != [] {
      var init, x := s[..|s| - 1], s[|s| - 1];
      assert s == init + [x];
      FilterMembers(init, key, k);
      FilterSnoc(init, x, key, k);
    }
  }

  /** The first element selected is the first element of `s` with key `k`. */
  lemma {:induction false} FilterHead<T, K>(s: seq<T>, key: T -> K, k: K)
    requires Filter(s, key, k) != []
    ensures exists i :: 0 <= i < |s| && s[i] == Filter(s, key, k)[0] && key(s[i]) == k &&
                        (forall j :: 0 <= j < i ==> key(s[j]) != k)
  {
    var init, x := s[..|s| - 1], s[|s| - 1];
    assert s == init + [x];
    FilterSnoc(init, x, key, k);
    if Filter(init, key, k) != [] {
      FilterHead(init, key, k);
      var i :| 0 <= i < |init| && init[i] == Filter(init, key, k)[0] && key(init[i]) == k &&
               (forall j :: 0 <= j < i ==> key(init[j]) != k);
      assert s[i] == init[i];
      forall j | 0 <= j < i ensures key(s[j]) != k {
        assert s[j] == init[j];
      }
      assert s[i] == Filter(s, key, k)[0];
    } else {
      FilterMembers(init, key, k);
      forall j | 0 <= j < |init| ensures key(s[j]) != k {
        assert s[j] == init[j];
        assert init[j] in init;
      }
      assert s[|init|] == Filter(s, key, k)[0];
    }
  }

  /** The last element selected is the last element of `s` with key `k`. */
  lemma {:induction false} FilterLast<T, K>(s: seq<T>, key: T -> K, k: K)
    requires Filter(s, key, k) != []
    ensures var f := Filter(s, key, k);
      exists i :: 0 <= i < |s| && s[i] == f[|f| - 1] && key(s[i]) == k &&
                  (forall j :: i < j < |s| ==> key(s[j]) != k)
  {
    var init, x := s[..|s| - 1], s[|s| - 1];
    assert s == init + [x];
    FilterSnoc(init, x, key, k);
    if key(x) != k {
      FilterLast(init, key, k);
      var f := Filter(init, key, k);
      var i :| 0 <= i < |init| && init[i] == f[|f| - 1] && key(init[i]) == k &&
               (forall j :: i < j < |init| ==> key(init[j]) != k);
      assert s[i] == init[i];
      forall j | i < j < |s| ensures key(s[j]) != k {
        if j < |init| {
          assert s[j] == init[j];
        }
      }
    } else {
      assert s[|s| - 1] == x;
    }
  }

  /** The number of elements selected by the keys of `ks`, key by key. */
  function SumSizes<T, K(==)>(ks: seq<K>, s: seq<T>, key: T -> K): nat {
    if ks == [] then 0 else SumSizes(ks[..|ks| - 1], s, key) + |Filter(s, key, ks[|ks| - 1])|
  }

  /** Adding one element adds one to the total exactly when its key is listed. */
  lemma {:induction false} SumSizesSnoc<T, K>(ks: seq<K>, s: seq<T>, x: T, key: T -> K)
    requires forall j, j' :: 0 <= j < j' < |ks| ==> ks[j] != ks[j']
    ensures SumSizes(ks, s + [x], key) == SumSizes(ks, s, key) + (if key(x) in ks then 1 else 0)
  {
    if ks != [] {
      var init := ks[..|ks| - 1];
      assert forall j :: 0 <= j < |init| ==> init[j] == ks[j];
      SumSizesSnoc(init, s, x, key);
      FilterSnoc(s, x, key, ks[|ks| - 1]);
      assert key(x) in ks <==> key(x) in init || key(x) == ks[|ks| - 1];
    }
  }

  lemma SumSizesAppend<T, K>(ks: seq<K>, k: K, s: seq<T>, key: T -> K)
    ensures SumSizes(ks + [k], s, key) == SumSizes(ks, s, key) + |Filter(s, key, k)|
  {
    SnocParts(ks, k);
  }

  /** Every element sits under exactly one of the distinct keys: the sizes add up to `|s|`. */
  lemma {:induction false} Partition<T, K>(s: seq<T>, key: T -> K)
    ensures SumSizes(Keys(s, key), s, key) == |s|
  {
    if s != [] {
      var init, x := s[..|s| - 1], s[|s| - 1];
      assert s == init + [x];
      Partition(init, key);
      var ks := Keys(init, key);
      SumSizesSnoc(ks, init, x, key);
      KeysSnoc(init, x, key);
      if key(x) !in ks {
        SumSizesAppend(ks, key(x), s, key);
        FilterSnoc(init, x, key, key(x));
        FilterAbsent(init, key, key(x));
      }
    }
  }

  /** Over any distinct keys, the selected elements never outnumber the whole. */
  lemma {:induction false} SumSizesBound<T, K>(ks: seq<K>, s: seq<T>, key: T -> K)
    requires forall j, j' :: 0 <= j < j' < |ks| ==> ks[j] != ks[j']
    ensures SumSizes(ks, s, key) <= |s|
  {
    if s == [] {
      SumSizesEmpty(ks, key);
    } else {
      var init, x := s[..|s| - 1], s[|s| - 1];
      assert s == init + [x];
      SumSizesBound(ks, init, key);
      SumSizesSnoc(ks, init, x, key);
    }
  }

  lemma {:induction false} SumSizesEmpty<T, K>(ks: seq<K>, key: T -> K)
    ensures SumSizes(ks, [], key) == 0
  {
    if ks != [] {
      SumSizesEmpty(ks[..|ks| - 1], key);
    }
  }

  /** The sum of `f` over the elements of `s`. */
  function SumOf<T>(s: seq<T>, f: T -> int): int {
    if s == [] then 0 else SumOf(s[..|s| - 1], f) + f(s[|s| - 1])
  }

  lemma SumOfSnoc<T>(s: seq<T>, x: T, f: T -> int)
    ensures SumOf(s + [x], f) == SumOf(s, f) + f(x)
  {
    SnocParts(s, x);
  }

  lemma {:induction false} SumOfAppend<T>(a: seq<T>, b: seq<T>, f: T -> int)
    ensures SumOf(a + b, f) == SumOf(a, f) + SumOf(b, f)
  {
    if b != [] {
      var init := b[..|b| - 1];
      assert (a + b)[..|a + b| - 1] == a + init;
      SumOfAppend(a, init, f);
    } else {
      assert a + b == a;
    }
  }

  /** Taking out one element takes its term out of the sum. */
  lemma SumOfMiddle<T>(left: seq<T>, x: T, right: seq<T>, f: T -> int)
    ensures SumOf(left + [x] + right, f) == SumOf(left + right, f) + f(x)
  {
    SumOfAppend(left + [x], right, f);
    SumOfSnoc(left, x, f);
    SumOfAppend(left, right, f);
  }

  lemma MultisetMiddle<T>(left: seq<T>, x: T, right: seq<T>)
    ensures multiset(left + [x] + right) == multiset(left + right) + multiset{x}
  {
    assert multiset(left + [x] + right) == multiset(left) + multiset{x} + multiset(right);
  }

  lemma MultisetCancel<T>(p: multiset<T>, q: multiset<T>, x: T)
    requires p + multiset{x} == q + multiset{x}
    ensures p == q
  {
    assert p == (p + multiset{x}) - multiset{x};
    assert q == (q + multiset{x}) - multiset{x};
  }

  /** A sum does not depend on the order of its terms. */
  lemma {:induction false} SumOfPermutation<T>(a: seq<T>, b: seq<T>, f: T -> int)
    requires multiset(a) == multiset(b)
    ensures SumOf(a, f) == SumOf(b, f)
    decreases |a|
  {
    if a == [] {
      assert |b| == |multiset(b)| == 0;
    } else {
      var init, x := a[..|a| - 1], a[|a| - 1];
      assert a == init + [x];
      assert multiset(a) == multiset(init) + multiset{x};
      assert x in multiset(b);
      var i :| 0 <= i < |b| && b[i] == x;
      var left, right := b[..i], b[i + 1..];
      assert b == left + [x] + right;
      MultisetMiddle(left, x, right);
      MultisetCancel(multiset(init), multiset(left + right), x);
      SumOfMiddle(left, x, right, f);
      SumOfPermutation(init, left + right, f);
    }
  }

  /** Two sums agree when their terms agree position by position. */
  lemma {:induction false} SumOfPointwise<A, B>(a: seq<A>, b: seq<B>, f: A -> int, g: B -> int)
    requires |a| == |b|
    requires forall i :: 0 <= i < |a| ==> f(a[i]) == g(b[i])
    ensures SumOf(a, f) == SumOf(b, g)
  {
    if a != [] {
      var n := |a| - 1;
      assert forall i :: 0 <= i < n ==> a[..n][i] == a[i] && b[..n][i] == b[i];
      SumOfPointwise(a[..n], b[..n], f, g);
    }
  }

  /** Sequences holding the same multiset hold the same elements. */
  lemma SameMembers<T>(a: seq<T>, b: seq<T>)
    requires multiset(a) == multiset(b)
    ensures forall x :: x in a <==> x in b
  {
    forall x ensures x in a <==> x in b {
      assert x in a <==> x in multiset(a);
      assert x in b <==> x in multiset(b);
    }
  }
}

/**
 * Ordering of the report: Ruby compares `sort_by` keys as arrays,
 * element by element, numbers numerically and strings character by
 * character. A key here is a sequence of such parts, and SortBy sorts a
 * sequence by a key function.
 */
module Sorting {
  import opened Collect

  datatype KeyPart = Num(n: int) | Text(s: string)

  type SortKey = seq<KeyPart>

  /** String#downcase on ASCII letters; every other character is kept. */
  function Lower(s: string): (r: string)
    ensures |r| == |s|
    ensures forall i :: 0 <= i < |s| ==>
      r[i] == (if 'A' <= s[i] <= 'Z' then (s[i] as int + 32) as char else s[i])
  {
    if s == [] then []
    else
      var c := s[0];
      [if 'A' <= c <= 'Z' then (c as int + 32) as char else c] + Lower(s[1..])
  }

  /** String#<=> returning -1: `s` is a proper prefix of `t` or differs first by a smaller character. */
  predicate StrLt(s: string, t: string) {
    t != [] && (s == [] || s[0] < t[0] || (s[0] == t[0] && StrLt(s[1..], t[1..])))
  }

  predicate PartLt(p: KeyPart, q: KeyPart) {
    match (p, q)
    case (Num(x), Num(y)) => x < y
    case (Text(s), Text(t)) => StrLt(s, t)
    case (Num(_), Text(_)) => true
    case (Text(_), Num(_)) => false
  }

  /** Array#<=> on keys, not above: the first differing part decides, and a prefix comes first. */
  predicate KeyLe(a: SortKey, b: SortKey) {
    a == [] || (b != [] && (PartLt(a[0], b[0]) || (a[0] == b[0] && KeyLe(a[1..], b[1..]))))
  }

  lemma {:induction false} StrLtTrans(s: string, t: string, u: string)
    requires StrLt(s, t) && StrLt(t, u)
    ensures StrLt(s, u)
  {
    if s != [] && s[0] == t[0] && t[0] == u[0] {
      StrLtTrans(s[1..], t[1..], u[1..]);
    }
  }

  lemma {:induction false} StrLtTotal(s: string, t: string)
    ensures s == t || StrLt(s, t) || StrLt(t, s)
  {
    if s != [] && t != [] && s[0] == t[0] {
      StrLtTotal(s[1..], t[1..]);
      if s[1..] == t[1..] {
        assert s == [s[0]] + s[1..] && t == [t[0]] + t[1..];
      }
    }
  }

  lemma PartLtTrans(p: KeyPart, q: KeyPart, r: KeyPart)
    requires PartLt(p, q) && PartLt(q, r)
    ensures PartLt(p, r)
  {
    if p.Text? {
      StrLtTrans(p.s, q.s, r.s);
    }
  }

  lemma PartLtTotal(p: KeyPart, q: KeyPart)
    ensures p == q || PartLt(p, q) || PartLt(q, p)
  {
    if p.Text? && q.Text? {
      StrLtTotal(p.s, q.s);
    }
  }

  lemma {:induction false} KeyLeRefl(a: SortKey)
    ensures KeyLe(a, a)
  {
    if a != [] {
      KeyLeRefl(a[1..]);
    }
  }

  /** Any two keys are comparable. */
  lemma {:induction false} KeyLeTotal(a: SortKey, b: SortKey)
    ensures KeyLe(a, b) || KeyLe(b, a)
  {
    if a != [] && b != [] {
      PartLtTotal(a[0], b[0]);
      KeyLeTotal(a[1..], b[1..]);
    }
  }

  /** The key order is transitive. */
  lemma {:induction false} KeyLeTrans(a: SortKey, b: SortKey, c: SortKey)
    requires KeyLe(a, b) && KeyLe(b, c)
    ensures KeyLe(a, c)
  {
    if a != [] {
      if PartLt(a[0], b[0]) && PartLt(b[0], c[0]) {
        PartLtTrans(a[0], b[0], c[0]);
      } else if a[0] == b[0] && b[0] == c[0] {
        KeyLeTrans(a[1..], b[1..], c[1..]);
      }
    }
  }

  /** `s` is in non-decreasing key order, every pair compared. */
  predicate SortedBy<T>(s: seq<T>, key: T -> SortKey) {
    forall i, j :: 0 <= i < j < |s| ==> KeyLe(key(s[i]), key(s[j]))
  }

  /** `x` placed after the last element whose key is not above it, so after every equal key. */
  function Insert<T>(x: T, s: seq<T>, key: T -> SortKey): (r: seq<T>)
    ensures multiset(r) == multiset(s) + multiset{x}
    ensures |r| == |s| + 1
  {
    if s == [] then [x]
    else if KeyLe(key(s[|s| - 1]), key(x)) then s + [x]
    else
      assert s == s[..|s| - 1] + [s[|s| - 1]];
      Insert(x, s[..|s| - 1], key) + [s[|s| - 1]]
  }

  /** A sequence sorted by key stays sorted under a new last element with the greatest key. */
  lemma SortedSnoc<T>(t: seq<T>, y: T, key: T -> SortKey)
    requires SortedBy(t, key)
    requires forall j :: 0 <= j < |t| ==> KeyLe(key(t[j]), key(y))
    ensures SortedBy(t + [y], key)
  {
    var r := t + [y];
    forall i, j | 0 <= i < j < |r| ensures KeyLe(key(r[i]), key(r[j])) {
      assert r[i] == t[i];
      if j < |t| {
        assert r[j] == t[j];
      }
    }
  }

  lemma SortedInit<T>(s: seq<T>, key: T -> SortKey)
    requires s != [] && SortedBy(s, key)
    ensures SortedBy(s[..|s| - 1], key)
  {
    var init := s[..|s| - 1];
    forall i, j | 0 <= i < j < |init| ensures KeyLe(key(init[i]), key(init[j])) {
      assert init[i] == s[i] && init[j] == s[j];
    }
  }

  lemma {:induction false} InsertSorted<T>(x: T, s: seq<T>, key: T -> SortKey)
    requires SortedBy(s, key)
    ensures SortedBy(Insert(x, s, key), key)
  {
    if s == [] {
    } else {
      var init, last := s[..|s| - 1], s[|s| - 1];
      if KeyLe(key(last), key(x)) {
        forall j | 0 <= j < |s| ensures KeyLe(key(s[j]), key(x)) {
          if j < |s| - 1 {
            KeyLeTrans(key(s[j]), key(last), key(x));
          }
        }
        SortedSnoc(s, x, key);
      } else {
        KeyLeTotal(key(x), key(last));
        SortedInit(s, key);
        var t := Insert(x, init, key);
        InsertSorted(x, init, key);
        forall j | 0 <= j < |t| ensures KeyLe(key(t[j]), key(last)) {
          assert t[j] in multiset(t);
          if t[j] != x {
            assert t[j] in multiset(init);
            var k :| 0 <= k < |init| && init[k] == t[j];
            assert s[k] == t[j];
          }
        }
        SortedSnoc(t, last, key);
      }
    }
  }

  /** `x` joins the elements with its key after all of them; the others keep their order. */
  lemma {:induction false} InsertFilter<T>(x: T, s: seq<T>, key: T -> SortKey, k: SortKey)
    ensures Filter(Insert(x, s, key), key, k) == Filter(s, key, k) + (if key(x) == k then [x] else [])
  {
    if s == [] {
      FilterSnoc([], x, key, k);
      assert [] + [x] == [x];
    } else if KeyLe(key(s[|s| - 1]), key(x)) {
      FilterSnoc(s, x, key, k);
    } else {
      var init, last := s[..|s| - 1], s[|s| - 1];
      assert s == init + [last];
      InsertFilter(x, init, key, k);
      InsertFilterPast(x, init, last, key, k);
    }
  }

  lemma InsertFilterPast<T>(x: T, init: seq<T>, last: T, key: T -> SortKey, k: SortKey)
    requires !KeyLe(key(last), key(x))
    requires Filter(Insert(x, init, key), key, k) == Filter(init, key, k) + (if key(x) == k then [x] else [])
    ensures Filter(Insert(x, init + [last], key), key, k) == Filter(init + [last], key, k) + (if key(x) == k then [x] else [])
  {
    InsertPast(x, init, last, key);
    KeyLeRefl(key(x));
    FilterSwap(Insert(x, init, key), init, x, last, key, k);
  }

  /** Inserting before a last element that is above `x`. */
  lemma InsertPast<T>(x: T, init: seq<T>, last: T, key: T -> SortKey)
    requires !KeyLe(key(last), key(x))
    ensures Insert(x, init + [last], key) == Insert(x, init, key) + [last]
  {
    SnocParts(init, last);
  }

  /** Appending an element of another key after `x` leaves `x` the last element of its key. */
  lemma FilterSwap<T>(t: seq<T>, init: seq<T>, x: T, last: T, key: T -> SortKey, k: SortKey)
    requires key(x) == k ==> key(last) != k
    requires Filter(t, key, k) == Filter(init, key, k) + (if key(x) == k then [x] else [])
    ensures Filter(t + [last], key, k) == Filter(init + [last], key, k) + (if key(x) == k then [x] else [])
  {
    FilterSnoc(t, last, key, k);
    FilterSnoc(init, last, key, k);
  }

  /**
   * `sort_by` with `key`: the result holds the same elements, with the same
   * multiplicities, in non-decreasing key order; equal keys keep their input
   * order (SortByStable).
   */
  function SortBy<T>(s: seq<T>, key: T -> SortKey): (r: seq<T>)
    ensures multiset(r) == multiset(s)
    ensures |r| == |s|
    ensures SortedBy(r, key)
  {
    if s == [] then []
    else
      var init := s[..|s| - 1];
      assert s == init + [s[|s| - 1]];
      var sorted := SortBy(init, key);
      InsertSorted(s[|s| - 1], sorted, key);
      Insert(s[|s| - 1], sorted, key)
  }

  /**
   * The sort is stable: the elements that share a key come out in their input
   * order (Ruby's `sort_by` does not promise this; the model fixes it).
   */
  lemma {:induction false} SortByStable<T>(s: seq<T>, key: T -> SortKey, k: SortKey)
    ensures Filter(SortBy(s, key), key, k) == Filter(s, key, k)
  {
    if s != [] {
      var init, x := s[..|s| - 1], s[|s| - 1];
      assert s == init + [x];
      SortByStable(init, key, k);
      InsertFilter(x, SortBy(init, key), key, k);
      FilterSnoc(init, x, key, k);
    }
  }
}

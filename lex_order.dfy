/** Lexicographic order on tuples of integer columns, the order of SQL's
    `ORDER BY c1, c2, ...`, and a stable sort of records by such a key. */
module LexOrder {

  /** `a` sorts strictly before `b`: the first differing column decides, and a
      proper prefix sorts first. */
  predicate Less(a: seq<int>, b: seq<int>)
    decreases |a|
  {
    if a == [] then b != []
    else if b == [] then false
    else a[0] < b[0] || (a[0] == b[0] && Less(a[1..], b[1..]))
  }

  predicate LessEq(a: seq<int>, b: seq<int>)
  {
    a == b || Less(a, b)
  }

  lemma {:induction false} LessIrreflexive(a: seq<int>)
    ensures !Less(a, a)
    decreases |a|
  {
    if a != [] {
      LessIrreflexive(a[1..]);
    }
  }

  lemma {:induction false} LessTransitive(a: seq<int>, b: seq<int>, c: seq<int>)
    requires Less(a, b) && Less(b, c)
    ensures Less(a, c)
    decreases |a|
  {
    if a != [] {
      if a[0] == b[0] && b[0] == c[0] {
        LessTransitive(a[1..], b[1..], c[1..]);
      }
    }
  }

  lemma {:induction false} LessTotal(a: seq<int>, b: seq<int>)
    requires a != b
    ensures Less(a, b) || Less(b, a)
    decreases |a|
  {
    if a != [] && b != [] && a[0] == b[0] {
      assert a == [a[0]] + a[1..] && b == [b[0]] + b[1..];
      LessTotal(a[1..], b[1..]);
    }
  }

  /** Two-column keys: the order is "first column, then second column". */
  lemma PairLess(x1: int, y1: int, x2: int, y2: int)
    ensures Less([x1, y1], [x2, y2]) <==> x1 < x2 || (x1 == x2 && y1 < y2)
  {
    assert [x1, y1][1..] == [y1] && [x2, y2][1..] == [y2];
    assert [y1][1..] == [] && [y2][1..] == [];
    assert Less([y1], [y2]) <==> y1 < y2;
    assert Less([x1, y1], [x2, y2]) <==> x1 < x2 || (x1 == x2 && Less([y1], [y2]));
  }

  /** Three-column keys: the order is lexicographic over the three columns. */
  lemma TripleLess(x1: int, y1: int, z1: int, x2: int, y2: int, z2: int)
    ensures Less([x1, y1, z1], [x2, y2, z2]) <==>
              x1 < x2 || (x1 == x2 && (y1 < y2 || (y1 == y2 && z1 < z2)))
  {
    assert [x1, y1, z1][1..] == [y1, z1] && [x2, y2, z2][1..] == [y2, z2];
    PairLess(y1, z1, y2, z2);
  }

  /** Adjacent elements are in key order (ties allowed). */
  predicate SortedBy<T>(s: seq<T>, key: T -> seq<int>)
  {
    forall i :: 0 <= i < |s| - 1 ==> LessEq(key(s[i]), key(s[i + 1]))
  }

  /** Inserts `x` in front of the first element whose key is not smaller, so
      that `x` stays ahead of the elements with an equal key. */
  function InsertByKey<T>(x: T, ys: seq<T>, key: T -> seq<int>): (r: seq<T>)
    requires SortedBy(ys, key)
    ensures SortedBy(r, key)
    ensures multiset(r) == multiset(ys) + multiset{x}
    ensures r[0] == x || (ys != [] && r[0] == ys[0])
    decreases |ys|
  {
    if ys == [] || LessEq(key(x), key(ys[0])) then
      [x] + ys
    else
      var rest := InsertByKey(x, ys[1..], key);
      LessTotal(key(x), key(ys[0]));
      assert ys == [ys[0]] + ys[1..];
      [ys[0]] + rest
  }

  /** Stable insertion sort by key: the result is a permutation of the input in
      key order, and elements with equal keys keep their input order. */
  function SortByKey<T>(xs: seq<T>, key: T -> seq<int>): (r: seq<T>)
    ensures SortedBy(r, key)
    ensures multiset(r) == multiset(xs)
    decreases |xs|
  {
    if xs == [] then []
    else
      assert xs == [xs[0]] + xs[1..];
      InsertByKey(xs[0], SortByKey(xs[1..], key), key)
  }

  /** In a sorted sequence every earlier element is at most every later one. */
  lemma {:induction false} SortedByPairwise<T>(s: seq<T>, key: T -> seq<int>, i: int, j: int)
    requires SortedBy(s, key)
    requires 0 <= i <= j < |s|
    ensures LessEq(key(s[i]), key(s[j]))
    decreases j - i
  {
    if i < j {
      SortedByPairwise(s, key, i + 1, j);
      if key(s[i]) != key(s[i + 1]) && key(s[i + 1]) != key(s[j]) {
        LessTransitive(key(s[i]), key(s[i + 1]), key(s[j]));
      }
    }
  }

  /** A property of every element survives a permutation. */
  lemma AllSurvivePermutation<T>(xs: seq<T>, ys: seq<T>, p: T -> bool)
    requires multiset(xs) == multiset(ys)
    requires forall i :: 0 <= i < |xs| ==> p(xs[i])
    ensures forall j :: 0 <= j < |ys| ==> p(ys[j])
  {
    forall j | 0 <= j < |ys|
      ensures p(ys[j])
    {
      assert ys[j] in multiset(xs);
      var i :| 0 <= i < |xs| && xs[i] == ys[j];
    }
  }

  /** Two different positions holding the same value make it occur at least
      twice. */
  lemma OccursTwice<T>(s: seq<T>, i: int, j: int)
    requires 0 <= i < j < |s| && s[i] == s[j]
    ensures multiset(s)[s[i]] >= 2
  {
    assert s == s[..i] + [s[i]] + s[i + 1..j] + [s[j]] + s[j + 1..];
  }

  /** A value whose key no other position shares occurs exactly once. */
  lemma OccursOnce<T, K>(s: seq<T>, a: int, key: T -> K)
    requires 0 <= a < |s|
    requires forall b :: 0 <= b < |s| && b != a ==> key(s[b]) != key(s[a])
    ensures multiset(s)[s[a]] == 1
  {
    var before, after := s[..a], s[a + 1..];
    assert s == before + [s[a]] + after;
    assert forall b :: 0 <= b < |before| ==> before[b] != s[a];
    assert forall b :: 0 <= b < |after| ==> after[b] != s[a] by {
      forall b | 0 <= b < |after|
        ensures after[b] != s[a]
      {
        assert after[b] == s[a + 1 + b];
      }
    }
  }

  /** Keys that are pairwise distinct stay pairwise distinct under a
      permutation. */
  lemma DistinctKeysSurvivePermutation<T, K>(xs: seq<T>, ys: seq<T>, key: T -> K)
    requires multiset(xs) == multiset(ys)
    requires forall a, b :: 0 <= a < b < |xs| ==> key(xs[a]) != key(xs[b])
    ensures forall i, j :: 0 <= i < j < |ys| ==> key(ys[i]) != key(ys[j])
  {
    forall i, j | 0 <= i < j < |ys|
      ensures key(ys[i]) != key(ys[j])
    {
      assert ys[i] in multiset(xs) && ys[j] in multiset(xs);
      var a :| 0 <= a < |xs| && xs[a] == ys[i];
      var b :| 0 <= b < |xs| && xs[b] == ys[j];
      if a == b {
        OccursTwice(ys, i, j);
        OccursOnce(xs, a, key);
      }
    }
  }

}

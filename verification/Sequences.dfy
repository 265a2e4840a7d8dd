// Sequences: the last few elements, counting, sorting by an order with ties.
module Sequences {

  /** The last n elements, or all there are. */
  function Last<T>(s: seq<T>, n: nat): (r: seq<T>)
    ensures |r| <= |s|
  {
    if |s| > n then s[|s| - n..] else s
  }

  lemma LastGrows<T>(s: seq<T>, x: T, n: nat)
    ensures Last(Last(s, n) + [x], n) == Last(s + [x], n)
  {
  }

  function CountTrue(bs: seq<bool>): (n: nat)
    ensures n <= |bs|
  {
    if bs == [] then 0 else CountTrue(bs[..|bs| - 1]) + if bs[|bs| - 1] then 1 else 0
  }

  lemma CountUpdate(bs: seq<bool>, i: nat, b: bool)
    requires i < |bs| && bs[i] != b
    ensures CountTrue(bs[i := b]) == CountTrue(bs) + if b then 1 else -1
  {
    var n := |bs| - 1;
    if i < n {
      CountUpdate(bs[..n], i, b);
      assert bs[i := b][..n] == bs[..n][i := b];
    } else {
      assert bs[i := b][..n] == bs[..n];
    }
  }

  // ----- sorting

  /** A strict order in which elements may tie. */
  ghost predicate Orders<T(!new)>(before: (T, T) -> bool) {
    && (forall a, b :: before(a, b) ==> !before(b, a))
    && (forall a, b, c :: !before(a, b) && !before(b, c) ==> !before(a, c))
  }

  predicate Sorted<T>(s: seq<T>, before: (T, T) -> bool) { forall i, j :: 0 <= i < j < |s| ==> !before(s[j], s[i]) }

  predicate Distinct<T, K(==)>(s: seq<T>, key: T -> K) { forall i, j :: 0 <= i < j < |s| ==> key(s[i]) != key(s[j]) }

  function Insert<T(!new)>(s: seq<T>, x: T, before: (T, T) -> bool): (r: seq<T>)
    ensures |r| == |s| + 1 && forall a :: a in r <==> a in s || a == x
  {
    if s == [] then [x]
    else if !before(x, s[|s| - 1]) then s + [x]
    else
      assert s == s[..|s| - 1] + [s[|s| - 1]];
      Insert(s[..|s| - 1], x, before) + [s[|s| - 1]]
  }

  /** sort.Slice; elements that tie may end up in any order, here in the order they had. */
  function Sort<T(!new)>(s: seq<T>, before: (T, T) -> bool): (r: seq<T>)
    ensures |r| == |s| && forall a :: a in r <==> a in s
  {
    if s == [] then []
    else
      assert s == s[..|s| - 1] + [s[|s| - 1]];
      Insert(Sort(s[..|s| - 1], before), s[|s| - 1], before)
  }

  lemma InsertSorts<T(!new)>(s: seq<T>, x: T, before: (T, T) -> bool)
    requires Orders(before) && Sorted(s, before)
    ensures Sorted(Insert(s, x, before), before)
  {
    if s != [] && before(x, s[|s| - 1]) {
      var front, last := s[..|s| - 1], s[|s| - 1];
      InsertSorts(front, x, before);
      var r := Insert(front, x, before);
      forall i | 0 <= i < |r| ensures !before(last, r[i]) {
        assert r[i] in r;
        if r[i] in front {
          var k :| 0 <= k < |front| && front[k] == r[i];
          assert s[k] == r[i];
        }
      }
    }
  }

  lemma InsertKeepsDistinct<T(!new), K>(s: seq<T>, x: T, before: (T, T) -> bool, key: T -> K)
    requires Distinct(s, key) && forall a :: a in s ==> key(a) != key(x)
    ensures Distinct(Insert(s, x, before), key)
  {
    if s != [] && before(x, s[|s| - 1]) {
      var front, last := s[..|s| - 1], s[|s| - 1];
      InsertKeepsDistinct(front, x, before, key);
      var r := Insert(front, x, before);
      forall i | 0 <= i < |r| ensures key(r[i]) != key(last) {
        assert r[i] in r;
        if r[i] in front {
          var k :| 0 <= k < |front| && front[k] == r[i];
          assert s[k] == r[i];
        }
      }
    }
  }

  lemma {:induction false} SortSorts<T(!new), K>(s: seq<T>, before: (T, T) -> bool, key: T -> K)
    requires Orders(before) && Distinct(s, key)
    ensures Sorted(Sort(s, before), before) && Distinct(Sort(s, before), key)
  {
    hide Insert, Orders;
    if s != [] {
      var front := s[..|s| - 1];
      SortSorts(front, before, key);
      forall a | a in Sort(front, before) ensures key(a) != key(s[|s| - 1]) {
        assert a in front;
        var k :| 0 <= k < |front| && front[k] == a;
        assert s[k] == a;
      }
      InsertSorts(Sort(front, before), s[|s| - 1], before);
      InsertKeepsDistinct(Sort(front, before), s[|s| - 1], before, key);
    }
  }
}

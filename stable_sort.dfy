/**
 * A stable sort in descending order of a numeric key: the behaviour of
 * Array.prototype.sort with the comparator (a, b) => key(b) - key(a), which
 * the language requires to be stable.
 */
module StableSort {
  import opened Seqs

  predicate SortedDesc<T>(s: seq<T>, key: T -> real) {
    forall i, j :: 0 <= i < j < |s| ==> key(s[i]) >= key(s[j])
  }

  /** The number of leading elements of `s` whose key is at least `x`'s: where `x` goes. */
  function InsertPos<T>(x: T, s: seq<T>, key: T -> real): (k: nat)
    requires SortedDesc(s, key)
    ensures k <= |s|
    ensures forall i :: 0 <= i < k ==> key(s[i]) >= key(x)
    ensures forall i :: k <= i < |s| ==> key(s[i]) < key(x)
  {
    if s == [] then 0
    else if key(s[0]) >= key(x) then 1 + InsertPos(x, s[1..], key)
    else 0
  }

  /** Inserts `x` after every element whose key is at least `x`'s. */
  function Insert<T>(x: T, s: seq<T>, key: T -> real): seq<T>
    requires SortedDesc(s, key)
  {
    var k := InsertPos(x, s, key);
    s[..k] + ([x] + s[k..])
  }

  /** Insertion keeps the order and adds exactly `x`. */
  lemma InsertSorted<T>(x: T, s: seq<T>, key: T -> real)
    requires SortedDesc(s, key)
    ensures SortedDesc(Insert(x, s, key), key)
    ensures multiset(Insert(x, s, key)) == multiset(s) + multiset{x}
  {
    var k := InsertPos(x, s, key);
    var front, back := s[..k], s[k..];
    assert s == front + back;
    SpliceSorted(front, x, back, key);
    SpliceMultiset(front, x, back);
  }

  lemma SpliceMultiset<T>(front: seq<T>, x: T, back: seq<T>)
    ensures multiset(front + ([x] + back)) == multiset(front + back) + multiset{x}
  {
    assert multiset(front + ([x] + back)) == multiset(front) + (multiset{x} + multiset(back));
  }

  /** Placing `x` between a sorted front of keys at least its own and a back of smaller keys keeps the order. */
  lemma SpliceSorted<T>(front: seq<T>, x: T, back: seq<T>, key: T -> real)
    requires SortedDesc(front + back, key)
    requires forall i :: 0 <= i < |front| ==> key(front[i]) >= key(x)
    requires forall i :: 0 <= i < |back| ==> key(back[i]) < key(x)
    ensures SortedDesc(front + ([x] + back), key)
  {
    var s, r := front + back, front + ([x] + back);
    var k := |front|;
    forall i, j | 0 <= i < j < |r|
      ensures key(r[i]) >= key(r[j])
    {
      if j < k {
        assert r[i] == s[i] && r[j] == s[j];
      } else if j == k {
        assert r[i] == front[i] && r[j] == x;
      } else if i == k {
        assert r[j] == back[j - k - 1];
      } else if i < k {
        assert r[i] == front[i] && r[j] == back[j - k - 1];
      } else {
        assert r[i] == s[i - 1] && r[j] == s[j - 1];
      }
    }
  }

  /** `s` in non-increasing key order; elements with equal keys keep their order in `s`. */
  function SortDesc<T(==)>(s: seq<T>, key: T -> real): (r: seq<T>)
    ensures |r| == |s|
    ensures multiset(r) == multiset(s)
    ensures SortedDesc(r, key)
  {
    if s == [] then []
    else
      var init, last := s[..|s| - 1], s[|s| - 1];
      var t := SortDesc(init, key);
      InsertSorted(last, t, key);
      assert s == init + [last];
      Insert(last, t, key)
  }

  /** Two elements already in order stay as they are. */
  lemma SortPair<T>(x: T, y: T, key: T -> real)
    requires key(x) >= key(y)
    ensures SortDesc([x, y], key) == [x, y]
  {
    assert [x, y][..1] == [x] && [x][..0] == [];
    assert SortDesc([x], key) == [x];
    assert InsertPos(y, [x], key) == 1;
  }

  /** The elements whose key equals `v`. */
  function KeyIs<T>(key: T -> real, v: real): T -> bool {
    x => key(x) == v
  }

  /** Filtering a splice: `x` moves to the end of the filtered text when nothing after it passes. */
  lemma SpliceFilter<T(!new)>(front: seq<T>, x: T, back: seq<T>, p: T -> bool)
    requires p(x) ==> Filter(back, p) == []
    ensures Filter(front + ([x] + back), p) == Filter(front + back, p) + (if p(x) then [x] else [])
  {
    FilterConcat(front, [x] + back, p);
    FilterConcat([x], back, p);
    FilterConcat(front, back, p);
    var ff, fx, fb := Filter(front, p), Filter([x], p), Filter(back, p);
    assert [x][1..] == [];
    assert fx == if p(x) then [x] else [];
    assert ff + (fx + fb) == (ff + fb) + fx;
  }

  lemma FilterBelow<T(!new)>(back: seq<T>, key: T -> real, v: real)
    requires forall i :: 0 <= i < |back| ==> key(back[i]) < v
    ensures Filter(back, KeyIs(key, v)) == []
  {
  }

  lemma SpliceKeyFilter<T(!new)>(front: seq<T>, x: T, back: seq<T>, key: T -> real, v: real)
    requires forall i :: 0 <= i < |back| ==> key(back[i]) < key(x)
    ensures Filter(front + ([x] + back), KeyIs(key, v))
         == Filter(front + back, KeyIs(key, v)) + (if key(x) == v then [x] else [])
  {
    if key(x) == v {
      FilterBelow(back, key, v);
    }
    SpliceFilter(front, x, back, KeyIs(key, v));
  }

  lemma InsertKeyFilter<T(!new)>(x: T, s: seq<T>, key: T -> real, v: real)
    requires SortedDesc(s, key)
    ensures Filter(Insert(x, s, key), KeyIs(key, v))
         == Filter(s, KeyIs(key, v)) + (if key(x) == v then [x] else [])
  {
    var k := InsertPos(x, s, key);
    assert s == s[..k] + s[k..];
    SpliceKeyFilter(s[..k], x, s[k..], key, v);
  }

  /** Stability: sorting does not reorder the elements that share a key. */
  lemma {:induction false} SortIsStable<T(!new)>(s: seq<T>, key: T -> real, v: real)
    ensures Filter(SortDesc(s, key), KeyIs(key, v)) == Filter(s, KeyIs(key, v))
  {
    if s != [] {
      var init, last := s[..|s| - 1], s[|s| - 1];
      SortIsStable(init, key, v);
      InsertKeyFilter(last, SortDesc(init, key), key, v);
      assert s == init + [last];
      FilterConcat(init, [last], KeyIs(key, v));
    }
  }

  lemma InsertDistinct<T(!new), K>(x: T, s: seq<T>, key: T -> real, id: T -> K)
    requires SortedDesc(s, key)
    requires DistinctBy(s, id)
    requires forall y :: y in s ==> id(y) != id(x)
    ensures DistinctBy(Insert(x, s, key), id)
  {
    var k := InsertPos(x, s, key);
    var r := Insert(x, s, key);
    assert forall m :: 0 <= m < k ==> r[m] == s[m];
    assert r[k] == x;
    assert forall m :: k < m < |r| ==> r[m] == s[m - 1];
    forall i, j | 0 <= i < j < |r| ensures id(r[i]) != id(r[j]) {
      if i == k {
        assert r[j] in s;
      } else if j == k {
        assert r[i] in s;
      }
    }
  }

  /** Sorting keeps a sequence free of duplicate keys. */
  lemma {:induction false} SortDistinct<T(!new), K>(s: seq<T>, key: T -> real, id: T -> K)
    requires DistinctBy(s, id)
    ensures DistinctBy(SortDesc(s, key), id)
  {
    if s != [] {
      var init, last := s[..|s| - 1], s[|s| - 1];
      SortDistinct(init, key, id);
      forall y | y in SortDesc(init, key) ensures id(y) != id(last) {
        assert y in multiset(init);
        var j :| 0 <= j < |init| && init[j] == y;
      }
      InsertDistinct(last, SortDesc(init, key), key, id);
    }
  }

  /**
   * Taking a prefix of the sorted sequence picks the top elements: whatever
   * is left out ranks no higher than anything taken.
   */
  lemma TakeIsTop<T(!new)>(s: seq<T>, key: T -> real, n: nat)
    ensures forall x :: x in s ==>
      x in Take(SortDesc(s, key), n) || forall y :: y in Take(SortDesc(s, key), n) ==> key(y) >= key(x)
  {
    var sorted := SortDesc(s, key);
    var top := Take(sorted, n);
    forall x | x in s
      ensures x in top || forall y :: y in top ==> key(y) >= key(x)
    {
      assert x in multiset(sorted);
      var i :| 0 <= i < |sorted| && sorted[i] == x;
      if i >= |top| {
        forall y | y in top ensures key(y) >= key(x) {
          var j :| 0 <= j < |top| && top[j] == y;
          assert sorted[j] == y;
        }
      } else {
        assert top[i] == x;
      }
    }
  }
}

/** Sorting by a strict total order, and what it means to keep the first few. */
module TopLists {
  import opened Sets

  ghost predicate Total<T(!new)>(s: set<T>, ahead: (T, T) -> bool) {
    && (forall x :: x in s ==> !ahead(x, x))
    && (forall x, y :: x in s && y in s && x != y ==> ahead(x, y) || ahead(y, x))
    && (forall x, y, z :: x in s && y in s && z in s && ahead(x, y) && ahead(y, z) ==> ahead(x, z))
  }

  ghost predicate InOrder<T(!new)>(list: seq<T>, ahead: (T, T) -> bool) {
    forall i, j :: 0 <= i < j < |list| ==> ahead(list[i], list[j])
  }

  function Min(a: nat, b: nat): nat { if a < b then a else b }

  /** The first `limit` of a set, in order. */
  ghost predicate TopOf<T(!new)>(s: set<T>, ahead: (T, T) -> bool, limit: nat, out: seq<T>) {
    && |out| == Min(limit, |s|)
    && (forall x :: x in out ==> x in s)
    && InOrder(out, ahead)
    && (forall x, y :: x in out && y in s && y !in out ==> ahead(x, y))
  }

  lemma OrderedCount<T(!new)>(list: seq<T>, s: set<T>, ahead: (T, T) -> bool)
    requires InOrder(list, ahead) && Members(list) <= s && Total(s, ahead)
    ensures Distinct(list) && |Members(list)| == |list|
  {
    forall i, j | 0 <= i < j < |list| ensures list[i] != list[j] {
      assert list[i] in Members(list) && ahead(list[i], list[j]);
    }
    DistinctCount(list);
  }

  function AheadOf<T(==)>(s: set<T>, ahead: (T, T) -> bool, y: T): set<T> { set x | x in s && ahead(x, y) }

  /** The k-th of the top has exactly k of the set ahead of it. */
  lemma PlaceInTop<T(!new)>(s: set<T>, ahead: (T, T) -> bool, limit: nat, out: seq<T>, k: nat)
    requires Total(s, ahead) && TopOf(s, ahead, limit, out) && k < |out|
    ensures |AheadOf(s, ahead, out[k])| == k
  {
    assert Members(out[..k]) <= s;
    OrderedCount(out[..k], s, ahead);
    var pivot := out[k];
    assert pivot in out && forall y :: y in s && y !in out ==> ahead(pivot, y);
    assert forall x :: x in s && ahead(x, pivot) ==> x in out;
    forall x ensures x in AheadOf(s, ahead, out[k]) <==> x in Members(out[..k]) {
      if x in s && ahead(x, out[k]) {
        var j :| 0 <= j < |out| && out[j] == x;
        assert out[..k][j] == x;
      }
    }
    assert AheadOf(s, ahead, out[k]) == Members(out[..k]);
  }

  /** There is only one such list. */
  lemma TopIsUnique<T(!new)>(s: set<T>, ahead: (T, T) -> bool, limit: nat, a: seq<T>, b: seq<T>)
    requires Total(s, ahead) && TopOf(s, ahead, limit, a) && TopOf(s, ahead, limit, b)
    ensures a == b
  {
    forall k | 0 <= k < |a| ensures a[k] == b[k] {
      PlaceInTop(s, ahead, limit, a, k);
      PlaceInTop(s, ahead, limit, b, k);
      assert a[k] in a && b[k] in b;
      if a[k] != b[k] {
        if ahead(a[k], b[k]) { FewerAhead(s, ahead, a[k], b[k]); } else { FewerAhead(s, ahead, b[k], a[k]); }
      }
    }
  }

  lemma FewerAhead<T(!new)>(s: set<T>, ahead: (T, T) -> bool, x: T, y: T)
    requires Total(s, ahead) && x in s && y in s && ahead(x, y)
    ensures |AheadOf(s, ahead, x)| < |AheadOf(s, ahead, y)|
  {
    assert x in AheadOf(s, ahead, y) && x !in AheadOf(s, ahead, x);
    assert AheadOf(s, ahead, x) + {x} <= AheadOf(s, ahead, y);
    Smaller(AheadOf(s, ahead, x) + {x}, AheadOf(s, ahead, y));
  }

  // ---- Sorting

  function Insert<T(!new)>(x: T, list: seq<T>, ahead: (T, T) -> bool): (r: seq<T>)
    ensures |r| == |list| + 1 && forall y :: y in r <==> y == x || y in list
  {
    if list == [] || ahead(x, list[0]) then [x] + list
    else
      assert list == [list[0]] + list[1..];
      [list[0]] + Insert(x, list[1..], ahead)
  }

  function Sorted<T(!new)>(list: seq<T>, ahead: (T, T) -> bool): (r: seq<T>)
    ensures |r| == |list| && forall y :: y in r <==> y in list
  {
    if list == [] then []
    else
      assert list == [list[0]] + list[1..];
      Insert(list[0], Sorted(list[1..], ahead), ahead)
  }

  lemma {:induction false} InsertKeepsOrder<T(!new)>(x: T, list: seq<T>, s: set<T>, ahead: (T, T) -> bool)
    requires Total(s, ahead) && x in s && x !in list && Members(list) <= s && InOrder(list, ahead)
    ensures InOrder(Insert(x, list, ahead), ahead)
  {
    if list == [] {
    } else if ahead(x, list[0]) {
      assert list[0] in Members(list);
      assert forall j :: 0 <= j < |list| ==> list[j] in Members(list);
    } else {
      assert list == [list[0]] + list[1..];
      assert list[0] in Members(list) && Members(list[1..]) <= Members(list);
      InsertKeepsOrder(x, list[1..], s, ahead);
      var rest := Insert(x, list[1..], ahead);
      forall y | y in rest ensures ahead(list[0], y) {
        if y in list[1..] {
          var k :| 0 <= k < |list[1..]| && list[1..][k] == y;
          assert list[k + 1] == y;
        }
      }
    }
  }

  lemma {:induction false} SortedInOrder<T(!new)>(list: seq<T>, s: set<T>, ahead: (T, T) -> bool)
    requires Total(s, ahead) && Distinct(list) && Members(list) <= s
    ensures InOrder(Sorted(list, ahead), ahead)
  {
    if list != [] {
      assert list == [list[0]] + list[1..];
      assert list[0] in Members(list) && Members(list[1..]) <= Members(list);
      SortedInOrder(list[1..], s, ahead);
      assert list[0] !in list[1..];
      assert Members(Sorted(list[1..], ahead)) <= s;
      InsertKeepsOrder(list[0], Sorted(list[1..], ahead), s, ahead);
    }
  }

  /** Sorting and cutting gives the top. */
  lemma SortedTop<T(!new)>(list: seq<T>, ahead: (T, T) -> bool, limit: nat)
    requires Total(Members(list), ahead) && Distinct(list)
    ensures TopOf(Members(list), ahead, limit, Sorted(list, ahead)[..Min(limit, |list|)])
  {
    var s, sorted := Members(list), Sorted(list, ahead);
    SortedInOrder(list, s, ahead);
    assert Members(sorted) == s;
    OrderedCount(sorted, s, ahead);
    var out := sorted[..Min(limit, |list|)];
    forall x, y | x in out && y in s && y !in out ensures ahead(x, y) {
      var i :| 0 <= i < |out| && out[i] == x;
      assert y in sorted;
      assert forall m :: 0 <= m < |out| ==> sorted[m] == out[m] && out[m] in out;
      var j :| 0 <= j < |sorted| && sorted[j] == y;
    }
  }
}

/** `items.sort(key=lambda x: x["sort_position"])`: Python's list sort is
    stable, so items with equal positions keep the order they were added in.
    The sort is specified here as a stable insertion sort on the position an
    item carries, or the default position when it carries none. */
module ItemSort {
  import opened Common
  import opened Items

  function Pos(it: Item, d: int): int
  {
    it.sortPosition.GetOr(d)
  }

  predicate Sorted(s: seq<Item>, d: int)
  {
    forall i, j :: 0 <= i < j < |s| ==> Pos(s[i], d) <= Pos(s[j], d)
  }

  /** Puts `x` after every element of `t` whose position is at most its own. */
  function Insert(t: seq<Item>, x: Item, d: int): seq<Item>
  {
    if |t| == 0 || Pos(t[|t| - 1], d) <= Pos(x, d) then t + [x]
    else Insert(t[..|t| - 1], x, d) + [t[|t| - 1]]
  }

  /** The items sorted by position, each inserted in list order. */
  function SortByPosition(s: seq<Item>, d: int): seq<Item>
  {
    if |s| == 0 then []
    else Insert(SortByPosition(s[..|s| - 1], d), s[|s| - 1], d)
  }

  /** The items at position `v`, in list order. */
  function AtPosition(s: seq<Item>, v: int, d: int): (r: seq<Item>)
    ensures forall i :: 0 <= i < |r| ==> Pos(r[i], d) == v
  {
    if |s| == 0 then []
    else AtPosition(s[..|s| - 1], v, d) + (if Pos(s[|s| - 1], d) == v then [s[|s| - 1]] else [])
  }

  lemma {:induction false} InsertElements(t: seq<Item>, x: Item, d: int)
    ensures multiset(Insert(t, x, d)) == multiset(t) + multiset{x}
    decreases |t|
  {
    if |t| > 0 && Pos(t[|t| - 1], d) > Pos(x, d) {
      InsertElements(t[..|t| - 1], x, d);
      assert t == t[..|t| - 1] + [t[|t| - 1]];
    }
  }

  lemma {:induction false} InsertSorted(t: seq<Item>, x: Item, d: int)
    requires Sorted(t, d)
    ensures Sorted(Insert(t, x, d), d)
    decreases |t|
  {
    if |t| > 0 && Pos(t[|t| - 1], d) > Pos(x, d) {
      var init := t[..|t| - 1];
      var y := t[|t| - 1];
      InsertSorted(init, x, d);
      InsertElements(init, x, d);
      var u := Insert(init, x, d);
      forall k | 0 <= k < |u|
        ensures Pos(u[k], d) <= Pos(y, d)
      {
        assert u[k] in multiset(u);
        if u[k] != x {
          assert u[k] in multiset(init);
          var j :| 0 <= j < |init| && init[j] == u[k];
          assert t[j] == init[j];
        }
      }
    }
  }

  lemma {:induction false} AtPositionAppend(a: seq<Item>, b: seq<Item>, v: int, d: int)
    ensures AtPosition(a + b, v, d) == AtPosition(a, v, d) + AtPosition(b, v, d)
    decreases |b|
  {
    if |b| == 0 {
      assert a + b == a;
    } else {
      assert (a + b)[..|a + b| - 1] == a + b[..|b| - 1];
      AtPositionAppend(a, b[..|b| - 1], v, d);
    }
  }

  lemma {:induction false} InsertStable(t: seq<Item>, x: Item, v: int, d: int)
    requires Sorted(t, d)
    ensures AtPosition(Insert(t, x, d), v, d) == AtPosition(t, v, d) + AtPosition([x], v, d)
    decreases |t|
  {
    if |t| == 0 || Pos(t[|t| - 1], d) <= Pos(x, d) {
      AtPositionAppend(t, [x], v, d);
    } else {
      var init := t[..|t| - 1];
      var y := t[|t| - 1];
      InsertStable(init, x, v, d);
      AtPositionAppend(Insert(init, x, d), [y], v, d);
      assert t == init + [y];
      AtPositionAppend(init, [y], v, d);
      assert [x][..0] == [] && [y][..0] == [];
    }
  }

  /** The sort orders by position and drops or adds nothing. */
  lemma {:induction false} SortIsSortedPermutation(s: seq<Item>, d: int)
    ensures Sorted(SortByPosition(s, d), d)
    ensures multiset(SortByPosition(s, d)) == multiset(s)
    decreases |s|
  {
    if |s| > 0 {
      SortIsSortedPermutation(s[..|s| - 1], d);
      InsertSorted(SortByPosition(s[..|s| - 1], d), s[|s| - 1], d);
      InsertElements(SortByPosition(s[..|s| - 1], d), s[|s| - 1], d);
      assert s == s[..|s| - 1] + [s[|s| - 1]];
    }
  }

  /** Stability: the items at any one position keep their relative order. */
  lemma {:induction false} SortIsStable(s: seq<Item>, v: int, d: int)
    ensures AtPosition(SortByPosition(s, d), v, d) == AtPosition(s, v, d)
    decreases |s|
  {
    if |s| > 0 {
      var init := s[..|s| - 1];
      var x := s[|s| - 1];
      SortIsSortedPermutation(init, d);
      SortIsStable(init, v, d);
      InsertStable(SortByPosition(init, d), x, v, d);
      assert [x][..0] == [];
    }
  }

  lemma {:induction false} AtPositionAll(s: seq<Item>, v: int, d: int)
    requires forall i :: 0 <= i < |s| ==> Pos(s[i], d) == v
    ensures AtPosition(s, v, d) == s
    decreases |s|
  {
    if |s| > 0 {
      AtPositionAll(s[..|s| - 1], v, d);
    }
  }

  /** When every item has the same position the sort changes nothing. */
  lemma SortKeepsEqualPositions(s: seq<Item>, v: int, d: int)
    requires forall i :: 0 <= i < |s| ==> Pos(s[i], d) == v
    ensures SortByPosition(s, d) == s
  {
    var r := SortByPosition(s, d);
    SortIsSortedPermutation(s, d);
    forall i | 0 <= i < |r|
      ensures Pos(r[i], d) == v
    {
      assert r[i] in multiset(s);
    }
    SortIsStable(s, v, d);
    AtPositionAll(s, v, d);
    AtPositionAll(r, v, d);
  }

  /** An item placed strictly before every other one comes first. */
  lemma UniqueMinimumFirst(s: seq<Item>, k: nat, d: int)
    requires k < |s|
    requires forall i :: 0 <= i < |s| && i != k ==> Pos(s[k], d) < Pos(s[i], d)
    ensures |SortByPosition(s, d)| == |s| && SortByPosition(s, d)[0] == s[k]
  {
    var r := SortByPosition(s, d);
    SortIsSortedPermutation(s, d);
    assert |r| == |multiset(r)| == |multiset(s)| == |s|;
    assert s[k] in multiset(r);
    assert r[0] in multiset(s);
  }

  lemma {:induction false} CountKeyInsert(t: seq<Item>, x: Item, d: int, key: string)
    ensures CountKey(Insert(t, x, d), key) == CountKey(t, key) + (if x.key == key then 1 else 0)
    decreases |t|
  {
    if |t| == 0 || Pos(t[|t| - 1], d) <= Pos(x, d) {
      assert (t + [x])[..|t + [x]| - 1] == t;
    } else {
      var u := Insert(t[..|t| - 1], x, d) + [t[|t| - 1]];
      assert u[..|u| - 1] == Insert(t[..|t| - 1], x, d);
      CountKeyInsert(t[..|t| - 1], x, d, key);
    }
  }

  /** The sort keeps the number of items under every key. */
  lemma {:induction false} SortKeepsKeyCounts(s: seq<Item>, d: int, key: string)
    ensures CountKey(SortByPosition(s, d), key) == CountKey(s, key)
    decreases |s|
  {
    if |s| > 0 {
      SortKeepsKeyCounts(s[..|s| - 1], d, key);
      CountKeyInsert(SortByPosition(s[..|s| - 1], d), s[|s| - 1], d, key);
    }
  }
}

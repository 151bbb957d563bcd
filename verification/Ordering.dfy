/** Deterministic row orderings: what an `ORDER BY a, b, id` clause, or a Python
    `sorted` on such a tuple, returns for a finite set of rows. */
module Ordering {
  import opened Prelude

  /** The two leading sort columns of every row; ties end in the row id. */
  type SortKeys = map<nat, (int, int)>

  predicate Before(keys: SortKeys, x: nat, y: nat)
    requires x in keys && y in keys
  {
    || keys[x].0 < keys[y].0
    || (keys[x].0 == keys[y].0 && keys[x].1 < keys[y].1)
    || (keys[x] == keys[y] && x < y)
  }

  ghost predicate Ascending(keys: SortKeys, s: seq<nat>) {
    && (forall i :: 0 <= i < |s| ==> s[i] in keys)
    && (forall i, j :: 0 <= i < j < |s| ==> Before(keys, s[i], s[j]))
  }

  /** `s` holds exactly the rows of `ids`. */
  ghost predicate Lists(ids: set<nat>, s: seq<nat>) {
    forall x :: x in s <==> x in ids
  }

  predicate IsFirst(keys: SortKeys, ids: set<nat>, x: nat)
    requires ids <= keys.Keys
  {
    x in ids && forall y :: y in ids && y != x ==> Before(keys, x, y)
  }

  lemma {:induction false} FirstExists(keys: SortKeys, ids: set<nat>)
    requires ids <= keys.Keys && ids != {}
    ensures exists x :: IsFirst(keys, ids, x)
    decreases ids
  {
    var z :| z in ids;
    var rest := ids - {z};
    if rest == {} {
      assert forall y :: y in ids ==> y == z || y in rest;
      assert IsFirst(keys, ids, z);
    } else {
      FirstExists(keys, rest);
      var x :| IsFirst(keys, rest, x);
      assert forall y :: y in ids ==> y == z || y in rest;
      var least := if Before(keys, x, z) then x else z;
      assert forall y :: y in rest && y != x ==> Before(keys, x, y);
      assert IsFirst(keys, ids, least);
    }
  }

  function Sorted(keys: SortKeys, ids: set<nat>): seq<nat>
    requires ids <= keys.Keys
    decreases ids
  {
    if ids == {} then
      []
    else
      FirstExists(keys, ids);
      var x :| IsFirst(keys, ids, x);
      [x] + Sorted(keys, ids - {x})
  }

  lemma {:induction false} SortedLists(keys: SortKeys, ids: set<nat>)
    requires ids <= keys.Keys
    ensures Lists(ids, Sorted(keys, ids))
    decreases ids
  {
    if ids != {} {
      FirstExists(keys, ids);
      var x :| IsFirst(keys, ids, x);
      SortedLists(keys, ids - {x});
    }
  }

  lemma {:induction false} SortedAscending(keys: SortKeys, ids: set<nat>)
    requires ids <= keys.Keys
    ensures Ascending(keys, Sorted(keys, ids))
    decreases ids
  {
    if ids != {} {
      FirstExists(keys, ids);
      var x :| IsFirst(keys, ids, x);
      var rest := Sorted(keys, ids - {x});
      SortedAscending(keys, ids - {x});
      SortedLists(keys, ids - {x});
      assert forall j :: 0 <= j < |rest| ==> rest[j] in rest;
    }
  }

  lemma AscendingDistinct(keys: SortKeys, s: seq<nat>)
    requires Ascending(keys, s)
    ensures Distinct(s)
  {
  }

  lemma HeadTail(keys: SortKeys, ids: set<nat>, s: seq<nat>, x: nat)
    requires ids <= keys.Keys && IsFirst(keys, ids, x)
    requires Ascending(keys, s) && Lists(ids, s)
    ensures |s| > 0 && s[0] == x && Lists(ids - {x}, s[1..]) && Ascending(keys, s[1..])
  {
    assert x in s;
    var i :| 0 <= i < |s| && s[i] == x;
    assert s[0] in s;
    assert i == 0 || Before(keys, s[0], s[i]);
    forall y ensures y in s[1..] <==> y in ids - {x} {
      if y in s[1..] {
        var j :| 0 <= j < |s[1..]| && s[1..][j] == y;
        assert s[1 + j] == y && y in s;
        assert Before(keys, s[0], s[1 + j]);
      }
      assert y in s <==> y in ids;
    }
  }

  lemma SortedHead(keys: SortKeys, ids: set<nat>) returns (x: nat)
    requires ids <= keys.Keys && ids != {}
    ensures IsFirst(keys, ids, x) && Sorted(keys, ids) == [x] + Sorted(keys, ids - {x})
  {
    FirstExists(keys, ids);
    x :| IsFirst(keys, ids, x);
  }

  /** A list that is ascending and complete is the list the query returns. */
  lemma {:induction false} SortedUnique(keys: SortKeys, ids: set<nat>, s: seq<nat>)
    requires ids <= keys.Keys
    requires Ascending(keys, s) && Lists(ids, s)
    ensures s == Sorted(keys, ids)
    decreases ids
  {
    assert s != [] ==> s[0] in s;
    if ids != {} {
      hide Sorted, IsFirst, Lists, Ascending;
      var x := SortedHead(keys, ids);
      HeadTail(keys, ids, s, x);
      SortedUnique(keys, ids - {x}, s[1..]);
      assert s == [x] + s[1..];
    }
  }

  /** Rows outside `ids` do not influence the order. */
  lemma SortedFrame(keys: SortKeys, keys': SortKeys, ids: set<nat>)
    requires ids <= keys.Keys && ids <= keys'.Keys
    requires forall x :: x in ids ==> keys[x] == keys'[x]
    ensures Sorted(keys, ids) == Sorted(keys', ids)
  {
    var s := Sorted(keys, ids);
    SortedLists(keys, ids);
    SortedAscending(keys, ids);
    assert forall i :: 0 <= i < |s| ==> s[i] in s;
    SortedUnique(keys', ids, s);
  }

  /** `s` without `x`, in the same order. */
  function Without(s: seq<nat>, x: nat): (r: seq<nat>)
    ensures forall y :: y in r <==> y in s && y != x
  {
    if s == [] then [] else if s[0] == x then Without(s[1..], x) else [s[0]] + Without(s[1..], x)
  }

  lemma {:induction false} WithoutAscending(keys: SortKeys, s: seq<nat>, x: nat)
    requires Ascending(keys, s)
    ensures Ascending(keys, Without(s, x))
  {
    if s != [] {
      WithoutAscending(keys, s[1..], x);
      if s[0] != x {
        var r := Without(s[1..], x);
        forall j | 0 <= j < |r| ensures Before(keys, s[0], r[j]) {
          assert r[j] in r;
          assert r[j] in s[1..];
        }
      }
    }
  }

  lemma {:induction false} WithoutAbsent(s: seq<nat>, x: nat)
    requires x !in s
    ensures Without(s, x) == s
  {
    if s != [] {
      assert s[0] in s;
      WithoutAbsent(s[1..], x);
    }
  }

  /** Dropping one row from the selection drops it from the list and moves nothing else. */
  lemma SortedWithout(keys: SortKeys, ids: set<nat>, x: nat)
    requires ids <= keys.Keys
    ensures Sorted(keys, ids - {x}) == Without(Sorted(keys, ids), x)
  {
    SortedLists(keys, ids);
    SortedAscending(keys, ids);
    WithoutAscending(keys, Sorted(keys, ids), x);
    SortedUnique(keys, ids - {x}, Without(Sorted(keys, ids), x));
  }
}

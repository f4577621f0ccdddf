/** What `ORDER BY … LIMIT … OFFSET …` does to the rows a query selects.
    Rows are named by id; a sort key is an optional integer, and NULL sorts
    after every value, as PostgreSQL orders by default (last when ascending,
    first when descending). SQL leaves the order of equal keys open; here
    they come out in ascending id order. */
module Listing {
  import opened Common

  datatype Direction = Asc | Desc

  /** `a` may come before `b` in ascending order; NULL is the largest key. */
  predicate KeyLe(a: Option<int>, b: Option<int>)
  {
    b.None? || (a.Some? && a.value <= b.value)
  }

  predicate Precedes(a: Option<int>, b: Option<int>, dir: Direction)
  {
    if dir == Asc then KeyLe(a, b) else KeyLe(b, a)
  }

  /** The least id of a non-empty set: the row a query picks when it takes
      the first of several equally good rows. */
  predicate IsLeast(m: nat, s: set<nat>)
  {
    m in s && forall x | x in s :: m <= x
  }

  function Least(s: set<nat>): (m: nat)
    requires s != {}
    ensures m in s && forall x | x in s :: m <= x
  {
    LeastExists(s);
    var m :| IsLeast(m, s);
    m
  }

  /** The ids of `s` in ascending order. */
  function AscendingIds(s: set<nat>): (r: seq<nat>)
    ensures |r| == |s|
    ensures forall x :: x in r <==> x in s
    decreases |s|
  {
    if s == {} then []
    else
      var m := Least(s);
      var rest := AscendingIds(s - {m});
      [m] + rest
  }

  predicate Keyed(ids: seq<nat>, key: map<nat, Option<int>>)
  {
    forall i | 0 <= i < |ids| :: ids[i] in key
  }

  /** Each id's key may come before its successor's. */
  predicate SortedBy(ids: seq<nat>, key: map<nat, Option<int>>, dir: Direction)
    requires Keyed(ids, key)
  {
    forall i | 0 <= i < |ids| - 1 :: Precedes(key[ids[i]], key[ids[i + 1]], dir)
  }

  /** Places `x` before the first id it may precede, so that ids already
      placed after it among equal keys stay after it. */
  function Insert(x: nat, t: seq<nat>, key: map<nat, Option<int>>, dir: Direction): (r: seq<nat>)
    requires x in key && Keyed(t, key) && SortedBy(t, key, dir)
    ensures |r| == |t| + 1 && multiset(r) == multiset(t) + multiset{x}
    ensures r[0] == x || (|t| > 0 && r[0] == t[0])
    ensures Keyed(r, key) && SortedBy(r, key, dir)
    decreases |t|
  {
    if |t| == 0 || Precedes(key[x], key[t[0]], dir) then
      SortedCons(x, t, key, dir);
      [x] + t
    else
      var rest := Insert(x, t[1..], key, dir);
      assert t == [t[0]] + t[1..];
      SortedCons(t[0], rest, key, dir);
      [t[0]] + rest
  }

  /** Insertion sort of `ids` by their keys; stable, so equal keys keep the
      order they had in `ids`. */
  function SortBy(ids: seq<nat>, key: map<nat, Option<int>>, dir: Direction): (r: seq<nat>)
    requires Keyed(ids, key)
    ensures multiset(r) == multiset(ids)
    ensures Keyed(r, key) && SortedBy(r, key, dir)
    decreases |ids|
  {
    if |ids| == 0 then []
    else
      assert ids == [ids[0]] + ids[1..];
      Insert(ids[0], SortBy(ids[1..], key, dir), key, dir)
  }

  /** `LIMIT limit OFFSET offset` over an ordered result. */
  function Window(s: seq<nat>, limit: nat, offset: nat): (r: seq<nat>)
    ensures |r| <= limit
    ensures offset <= |s| ==> r == s[offset..if offset + limit <= |s| then offset + limit else |s|]
    ensures |s| <= offset ==> r == []
    ensures forall k | 0 <= k < |r| :: r[k] in s
  {
    if |s| <= offset then []
    else if |s| <= offset + limit then s[offset..]
    else s[offset..offset + limit]
  }

  /** The selected ids in the query's order: a permutation of the ids,
      sorted by key, equal keys in ascending id order. */
  function Ordered(ids: set<nat>, key: map<nat, Option<int>>, dir: Direction): (r: seq<nat>)
    requires forall x | x in ids :: x in key
    ensures |r| == |ids|
    ensures forall x :: x in r <==> x in ids
    ensures forall k | 0 <= k < |r| :: r[k] in ids
    ensures Keyed(r, key) && SortedBy(r, key, dir)
  {
    var asc := AscendingIds(ids);
    var r := SortBy(asc, key, dir);
    assert |r| == |multiset(r)| == |asc|;
    assert forall x :: x in r <==> x in multiset(r);
    r
  }

  // ---------------------------------------------------------------------
  // Properties

  lemma {:induction false} LeastExists(s: set<nat>)
    requires s != {}
    ensures exists m :: IsLeast(m, s)
    decreases |s|
  {
    var y :| y in s;
    var rest := s - {y};
    if rest == {} {
      forall x | x in s ensures y <= x {
        assert x !in rest;
      }
      assert IsLeast(y, s);
    } else {
      LeastExists(rest);
      var m :| IsLeast(m, rest);
      var least := if y < m then y else m;
      forall x | x in s ensures least <= x {
        if x != y { assert x in rest; }
      }
      assert IsLeast(least, s);
    }
  }

  /** An id whose key may precede the first of a sorted list extends it. */
  lemma SortedCons(h: nat, t: seq<nat>, key: map<nat, Option<int>>, dir: Direction)
    requires h in key && Keyed(t, key) && SortedBy(t, key, dir)
    requires |t| > 0 ==> Precedes(key[h], key[t[0]], dir)
    ensures Keyed([h] + t, key) && SortedBy([h] + t, key, dir)
  {
    var r := [h] + t;
    assert forall i | 1 <= i < |r| :: r[i] == t[i - 1];
  }

  /** Adjacent order gives order between any two positions. */
  lemma {:induction false} SortedPairwise(ids: seq<nat>, key: map<nat, Option<int>>, dir: Direction, i: nat, j: nat)
    requires Keyed(ids, key) && SortedBy(ids, key, dir)
    requires i < j < |ids|
    ensures Precedes(key[ids[i]], key[ids[j]], dir)
    decreases j - i
  {
    if i + 1 < j {
      SortedPairwise(ids, key, dir, i + 1, j);
    }
  }

  /** The first of the ordered ids has a key every other id may follow:
      the least key ascending, the greatest descending. */
  lemma FirstOrdered(ids: set<nat>, key: map<nat, Option<int>>, dir: Direction)
    requires forall x | x in ids :: x in key
    requires ids != {}
    ensures |Ordered(ids, key, dir)| > 0
    ensures forall x | x in ids :: Precedes(key[Ordered(ids, key, dir)[0]], key[x], dir)
  {
    var r := Ordered(ids, key, dir);
    forall x | x in ids ensures Precedes(key[r[0]], key[x], dir) {
      assert x in r;
      var j :| 0 <= j < |r| && r[j] == x;
      if j > 0 {
        SortedPairwise(r, key, dir, 0, j);
      } else {
        assert Precedes(key[x], key[x], dir);
      }
    }
  }

  /** Two consecutive pages of the same size are one page of twice the size. */
  lemma ConsecutivePages(s: seq<nat>, limit: nat, offset: nat)
    ensures Window(s, limit, offset) + Window(s, limit, offset + limit) == Window(s, 2 * limit, offset)
  {
  }
}

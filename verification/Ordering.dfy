/** `ORDER BY rank, id`: the ascending list of a set of ids. */
module Ordering {
  import opened Overlay

  /** Ranks compare lexicographically; the id breaks ties. */
  type Rank = (int, int)
  type Ranking = nat -> Rank

  predicate Before(rank: Ranking, x: nat, y: nat) {
    || rank(x).0 < rank(y).0
    || (rank(x).0 == rank(y).0 && rank(x).1 < rank(y).1)
    || (rank(x) == rank(y) && x < y)
  }

  predicate Ascends(rank: Ranking, s: seq<nat>) {
    forall i, j :: 0 <= i < j < |s| ==> Before(rank, s[i], s[j])
  }

  /** The id that comes before all others. */
  ghost predicate IsFirst(rank: Ranking, ids: set<nat>, x: nat) {
    x in ids && forall y :: y in ids && y != x ==> Before(rank, x, y)
  }

  lemma FirstOfMore(rank: Ranking, ids: set<nat>, z: nat, x: nat)
    requires z in ids && IsFirst(rank, ids - {z}, x)
    ensures IsFirst(rank, ids, if Before(rank, z, x) then z else x)
  {
    forall y | y in ids && y != z
      ensures y == x || Before(rank, x, y)
    {
      assert y in ids - {z};
    }
  }

  lemma {:induction false} HasFirst(rank: Ranking, ids: set<nat>)
    requires ids != {}
    ensures exists x :: IsFirst(rank, ids, x)
    decreases ids
  {
    var z :| z in ids;
    if ids == {z} {
      assert IsFirst(rank, ids, z);
    } else {
      HasFirst(rank, ids - {z});
      var x :| IsFirst(rank, ids - {z}, x);
      FirstOfMore(rank, ids, z, x);
    }
  }

  function First(rank: Ranking, ids: set<nat>): (x: nat)
    requires ids != {}
    ensures x in ids && forall y :: y in ids && y != x ==> Before(rank, x, y)
  {
    HasFirst(rank, ids);
    assert exists x :: IsFirst(rank, ids, x);
    var x :| x in ids && forall y :: y in ids && y != x ==> Before(rank, x, y);
    x
  }

  /** The result of the query without its LIMIT. */
  function Sorted(rank: Ranking, ids: set<nat>): (s: seq<nat>)
    ensures Ascends(rank, s) && Elements(s) == ids
    decreases ids
  {
    if ids == {} then []
    else
      var x := First(rank, ids);
      ConsAscends(rank, x, Sorted(rank, ids - {x}), ids);
      [x] + Sorted(rank, ids - {x})
  }

  lemma ConsAscends(rank: Ranking, x: nat, more: seq<nat>, ids: set<nat>)
    requires x in ids && Elements(more) == ids - {x} && Ascends(rank, more)
    requires forall y :: y in ids && y != x ==> Before(rank, x, y)
    ensures Ascends(rank, [x] + more) && Elements([x] + more) == ids
  {
    assert forall i :: 0 <= i < |more| ==> more[i] in Elements(more);
    assert forall y :: y in [x] + more <==> y == x || y in more;
    assert Elements([x] + more) == {x} + Elements(more);
  }

  lemma {:induction false} SortedLength(rank: Ranking, ids: set<nat>)
    ensures |Sorted(rank, ids)| == |ids|
    decreases ids
  {
    if ids != {} { SortedLength(rank, ids - {First(rank, ids)}); }
  }

  function Take(s: seq<nat>, limit: nat): (t: seq<nat>)
    ensures |t| == if |s| < limit then |s| else limit
    ensures t <= s
  {
    if |s| < limit then s else s[..limit]
  }

  /** There is only one ascending list of a set. */
  lemma {:induction false} AscendingUnique(rank: Ranking, s: seq<nat>, t: seq<nat>)
    requires Ascends(rank, s) && Ascends(rank, t) && Elements(s) == Elements(t)
    ensures s == t
  {
    SameEmptiness(s, t);
    if s != [] {
      SameHead(rank, s, t);
      TailElements(rank, s);
      TailElements(rank, t);
      AscendingUnique(rank, s[1..], t[1..]);
      assert s == [s[0]] + s[1..] && t == [t[0]] + t[1..];
    }
  }

  lemma SameHead(rank: Ranking, s: seq<nat>, t: seq<nat>)
    requires s != [] && t != [] && Ascends(rank, s) && Ascends(rank, t) && Elements(s) == Elements(t)
    ensures s[0] == t[0]
  {
    assert s[0] in Elements(s) && t[0] in Elements(t);
    var i :| 0 <= i < |t| && t[i] == s[0];
    var j :| 0 <= j < |s| && s[j] == t[0];
    assert i > 0 ==> Before(rank, t[0], t[i]);
    assert j > 0 ==> Before(rank, s[0], s[j]);
  }

  lemma TailElements(rank: Ranking, s: seq<nat>)
    requires s != [] && Ascends(rank, s)
    ensures Elements(s[1..]) == Elements(s) - {s[0]} && Ascends(rank, s[1..])
  {
  }

  /** Sorting looks only at the ranks of the ids that it sorts. */
  lemma SortedAgrees(rank: Ranking, other: Ranking, ids: set<nat>)
    requires forall x :: x in ids ==> rank(x) == other(x)
    ensures Sorted(rank, ids) == Sorted(other, ids)
  {
    var s := Sorted(other, ids);
    forall i, j | 0 <= i < j < |s|
      ensures Before(rank, s[i], s[j])
    {
      assert Before(other, s[i], s[j]);
      assert s[i] in Elements(s) && s[j] in Elements(s);
    }
    AscendingUnique(rank, Sorted(rank, ids), s);
  }

  /** What is left of an ascending list after some of its front is the sorted remainder. */
  lemma {:induction false} SortedSuffix(rank: Ranking, ids: set<nat>, n: nat)
    requires n <= |Sorted(rank, ids)|
    ensures Sorted(rank, ids)[n..] == Sorted(rank, ids - Elements(Sorted(rank, ids)[..n]))
  {
    var s := Sorted(rank, ids);
    var rest := ids - Elements(s[..n]);
    forall x
      ensures x in Elements(s[n..]) <==> x in rest
    {
      if x in s[n..] {
        var j :| n <= j < |s| && s[j] == x;
        assert x in Elements(s);
        assert forall i :: 0 <= i < n ==> Before(rank, s[i], s[j]);
      }
      if x in rest {
        assert x in Elements(s);
        var j :| 0 <= j < |s| && s[j] == x;
      }
    }
    assert Elements(s[n..]) == rest;
    AscendingUnique(rank, s[n..], Sorted(rank, rest));
  }

  lemma AscendingDistinct(rank: Ranking, s: seq<nat>)
    requires Ascends(rank, s)
    ensures forall i, j :: 0 <= i < j < |s| ==> s[i] != s[j]
  {
  }
}

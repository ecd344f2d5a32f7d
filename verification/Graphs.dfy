/**
 Directed graphs over string keys, as the workflow code of every service sees
 them: a finite set of arcs.  Walks give the declarative notions (reachability,
 cycles) against which the loops of the services are proved.
 */
module Graphs {
  /** Node keys are compared, never taken apart. */
  datatype Key = Key(name: string)

  type Arcs = set<(Key, Key)>

  ghost predicate IsWalk(arcs: Arcs, p: seq<Key>) {
    |p| > 0 && forall i :: 0 <= i < |p| - 1 ==> (p[i], p[i + 1]) in arcs
  }

  /** Some walk of any length, including the empty one, leads from `a` to `b`. */
  ghost predicate Reaches(arcs: Arcs, a: Key, b: Key) {
    exists p :: IsWalk(arcs, p) && p[0] == a && p[|p| - 1] == b
  }

  /** Some walk of at least one arc returns to where it started. */
  ghost predicate Cyclic(arcs: Arcs) {
    exists p :: IsWalk(arcs, p) && |p| >= 2 && p[0] == p[|p| - 1]
  }

  predicate Distinct<T(==)>(s: seq<T>) {
    forall i, j :: 0 <= i < j < |s| ==> s[i] != s[j]
  }

  /** `order` lists every arc's target only after the arc's source. */
  ghost predicate SourcesFirst(arcs: Arcs, order: seq<Key>) {
    order == [] ||
    var n := |order| - 1;
    SourcesFirst(arcs, order[..n]) && forall x :: (x, order[n]) in arcs ==> x in order[..n]
  }

  /** The arcs between members of `s`. */
  ghost function Induced(arcs: Arcs, s: set<Key>): (r: Arcs)
    ensures forall x, y :: (x, y) in r <==> (x, y) in arcs && x in s && y in s
  {
    set a | a in arcs && a.0 in s && a.1 in s
  }

  lemma ReachesSelf(arcs: Arcs, a: Key)
    ensures Reaches(arcs, a, a)
  {
    assert IsWalk(arcs, [a]);
  }

  lemma ReachesArc(arcs: Arcs, a: Key, b: Key, c: Key)
    requires Reaches(arcs, a, b) && (b, c) in arcs
    ensures Reaches(arcs, a, c)
  {
    var p :| IsWalk(arcs, p) && p[0] == a && p[|p| - 1] == b;
    var q := p + [c];
    assert q[|q| - 2] == b;
    assert IsWalk(arcs, q);
  }

  lemma {:induction false} ReachesTrans(arcs: Arcs, a: Key, b: Key, c: Key)
    requires Reaches(arcs, a, b) && Reaches(arcs, b, c)
    ensures Reaches(arcs, a, c)
  {
    var p :| IsWalk(arcs, p) && p[0] == a && p[|p| - 1] == b;
    var q :| IsWalk(arcs, q) && q[0] == b && q[|q| - 1] == c;
    var r := p + q[1..];
    forall i | 0 <= i < |r| - 1
      ensures (r[i], r[i + 1]) in arcs
    {
      if i >= |p| - 1 {
        assert r[i] == q[i - (|p| - 1)] && r[i + 1] == q[i + 1 - (|p| - 1)];
      }
    }
    assert IsWalk(arcs, r);
  }

  lemma ArcsSubset(arcs: Arcs, more: Arcs)
    requires forall x, y :: (x, y) in arcs ==> (x, y) in more
    ensures arcs <= more
  {
    forall a | a in arcs
      ensures a in more
    {
      assert a == (a.0, a.1);
    }
  }

  lemma ReachesMono(arcs: Arcs, more: Arcs, a: Key, b: Key)
    requires arcs <= more && Reaches(arcs, a, b)
    ensures Reaches(more, a, b)
  {
    var p :| IsWalk(arcs, p) && p[0] == a && p[|p| - 1] == b;
    assert IsWalk(more, p);
  }

  /** A set that holds the source and is closed under the arcs holds all that is reachable. */
  lemma {:induction false} ClosedHoldsReachable(arcs: Arcs, s: set<Key>, a: Key, b: Key)
    requires a in s
    requires forall x, y :: (x, y) in arcs && x in s ==> y in s
    requires Reaches(arcs, a, b)
    ensures b in s
  {
    var p :| IsWalk(arcs, p) && p[0] == a && p[|p| - 1] == b;
    var i := 0;
    while i < |p| - 1
      invariant 0 <= i < |p| && p[i] in s
    {
      assert (p[i], p[i + 1]) in arcs;
      i := i + 1;
    }
  }

  /** A reachable key other than the start is entered by an arc from a reachable key. */
  lemma ReachesLastArc(arcs: Arcs, a: Key, b: Key) returns (c: Key)
    requires Reaches(arcs, a, b) && a != b
    ensures Reaches(arcs, a, c) && (c, b) in arcs
  {
    var p :| IsWalk(arcs, p) && p[0] == a && p[|p| - 1] == b;
    c := p[|p| - 2];
    assert (p[|p| - 2], p[|p| - 1]) in arcs;
    assert IsWalk(arcs, p[..|p| - 1]);
  }

  /** A key that reaches another along an arc that leads back closes a cycle. */
  lemma ReachesBackIsCyclic(arcs: Arcs, a: Key, b: Key)
    requires Reaches(arcs, a, b) && (b, a) in arcs
    ensures Cyclic(arcs)
  {
    var p :| IsWalk(arcs, p) && p[0] == a && p[|p| - 1] == b;
    var q := p + [a];
    assert q[|q| - 2] == b;
    assert IsWalk(arcs, q) && |q| >= 2 && q[0] == q[|q| - 1];
  }

  /** A walk that meets its first key again closes a cycle. */
  lemma RevisitIsCyclic(arcs: Arcs, p: seq<Key>, i: nat)
    requires IsWalk(arcs, p) && 0 < i < |p| && p[i] == p[0]
    ensures Cyclic(arcs)
  {
    var q := p[..i + 1];
    forall m | 0 <= m < |q| - 1
      ensures (q[m], q[m + 1]) in arcs
    {
      assert q[m] == p[m] && q[m + 1] == p[m + 1];
    }
    assert q[0] == q[|q| - 1];
  }

  lemma CyclicMono(arcs: Arcs, more: Arcs)
    requires arcs <= more && Cyclic(arcs)
    ensures Cyclic(more)
  {
    var p :| IsWalk(arcs, p) && |p| >= 2 && p[0] == p[|p| - 1];
    assert IsWalk(more, p);
  }

  /**
   Following arcs backwards inside a finite set, from `x`, without ever closing
   a cycle, ends at a member that no member precedes.
   */
  lemma RootAbove(arcs: Arcs, s: set<Key>, x: Key) returns (root: Key)
    requires !Cyclic(arcs) && x in s
    ensures root in s && Reaches(arcs, root, x)
    ensures forall y :: y in s ==> (y, root) !in arcs
  {
    assert IsWalk(arcs, [x]);
    root := RootAboveWalk(arcs, s, s - {x}, [x]);
  }

  lemma RootAboveWalk(arcs: Arcs, s: set<Key>, rest: set<Key>, p: seq<Key>) returns (root: Key)
    requires !Cyclic(arcs) && IsWalk(arcs, p)
    requires forall y :: y in p ==> y in s
    requires forall y :: y in s ==> y in p || y in rest
    ensures root in s && Reaches(arcs, root, p[|p| - 1])
    ensures forall y :: y in s ==> (y, root) !in arcs
    decreases |rest|
  {
    if y :| y in s && (y, p[0]) in arcs {
      var q := [y] + p;
      assert IsWalk(arcs, q);
      if i :| 0 <= i < |p| && p[i] == y {
        RevisitIsCyclic(arcs, q, i + 1);
        assert false;
      }
      assert q[|q| - 1] == p[|p| - 1];
      root := RootAboveWalk(arcs, s, rest - {y}, q);
    } else {
      root := p[0];
    }
  }

  lemma NoArcsIsAcyclic(arcs: Arcs)
    requires arcs == {}
    ensures !Cyclic(arcs)
  {
    if p :| IsWalk(arcs, p) && |p| >= 2 && p[0] == p[|p| - 1] {
      WalkHasArc(arcs, p);
    }
  }

  lemma WalkHasArc(arcs: Arcs, p: seq<Key>)
    requires IsWalk(arcs, p) && |p| >= 2
    ensures arcs != {}
  {
    assert (p[0], p[0 + 1]) in arcs;
  }

  /** Adding a key that no arc leaves cannot close a cycle. */
  lemma SinkKeepsAcyclic(arcs: Arcs, s: set<Key>, x: Key)
    requires !Cyclic(Induced(arcs, s))
    requires forall y :: (x, y) in arcs ==> y !in s && y != x
    ensures !Cyclic(Induced(arcs, s + {x}))
  {
    var all := Induced(arcs, s + {x});
    if p :| IsWalk(all, p) && |p| >= 2 && p[0] == p[|p| - 1] {
      forall i | 0 <= i < |p| - 1
        ensures p[i] in s
      {
        assert (p[i], p[i + 1]) in all;
      }
      assert false;
    }
  }

  /** Arcs between keys of an order that lists sources first form no cycle. */
  lemma {:induction false} OrderedIsAcyclic(arcs: Arcs, order: seq<Key>)
    requires Distinct(order) && SourcesFirst(arcs, order)
    ensures !Cyclic(Induced(arcs, Elems(order)))
    ensures forall x, y :: (x, y) in arcs && y in order ==> x in order
  {
    if order == [] {
      NoArcsIsAcyclic(Induced(arcs, Elems(order)));
    } else {
      var n := |order| - 1;
      var init := order[..n];
      OrderedIsAcyclic(arcs, init);
      assert order == init + [order[n]];
      assert order[n] !in init;
      assert Elems(order) == Elems(init) + {order[n]};
      SinkKeepsAcyclic(arcs, Elems(init), order[n]);
    }
  }

  // ---- finite sequences as sets -------------------------------------------

  function Elems<T(==,!new)>(s: seq<T>): (r: set<T>)
    ensures forall x :: x in r <==> x in s
  {
    set x | x in s
  }

  /** A sequence has as many members as positions exactly when it repeats nothing. */
  lemma {:induction false} DistinctIffCardinality<T(!new)>(s: seq<T>)
    ensures |Elems(s)| <= |s|
    ensures Distinct(s) <==> |Elems(s)| == |s|
  {
    if s == [] {
      assert Elems(s) == {};
    } else {
      var n := |s| - 1;
      var init := s[..n];
      DistinctIffCardinality(init);
      assert s == init + [s[n]];
      assert Elems(s) == Elems(init) + {s[n]};
      if s[n] in init {
        assert Elems(s) == Elems(init);
        var i :| 0 <= i < n && init[i] == s[n];
        assert s[i] == s[n];
      } else {
        assert Distinct(s) <==> Distinct(init);
      }
    }
  }

  lemma DistinctConcat<T>(a: seq<T>, b: seq<T>)
    requires Distinct(a) && Distinct(b) && forall i :: 0 <= i < |b| ==> b[i] !in a
    ensures Distinct(a + b)
  {
  }

  lemma SubsetOfEqualSize<T>(s: set<T>, t: set<T>)
    requires s <= t && |s| == |t|
    ensures s == t
  {
    if x :| x in t && x !in s {
      SubsetNotLarger(s, t - {x});
      assert false;
    }
  }

  lemma {:induction false} SubsetNotLarger<T>(s: set<T>, t: set<T>)
    requires s <= t
    ensures |s| <= |t|
  {
    assert |t - s| + |s| == |t| by {
      assert (t - s) + s == t;
    }
  }
}

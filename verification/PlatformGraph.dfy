/**
 The graph routines of the data platform: topological order, reachability, the
 upstream map, and the check every workflow graph passes before release.
 */
module PlatformGraph {
  import opened Basics
  import opened Graphs

  datatype Link = Link(source: Key, target: Key)

  ghost function LinkArcs(edges: seq<Link>): Arcs {
    if edges == [] then {} else
      var n := |edges| - 1;
      LinkArcs(edges[..n]) + {(edges[n].source, edges[n].target)}
  }

  lemma {:induction false} LinkIsArc(edges: seq<Link>, i: nat)
    requires i < |edges|
    ensures (edges[i].source, edges[i].target) in LinkArcs(edges)
  {
    if i < |edges| - 1 { LinkIsArc(edges[..|edges| - 1], i); }
  }

  lemma {:induction false} ArcIsLink(edges: seq<Link>, x: Key, y: Key) returns (i: nat)
    requires (x, y) in LinkArcs(edges)
    ensures i < |edges| && edges[i] == Link(x, y)
  {
    var n := |edges| - 1;
    if edges[n] == Link(x, y) { i := n; } else { i := ArcIsLink(edges[..n], x, y); }
  }

  /** The edges that order anything: between known nodes, and not from a node to itself. */
  ghost function Ordering(keys: set<Key>, edges: seq<Link>): Arcs {
    if edges == [] then {} else
      var n := |edges| - 1;
      var s, t := edges[n].source, edges[n].target;
      Ordering(keys, edges[..n]) + if s in keys && t in keys && s != t then {(s, t)} else {}
  }

  lemma {:induction false} OrderingMembers(keys: set<Key>, edges: seq<Link>)
    ensures forall x, y :: (x, y) in Ordering(keys, edges) <==>
                             (x, y) in LinkArcs(edges) && x in keys && y in keys && x != y
  {
    if edges != [] { OrderingMembers(keys, edges[..|edges| - 1]); }
  }

  // ---- topological order -----------------------------------------------------

  /** Dependency sets: what still precedes each node, and what each node precedes. */
  ghost predicate Dependencies(keys: set<Key>, arcs: Arcs, incoming: map<Key, set<Key>>, outgoing: map<Key, set<Key>>) {
    && incoming.Keys == keys && outgoing.Keys == keys
    && (forall x, y :: y in keys ==> (x in incoming[y] <==> (x, y) in arcs))
    && (forall x, y :: x in keys ==> (y in outgoing[x] <==> (x, y) in arcs))
  }

  lemma DependenciesExtend(keys: set<Key>, arcs: Arcs, incoming: map<Key, set<Key>>, outgoing: map<Key, set<Key>>,
                           s: Key, t: Key)
    requires Dependencies(keys, arcs, incoming, outgoing) && s in keys && t in keys
    ensures Dependencies(keys, arcs + {(s, t)}, incoming[t := incoming[t] + {s}], outgoing[s := outgoing[s] + {t}])
  {
  }

  method CollectDependencies(keys: set<Key>, edges: seq<Link>)
    returns (incoming: map<Key, set<Key>>, outgoing: map<Key, set<Key>>)
    ensures Dependencies(keys, Ordering(keys, edges), incoming, outgoing)
  {
    incoming := map k | k in keys :: {};
    outgoing := map k | k in keys :: {};
    var n := 0;
    while n < |edges|
      invariant 0 <= n <= |edges|
      invariant Dependencies(keys, Ordering(keys, edges[..n]), incoming, outgoing)
    {
      assert edges[..n + 1][..n] == edges[..n];
      var s, t := edges[n].source, edges[n].target;
      if s in keys && t in keys && s != t {
        DependenciesExtend(keys, Ordering(keys, edges[..n]), incoming, outgoing, s, t);
        incoming := incoming[t := incoming[t] + {s}];
        outgoing := outgoing[s := outgoing[s] + {t}];
      }
      n := n + 1;
    }
    assert edges[..n] == edges;
  }

  /** The keys of a dictionary built from `nodes`: first occurrences, in order. */
  method DictKeys(nodes: seq<Key>) returns (keys: seq<Key>)
    ensures Distinct(keys) && Elems(keys) == Elems(nodes)
  {
    keys := [];
    var n := 0;
    while n < |nodes|
      invariant 0 <= n <= |nodes|
      invariant Distinct(keys) && forall k :: k in keys <==> k in nodes[..n]
    {
      assert nodes[..n + 1] == nodes[..n] + [nodes[n]];
      if nodes[n] !in keys { keys := keys + [nodes[n]]; }
      n := n + 1;
    }
    assert nodes[..n] == nodes;
  }

  /** The targets of a node, one after the other. */
  method Listed(s: set<Key>) returns (q: seq<Key>)
    ensures Distinct(q) && forall k :: k in q <==> k in s
  {
    q := [];
    var rest := s;
    while rest != {}
      invariant Distinct(q) && rest <= s && forall k :: k in q <==> k in s && k !in rest
      decreases rest
    {
      var k :| k in rest;
      q, rest := q + [k], rest - {k};
    }
  }

  /** What Kahn's loop keeps: `incoming` lacks the ordered nodes, and the free nodes are ordered or ready. */
  ghost predicate Frontier(keys: set<Key>, arcs: Arcs, incoming: map<Key, set<Key>>, ordered: seq<Key>,
                           ready: seq<Key>) {
    && incoming.Keys == keys && Distinct(ordered) && Distinct(ready)
    && (forall k :: k in ready ==> k !in ordered)
    && (forall x, y :: y in keys ==> (x in incoming[y] <==> (x, y) in arcs && x !in ordered))
    && (forall y :: y in ordered || y in ready <==> y in keys && incoming[y] == {})
  }

  method InitialReady(keys: seq<Key>, ghost arcs: Arcs, incoming: map<Key, set<Key>>) returns (ready: seq<Key>)
    requires Distinct(keys) && incoming.Keys == Elems(keys)
    requires forall x, y :: y in incoming ==> (x in incoming[y] <==> (x, y) in arcs)
    ensures Frontier(Elems(keys), arcs, incoming, [], ready)
  {
    ready := [];
    var n := 0;
    while n < |keys|
      invariant 0 <= n <= |keys|
      invariant Distinct(ready) && forall k :: k in ready <==> k in keys[..n] && incoming[k] == {}
    {
      assert keys[..n + 1] == keys[..n] + [keys[n]];
      assert keys[n] !in keys[..n];
      if incoming[keys[n]] == {} { ready := ready + [keys[n]]; }
      n := n + 1;
    }
    assert keys[..n] == keys;
  }

  /** The inner loop: the head of the queue is ordered, and targets left without a source become ready. */
  method Release(ghost keys: set<Key>, ghost arcs: Arcs, targets: seq<Key>, deps: map<Key, set<Key>>,
                 was: seq<Key>, queued: seq<Key>)
    returns (incoming: map<Key, set<Key>>, ordered: seq<Key>, ready: seq<Key>)
    requires queued != [] && Frontier(keys, arcs, deps, was, queued) && (queued[0], queued[0]) !in arcs
    requires Distinct(targets) && forall y :: y in targets <==> y in keys && (queued[0], y) in arcs
    ensures ordered == was + [queued[0]] && Frontier(keys, arcs, incoming, ordered, ready)
  {
    var key := queued[0];
    assert key in queued;
    incoming, ordered, ready := deps, was + [key], queued[1..];
    assert queued == [key] + ready;
    assert forall y :: y in was || y in queued <==> y in ordered || y in ready;
    var j := 0;
    while j < |targets|
      invariant 0 <= j <= |targets|
      invariant incoming.Keys == keys && Distinct(ready) && forall k :: k in ready ==> k !in ordered
      invariant forall y :: y in keys ==> incoming[y] == if y in targets[..j] then deps[y] - {key} else deps[y]
      invariant forall y :: y in ordered || y in ready <==> y in keys && incoming[y] == {}
    {
      var target := targets[j];
      assert target in targets && target !in targets[..j];
      assert targets[..j + 1] == targets[..j] + [target];
      assert key in incoming[target];
      incoming := incoming[target := incoming[target] - {key}];
      if incoming[target] == {} && target !in ready && target !in ordered {
        ready := ready + [target];
      }
      j := j + 1;
    }
    assert targets[..j] == targets;
  }

  /** Orders the nodes, or reports a cycle; repeated keys are reported as a cycle too. */
  method TopologicalOrder(nodes: seq<Key>, edges: seq<Link>) returns (result: Option<seq<Key>>)
    ensures result.Some? <==> Distinct(nodes) && !Cyclic(Ordering(Elems(nodes), edges))
    ensures result.Some? ==>
              && multiset(result.value) == multiset(nodes)
              && SourcesFirst(Ordering(Elems(nodes), edges), result.value)
  {
    var keys := DictKeys(nodes);
    var incoming, outgoing := CollectDependencies(Elems(nodes), edges);
    ghost var arcs := Ordering(Elems(nodes), edges);
    OrderingMembers(Elems(nodes), edges);
    var ready := InitialReady(keys, arcs, incoming);
    var ordered: seq<Key> := [];
    while ready != []
      invariant Frontier(Elems(keys), arcs, incoming, ordered, ready) && SourcesFirst(arcs, ordered)
      decreases Elems(keys) - Elems(ordered)
    {
      assert ready[0] in ready;
      var targets := Listed(outgoing[ready[0]]);
      OrderNext(Elems(keys), arcs, incoming, ordered, ready);
      incoming, ordered, ready := Release(Elems(keys), arcs, targets, incoming, ordered, ready);
    }
    OrderIsComplete(nodes, keys, arcs, incoming, ordered);
    result := if |ordered| != |nodes| then None else Some(ordered);
  }

  lemma OrderNext(keys: set<Key>, arcs: Arcs, incoming: map<Key, set<Key>>, ordered: seq<Key>, ready: seq<Key>)
    requires ready != [] && Frontier(keys, arcs, incoming, ordered, ready) && SourcesFirst(arcs, ordered)
    ensures SourcesFirst(arcs, ordered + [ready[0]]) && ready[0] !in ordered && ready[0] in keys
  {
    assert ready[0] in ready;
    assert (ordered + [ready[0]])[..|ordered|] == ordered;
    assert incoming[ready[0]] == {};
  }

  lemma FreeIsOrdered(keys: set<Key>, arcs: Arcs, incoming: map<Key, set<Key>>, ordered: seq<Key>, ready: seq<Key>,
                      y: Key)
    requires Frontier(keys, arcs, incoming, ordered, ready) && ready == [] && y in keys
    requires forall x :: (x, y) in arcs ==> x in ordered
    ensures y in ordered
  {
    forall x
      ensures x !in incoming[y]
    {
      assert x in incoming[y] <==> (x, y) in arcs && x !in ordered;
    }
    assert incoming[y] == {};
    assert y in ordered || y in ready;
  }

  lemma OrderIsComplete(nodes: seq<Key>, keys: seq<Key>, arcs: Arcs, incoming: map<Key, set<Key>>, ordered: seq<Key>)
    requires Distinct(keys) && Elems(keys) == Elems(nodes)
    requires forall x, y :: (x, y) in arcs ==> x in keys && y in keys
    requires Frontier(Elems(keys), arcs, incoming, ordered, []) && SourcesFirst(arcs, ordered)
    ensures |ordered| == |nodes| <==> Distinct(nodes) && !Cyclic(arcs)
    ensures |ordered| == |nodes| ==> multiset(ordered) == multiset(nodes)
  {
    DistinctIffCardinality(nodes);
    DistinctIffCardinality(keys);
    DistinctIffCardinality(ordered);
    assert forall y :: y in ordered ==> y in ordered || y in [];
    SubsetNotLarger(Elems(ordered), Elems(keys));
    if |ordered| == |nodes| {
      SubsetOfEqualSize(Elems(ordered), Elems(keys));
      OrderedIsAcyclic(arcs, ordered);
      assert Induced(arcs, Elems(ordered)) == arcs;
      SameElemsSameMultiset(ordered, nodes);
    } else if Distinct(nodes) && !Cyclic(arcs) {
      var x :| x in Elems(keys) && x !in Elems(ordered) by {
        assert Elems(ordered) != Elems(keys);
      }
      var root := RootAbove(arcs, Elems(keys) - Elems(ordered), x);
      FreeIsOrdered(Elems(keys), arcs, incoming, ordered, [], root);
      assert false;
    }
  }

  lemma {:induction false} SameElemsSameMultiset(a: seq<Key>, b: seq<Key>)
    requires Distinct(a) && Distinct(b) && Elems(a) == Elems(b)
    ensures multiset(a) == multiset(b)
  {
    forall k
      ensures multiset(a)[k] == multiset(b)[k]
    {
      CountInDistinct(a, k);
      CountInDistinct(b, k);
      assert k in Elems(a) <==> k in Elems(b);
    }
  }

  lemma {:induction false} CountInDistinct(a: seq<Key>, k: Key)
    requires Distinct(a)
    ensures multiset(a)[k] == if k in a then 1 else 0
  {
    if a != [] {
      var n := |a| - 1;
      CountInDistinct(a[..n], k);
      assert a == a[..n] + [a[n]];
    }
  }

  // ---- reachability ------------------------------------------------------------

  /** Everything reachable from `source`, itself included; nothing for the empty key. */
  method ReachableNodes(source: Key, edges: seq<Link>) returns (reached: set<Key>)
    ensures source.name == "" ==> reached == {}
    ensures source.name != "" ==> forall x :: x in reached <==> Reaches(LinkArcs(edges), source, x)
  {
    if source.name == "" { return {}; }
    reached := {source};
    var pending := [source];
    ghost var arcs := LinkArcs(edges);
    ghost var all := {source} + set a | a in arcs :: a.1;
    ReachesSelf(arcs, source);
    while pending != []
      invariant source in reached && reached <= all
      invariant forall x :: x in pending ==> x in reached
      invariant forall x :: x in reached ==> Reaches(arcs, source, x)
      invariant forall x, y :: x in reached && (x, y) in arcs ==> y in reached || x in pending
      decreases all - reached, |pending|
    {
      var n := |pending| - 1;
      var current := pending[n];
      assert pending == pending[..n] + [current];
      var more, extra := Successors(current, edges, reached, source);
      assert forall x :: x in extra ==> x in all;
      if extra != [] { assert extra[0] in extra; }
      pending, reached := pending[..n] + extra, more;
    }
    forall x | Reaches(arcs, source, x)
      ensures x in reached
    {
      ClosedHoldsReachable(arcs, reached, source, x);
    }
  }

  /** The inner loop: successors not reached before are reached and put on the stack. */
  method Successors(current: Key, edges: seq<Link>, was: set<Key>, ghost source: Key)
    returns (reached: set<Key>, extra: seq<Key>)
    requires Reaches(LinkArcs(edges), source, current)
    ensures forall x :: x in reached <==> x in was || x in extra
    ensures forall x :: x in extra ==>
              Reaches(LinkArcs(edges), source, x) && (current, x) in LinkArcs(edges) && x !in was
    ensures forall y :: (current, y) in LinkArcs(edges) ==> y in reached
    ensures extra == [] ==> reached == was
  {
    reached, extra := was, [];
    var n := 0;
    while n < |edges|
      invariant 0 <= n <= |edges|
      invariant forall x :: x in reached <==> x in was || x in extra
      invariant forall x :: x in extra ==>
                  Reaches(LinkArcs(edges), source, x) && (current, x) in LinkArcs(edges) && x !in was
      invariant forall y :: (current, y) in LinkArcs(edges[..n]) ==> y in reached
    {
      assert edges[..n + 1][..n] == edges[..n];
      var target := edges[n].target;
      if edges[n].source == current && target !in reached {
        LinkIsArc(edges, n);
        ReachesArc(LinkArcs(edges), source, current, target);
        reached, extra := reached + {target}, extra + [target];
      }
      n := n + 1;
    }
    assert edges[..n] == edges;
  }
}

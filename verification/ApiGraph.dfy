/**
 API orchestration workflows: what `save_workflow` accepts as a graph.

 `ValidateGraph` keeps the loops of the service (edge collection, Kahn's
 in-degree count, the reachability queue) and is proved to accept exactly the
 graphs that `WellFormed` describes by walks.
 */
module ApiGraph {
  import opened Graphs

  datatype NodeKind = Start | End | Condition | Mapping | Call

  /** `mappingOk` is the outcome of the template checks on a mapping node. */
  datatype Node = Node(id: Key, kind: NodeKind, mappingOk: bool)

  datatype Edge = Edge(source: Key, target: Key, branch: string)

  datatype Verdict =
    | Accepted
    | BadIds
    | BadStartOrEnd
    | BadEdge
    | HasCycle
    | NotReachable
    | StartEntered
    | EndLeft
    | BadMapping

  function Ids(nodes: seq<Node>): (r: seq<Key>)
    ensures |r| == |nodes| && forall i :: 0 <= i < |nodes| ==> r[i] == nodes[i].id
  {
    seq(|nodes|, i requires 0 <= i < |nodes| => nodes[i].id)
  }

  ghost function ArcsOf(edges: seq<Edge>): Arcs {
    if edges == [] then {} else
      var n := |edges| - 1;
      ArcsOf(edges[..n]) + {(edges[n].source, edges[n].target)}
  }

  lemma {:induction false} EdgeIsArc(edges: seq<Edge>, i: nat)
    requires i < |edges|
    ensures (edges[i].source, edges[i].target) in ArcsOf(edges)
  {
    var n := |edges| - 1;
    if i < n { EdgeIsArc(edges[..n], i); }
  }

  lemma {:induction false} ArcIsEdge(edges: seq<Edge>, x: Key, y: Key) returns (i: nat)
    requires (x, y) in ArcsOf(edges)
    ensures i < |edges| && edges[i].source == x && edges[i].target == y
  {
    var n := |edges| - 1;
    if edges[n].source == x && edges[n].target == y { i := n; } else { i := ArcIsEdge(edges[..n], x, y); }
  }

  // ---- what a well-formed workflow is --------------------------------------

  ghost predicate IdsValid(nodes: seq<Node>) {
    && nodes != []
    && Distinct(Ids(nodes))
    && forall i :: 0 <= i < |nodes| ==> nodes[i].id.name != "" && nodes[i].id.name != "None"
  }

  ghost predicate IsStart(nodes: seq<Node>, i: int) {
    0 <= i < |nodes| && nodes[i].kind == Start
  }

  ghost predicate StartAndEnd(nodes: seq<Node>) {
    && (exists i :: IsStart(nodes, i))
    && (forall i, j :: IsStart(nodes, i) && IsStart(nodes, j) ==> i == j)
    && (exists i :: 0 <= i < |nodes| && nodes[i].kind == End)
  }

  ghost predicate EdgesValid(keys: set<Key>, edges: seq<Edge>) {
    && (forall i :: 0 <= i < |edges| ==>
          edges[i].source in keys && edges[i].target in keys && edges[i].source != edges[i].target)
    && (forall i, j :: 0 <= i < j < |edges| ==>
          edges[i].source != edges[j].source || edges[i].target != edges[j].target)
  }

  ghost function StartOf(nodes: seq<Node>): (id: Key)
    requires StartAndEnd(nodes)
    ensures exists i :: IsStart(nodes, i) && nodes[i].id == id
  {
    var i :| IsStart(nodes, i);
    nodes[i].id
  }

  ghost predicate AllReachable(nodes: seq<Node>, edges: seq<Edge>)
    requires StartAndEnd(nodes)
  {
    forall i :: 0 <= i < |nodes| ==> Reaches(ArcsOf(edges), StartOf(nodes), nodes[i].id)
  }

  ghost predicate Enters(edges: seq<Edge>, key: Key) {
    exists j :: 0 <= j < |edges| && edges[j].target == key
  }

  ghost predicate Leaves(edges: seq<Edge>, key: Key) {
    exists j :: 0 <= j < |edges| && edges[j].source == key
  }

  ghost predicate WellFormed(nodes: seq<Node>, edges: seq<Edge>) {
    && IdsValid(nodes)
    && StartAndEnd(nodes)
    && EdgesValid(Elems(Ids(nodes)), edges)
    && !Cyclic(ArcsOf(edges))
    && AllReachable(nodes, edges)
    && !Enters(edges, StartOf(nodes))
    && NodesFit(nodes, edges)
  }

  ghost predicate NodesFit(nodes: seq<Node>, edges: seq<Edge>) {
    && (forall i :: 0 <= i < |nodes| && nodes[i].kind == End ==> !Leaves(edges, nodes[i].id))
    && (forall i :: 0 <= i < |nodes| && nodes[i].kind == Mapping ==> nodes[i].mappingOk)
  }

  /** Which rule of `WellFormed` a verdict blames, the earlier rules having held. */
  ghost predicate Blames(nodes: seq<Node>, edges: seq<Edge>, verdict: Verdict) {
    match verdict
    case Accepted => WellFormed(nodes, edges)
    case BadIds => !IdsValid(nodes)
    case BadStartOrEnd => IdsValid(nodes) && !StartAndEnd(nodes)
    case BadEdge => IdsValid(nodes) && StartAndEnd(nodes) && !EdgesValid(Elems(Ids(nodes)), edges)
    case HasCycle => StartAndEnd(nodes) && EdgesValid(Elems(Ids(nodes)), edges) && Cyclic(ArcsOf(edges))
    case NotReachable => StartAndEnd(nodes) && !Cyclic(ArcsOf(edges)) && !AllReachable(nodes, edges)
    case StartEntered => StartAndEnd(nodes) && Enters(edges, StartOf(nodes))
    case EndLeft => exists i :: 0 <= i < |nodes| && nodes[i].kind == End && Leaves(edges, nodes[i].id)
    case BadMapping => exists i :: 0 <= i < |nodes| && nodes[i].kind == Mapping && !nodes[i].mappingOk
  }

  /**
   The check for an edge into the start node can never be the one that fires:
   such an edge closes a cycle once every node is reachable from the start.
   */
  lemma StartIsNeverEntered(nodes: seq<Node>, edges: seq<Edge>)
    requires StartAndEnd(nodes) && EdgesValid(Elems(Ids(nodes)), edges)
    requires !Cyclic(ArcsOf(edges)) && AllReachable(nodes, edges)
    ensures !Enters(edges, StartOf(nodes))
  {
    if j :| 0 <= j < |edges| && edges[j].target == StartOf(nodes) {
      EdgeIsArc(edges, j);
      var i :| 0 <= i < |nodes| && Ids(nodes)[i] == edges[j].source;
      ReachesBackIsCyclic(ArcsOf(edges), StartOf(nodes), edges[j].source);
    }
  }

  // ---- the service's loops ---------------------------------------------------

  /** How many edges enter `y` from outside `done`: what Kahn's loop keeps in `indegree`. */
  ghost function Left(edges: seq<Edge>, y: Key, done: set<Key>): nat {
    if edges == [] then 0 else
      var n := |edges| - 1;
      Left(edges[..n], y, done) + if edges[n].target == y && edges[n].source !in done then 1 else 0
  }

  lemma {:induction false} LeftZero(edges: seq<Edge>, y: Key, done: set<Key>)
    ensures Left(edges, y, done) == 0 <==> forall x :: (x, y) in ArcsOf(edges) ==> x in done
  {
    if edges != [] {
      LeftZero(edges[..|edges| - 1], y, done);
    }
  }

  /** Each edge is counted once, since validated edges repeat no pair of ends. */
  lemma {:induction false} LeftShrinks(keys: set<Key>, edges: seq<Edge>, y: Key, done: set<Key>, x: Key)
    requires EdgesValid(keys, edges) && x !in done
    ensures Left(edges, y, done + {x}) == Left(edges, y, done) - if (x, y) in ArcsOf(edges) then 1 else 0
  {
    if edges != [] {
      var n := |edges| - 1;
      LeftShrinks(keys, edges[..n], y, done, x);
      if (x, y) in ArcsOf(edges[..n]) {
        var i := ArcIsEdge(edges[..n], x, y);
        assert edges[i] == edges[..n][i];
      }
    }
  }

  /** Adjacency lists agree with the arcs. */
  ghost predicate Adjacency(keys: set<Key>, arcs: Arcs, graph: map<Key, seq<Key>>) {
    && graph.Keys == keys
    && (forall x, y :: (x, y) in arcs ==> x in keys && y in keys && x != y)
    && (forall x :: x in keys ==> Distinct(graph[x]))
    && (forall x, y :: x in keys ==> (y in graph[x] <==> (x, y) in arcs))
  }

  ghost predicate Degrees(keys: set<Key>, edges: seq<Edge>, indegree: map<Key, nat>, done: set<Key>) {
    indegree.Keys == keys && forall y :: y in keys ==> indegree[y] == Left(edges, y, done)
  }

  /** What the edge loop has established after `k` edges. */
  ghost predicate Collected(keys: set<Key>, edges: seq<Edge>, graph: map<Key, seq<Key>>, indegree: map<Key, nat>) {
    EdgesValid(keys, edges) && Adjacency(keys, ArcsOf(edges), graph) && Degrees(keys, edges, indegree, {})
  }

  lemma CollectedExtends(keys: set<Key>, edges: seq<Edge>, k: nat, graph: map<Key, seq<Key>>, indegree: map<Key, nat>)
    requires k < |edges| && Collected(keys, edges[..k], graph, indegree)
    requires edges[k].source in keys && edges[k].target in keys && edges[k].source != edges[k].target
    requires edges[k].target !in graph[edges[k].source]
    ensures var s, t := edges[k].source, edges[k].target;
            Collected(keys, edges[..k + 1], graph[s := graph[s] + [t]], indegree[t := indegree[t] + 1])
  {
    EdgeAccepted(keys, edges, k);
    assert edges[..k + 1][..k] == edges[..k];
    AdjacencyExtends(keys, ArcsOf(edges[..k]), graph, edges[k].source, edges[k].target);
  }

  lemma AdjacencyExtends(keys: set<Key>, arcs: Arcs, graph: map<Key, seq<Key>>, s: Key, t: Key)
    requires Adjacency(keys, arcs, graph) && s in keys && t in keys && s != t && t !in graph[s]
    ensures Adjacency(keys, arcs + {(s, t)}, graph[s := graph[s] + [t]])
  {
  }

  lemma NothingCollected(keys: set<Key>, edges: seq<Edge>, graph: map<Key, seq<Key>>, indegree: map<Key, nat>)
    requires edges == [] && graph.Keys == keys && indegree.Keys == keys
    requires forall x :: x in keys ==> graph[x] == [] && indegree[x] == 0
    ensures Collected(keys, edges, graph, indegree)
  {
  }

  method BuildAdjacency(ids: seq<Key>, edges: seq<Edge>)
    returns (ok: bool, graph: map<Key, seq<Key>>, indegree: map<Key, nat>)
    ensures ok <==> EdgesValid(Elems(ids), edges)
    ensures ok ==> Collected(Elems(ids), edges, graph, indegree)
  {
    graph := map x | x in ids :: [];
    indegree := map x | x in ids :: 0;
    ok := true;
    var k := 0;
    ghost var keys := Elems(ids);
    NothingCollected(keys, edges[..k], graph, indegree);
    while ok && k < |edges|
      invariant 0 <= k <= |edges|
      invariant if ok then Collected(keys, edges[..k], graph, indegree) else !EdgesValid(keys, edges)
      decreases |edges| - k, ok
    {
      ok, graph, indegree := AddEdge(keys, edges, k, graph, indegree);
      if ok { k := k + 1; }
    }
    assert ok ==> edges[..k] == edges;
  }

  /** One turn of the loop: the edge is refused, or listed at its source and counted at its target. */
  method AddEdge(ghost keys: set<Key>, edges: seq<Edge>, k: nat, graph: map<Key, seq<Key>>, indegree: map<Key, nat>)
    returns (ok: bool, grown: map<Key, seq<Key>>, counted: map<Key, nat>)
    requires k < |edges| && Collected(keys, edges[..k], graph, indegree)
    ensures if ok then Collected(keys, edges[..k + 1], grown, counted) else !EdgesValid(keys, edges)
  {
    var s, t := edges[k].source, edges[k].target;
    if s !in graph || t !in graph || s == t || t in graph[s] {
      EdgeRejected(keys, edges, k, graph, indegree);
      return false, graph, indegree;
    }
    CollectedExtends(keys, edges, k, graph, indegree);
    return true, graph[s := graph[s] + [t]], indegree[t := indegree[t] + 1];
  }

  lemma EdgeRejected(keys: set<Key>, edges: seq<Edge>, k: nat, graph: map<Key, seq<Key>>, indegree: map<Key, nat>)
    requires k < |edges| && Collected(keys, edges[..k], graph, indegree)
    requires edges[k].source !in keys || edges[k].target !in keys || edges[k].source == edges[k].target
          || edges[k].target in graph[edges[k].source]
    ensures !EdgesValid(keys, edges)
  {
    if (edges[k].source, edges[k].target) in ArcsOf(edges[..k]) {
      var j := ArcIsEdge(edges[..k], edges[k].source, edges[k].target);
      assert edges[j] == edges[..k][j];
    }
  }

  lemma EdgeAccepted(keys: set<Key>, edges: seq<Edge>, k: nat)
    requires k < |edges| && EdgesValid(keys, edges[..k])
    requires edges[k].source in keys && edges[k].target in keys && edges[k].source != edges[k].target
    requires (edges[k].source, edges[k].target) !in ArcsOf(edges[..k])
    ensures EdgesValid(keys, edges[..k + 1])
    ensures ArcsOf(edges[..k + 1]) == ArcsOf(edges[..k]) + {(edges[k].source, edges[k].target)}
  {
    assert edges[..k + 1][..k] == edges[..k];
    forall i | 0 <= i < k
      ensures edges[i].source != edges[k].source || edges[i].target != edges[k].target
    {
      EdgeIsArc(edges[..k], i);
    }
  }

  /** The keys with no arc left are those listed and those queued. */
  ghost predicate Frontier(keys: set<Key>, indegree: map<Key, nat>, done: set<Key>, q: seq<Key>) {
    && indegree.Keys == keys && done <= keys && Distinct(q)
    && (forall y :: y in q ==> y !in done)
    && (forall y :: y in q || y in done <==> y in keys && indegree[y] == 0)
  }

  /** Kahn's count reaches the number of keys exactly when there is no cycle. */
  method KahnCount(ids: seq<Key>, ghost edges: seq<Edge>, graph: map<Key, seq<Key>>, degrees: map<Key, nat>)
    returns (count: nat)
    requires Distinct(ids) && Collected(Elems(ids), edges, graph, degrees)
    ensures count == |ids| <==> !Cyclic(ArcsOf(edges))
  {
    var indegree := degrees;
    var q := InitialQueue(ids, indegree);
    count := 0;
    ghost var keys, done: set<Key> := Elems(ids), {};
    ghost var arcs := ArcsOf(edges);
    NoArcsIsAcyclic(Induced(arcs, done));
    while q != []
      invariant count == |done|
      invariant Frontier(keys, indegree, done, q)
      invariant Degrees(keys, edges, indegree, done)
      invariant !Cyclic(Induced(arcs, done))
      invariant forall x, y :: (x, y) in arcs && y in done ==> x in done
      decreases keys - done
    {
      var x := q[0];
      assert x in q;
      LeftZero(edges, x, done);
      SinkKeepsAcyclic(arcs, done, x);
      count := count + 1;
      indegree, q := Relax(keys, edges, graph[x], indegree, q, done);
      done := done + {x};
    }
    KahnDecides(ids, edges, done);
  }

  method InitialQueue(ids: seq<Key>, indegree: map<Key, nat>) returns (q: seq<Key>)
    requires Distinct(ids) && indegree.Keys == Elems(ids)
    ensures Frontier(Elems(ids), indegree, {}, q)
  {
    q := [];
    var k := 0;
    while k < |ids|
      invariant 0 <= k <= |ids|
      invariant Distinct(q) && forall y :: y in q <==> y in ids[..k] && indegree[y] == 0
    {
      assert ids[..k + 1] == ids[..k] + [ids[k]];
      assert ids[k] !in ids[..k];
      if indegree[ids[k]] == 0 { q := q + [ids[k]]; }
      k := k + 1;
    }
    assert ids[..k] == ids;
  }

  /** Of the head's targets those in `passed` have lost the head as a source. */
  ghost predicate Relaxed(keys: set<Key>, passed: seq<Key>, degrees: map<Key, nat>, indegree: map<Key, nat>) {
    && degrees.Keys == keys && indegree.Keys == keys
    && forall y :: y in keys ==> indegree[y] as int == degrees[y] as int - if y in passed then 1 else 0
  }

  /** The inner loop: the head of the queue is listed, and every target it was the last source of is queued. */
  method Relax(ghost keys: set<Key>, ghost edges: seq<Edge>, targets: seq<Key>, degrees: map<Key, nat>,
               queued: seq<Key>, ghost done: set<Key>)
    returns (indegree: map<Key, nat>, q: seq<Key>)
    requires EdgesValid(keys, edges) && queued != []
    requires Frontier(keys, degrees, done, queued) && Degrees(keys, edges, degrees, done)
    requires Distinct(targets) && (forall y :: y in targets <==> (queued[0], y) in ArcsOf(edges))
    ensures Frontier(keys, indegree, done + {queued[0]}, q)
    ensures Degrees(keys, edges, indegree, done + {queued[0]})
  {
    ghost var x := queued[0];
    indegree, q := degrees, queued[1..];
    HeadIsListed(keys, degrees, done, queued);
    var j := 0;
    while j < |targets|
      invariant 0 <= j <= |targets|
      invariant Frontier(keys, indegree, done + {x}, q)
      invariant Relaxed(keys, targets[..j], degrees, indegree)
    {
      var y := targets[j];
      EntersKey(keys, edges, x, y, degrees, done);
      RelaxedNext(keys, targets, j, degrees, indegree);
      FrontierNext(keys, indegree, done + {x}, q, y);
      indegree := indegree[y := indegree[y] - 1];
      if indegree[y] == 0 { q := q + [y]; }
      j := j + 1;
    }
    assert targets[..j] == targets;
    RelaxedDegrees(keys, edges, x, targets, degrees, indegree, done);
  }

  lemma HeadIsListed(keys: set<Key>, indegree: map<Key, nat>, done: set<Key>, queued: seq<Key>)
    requires queued != [] && Frontier(keys, indegree, done, queued)
    ensures queued[0] in keys && queued[0] !in done && Frontier(keys, indegree, done + {queued[0]}, queued[1..])
  {
    assert queued == [queued[0]] + queued[1..];
    assert queued[0] in queued;
  }

  lemma EntersKey(keys: set<Key>, edges: seq<Edge>, x: Key, y: Key, degrees: map<Key, nat>, done: set<Key>)
    requires EdgesValid(keys, edges) && (x, y) in ArcsOf(edges) && x !in done && Degrees(keys, edges, degrees, done)
    ensures y in keys && degrees[y] > 0
  {
    KeysOfEdge(keys, edges, x, y);
    LeftShrinks(keys, edges, y, done, x);
  }

  lemma RelaxedNext(keys: set<Key>, targets: seq<Key>, j: nat, degrees: map<Key, nat>, indegree: map<Key, nat>)
    requires j < |targets| && Distinct(targets) && Relaxed(keys, targets[..j], degrees, indegree)
    requires targets[j] in keys && degrees[targets[j]] > 0
    ensures indegree[targets[j]] > 0
    ensures Relaxed(keys, targets[..j + 1], degrees, indegree[targets[j] := indegree[targets[j]] - 1])
  {
    assert targets[..j + 1] == targets[..j] + [targets[j]];
    assert targets[j] !in targets[..j];
  }

  lemma FrontierNext(keys: set<Key>, indegree: map<Key, nat>, done: set<Key>, q: seq<Key>, y: Key)
    requires Frontier(keys, indegree, done, q) && y in keys && indegree[y] > 0
    ensures Frontier(keys, indegree[y := indegree[y] - 1], done, if indegree[y] == 1 then q + [y] else q)
  {
  }

  lemma RelaxedDegrees(keys: set<Key>, edges: seq<Edge>, x: Key, targets: seq<Key>, degrees: map<Key, nat>,
                       indegree: map<Key, nat>, done: set<Key>)
    requires EdgesValid(keys, edges) && x !in done && Degrees(keys, edges, degrees, done)
    requires Relaxed(keys, targets, degrees, indegree) && (forall y :: y in targets <==> (x, y) in ArcsOf(edges))
    ensures Degrees(keys, edges, indegree, done + {x})
  {
    forall y | y in keys
      ensures indegree[y] == Left(edges, y, done + {x})
    {
      LeftShrinks(keys, edges, y, done, x);
    }
  }

  lemma KeysOfEdge(keys: set<Key>, edges: seq<Edge>, x: Key, y: Key)
    requires EdgesValid(keys, edges) && (x, y) in ArcsOf(edges)
    ensures x in keys && y in keys && x != y
  {
    var i := ArcIsEdge(edges, x, y);
  }

  lemma KahnDecides(ids: seq<Key>, edges: seq<Edge>, done: set<Key>)
    requires Distinct(ids) && done <= Elems(ids) && EdgesValid(Elems(ids), edges)
    requires forall y :: y in Elems(ids) ==> (y in done <==> Left(edges, y, done) == 0)
    requires !Cyclic(Induced(ArcsOf(edges), done))
    ensures |done| == |ids| <==> !Cyclic(ArcsOf(edges))
  {
    DistinctIffCardinality(ids);
    if |done| == |ids| {
      SubsetOfEqualSize(done, Elems(ids));
      InducedIsAll(Elems(ids), edges);
    } else if !Cyclic(ArcsOf(edges)) {
      var x :| x in Elems(ids) && x !in done by {
        assert done != Elems(ids);
      }
      var root := RootAbove(ArcsOf(edges), Elems(ids) - done, x);
      LeftZero(edges, root, done);
      var y :| (y, root) in ArcsOf(edges) && y !in done;
      KeysOfEdge(Elems(ids), edges, y, root);
      assert false;
    }
  }

  lemma InducedIsAll(keys: set<Key>, edges: seq<Edge>)
    requires EdgesValid(keys, edges)
    ensures Induced(ArcsOf(edges), keys) == ArcsOf(edges)
  {
    forall x, y | (x, y) in ArcsOf(edges)
      ensures x in keys && y in keys
    {
      KeysOfEdge(keys, edges, x, y);
    }
  }

  /** The reachability queue of the validator; keys may be queued more than once. */
  method CollectReachable(ghost keys: set<Key>, ghost arcs: Arcs, graph: map<Key, seq<Key>>, start: Key)
    returns (reachable: set<Key>)
    requires start in keys && graph.Keys == keys
    requires forall x, y :: (x, y) in arcs ==> x in keys && y in keys
    requires forall x, y :: x in keys ==> (y in graph[x] <==> (x, y) in arcs)
    ensures forall x :: x in reachable <==> Reaches(arcs, start, x)
  {
    reachable := {};
    var q := [start];
    ReachesSelf(arcs, start);
    while q != []
      invariant start in q || start in reachable
      invariant reachable <= keys
      invariant forall x :: x in q || x in reachable ==> x in keys && Reaches(arcs, start, x)
      invariant forall x, y :: x in reachable && (x, y) in arcs ==> y in reachable || y in q
      decreases keys - reachable, |q|
    {
      var current := q[0];
      assert current in q;
      assert q == [current] + q[1..];
      q := q[1..];
      if current in reachable { continue; }
      forall y | y in graph[current]
        ensures Reaches(arcs, start, y)
      {
        ReachesArc(arcs, start, current, y);
      }
      reachable := reachable + {current};
      q := q + graph[current];
    }
    forall x | Reaches(arcs, start, x)
      ensures x in reachable
    {
      ClosedHoldsReachable(arcs, reachable, start, x);
    }
  }

  method CollectStarts(nodes: seq<Node>) returns (starts: seq<Key>, anyEnd: bool)
    ensures |starts| == 1 && anyEnd <==> StartAndEnd(nodes)
    ensures |starts| == 1 && anyEnd ==> starts[0] == StartOf(nodes)
  {
    starts := [];
    anyEnd := false;
    ghost var at: seq<int> := [];
    var k := 0;
    while k < |nodes|
      invariant 0 <= k <= |nodes|
      invariant |at| == |starts|
      invariant forall i :: 0 <= i < |at| ==> 0 <= at[i] < k && IsStart(nodes, at[i]) && starts[i] == nodes[at[i]].id
      invariant forall i, j :: 0 <= i < j < |at| ==> at[i] != at[j]
      invariant forall i :: 0 <= i < k && IsStart(nodes, i) ==> i in at
      invariant anyEnd <==> exists i :: 0 <= i < k && nodes[i].kind == End
    {
      if nodes[k].kind == Start { starts, at := starts + [nodes[k].id], at + [k]; }
      if nodes[k].kind == End { anyEnd := true; }
      k := k + 1;
    }
    OneStart(nodes, at);
  }

  lemma OneStart(nodes: seq<Node>, at: seq<int>)
    requires forall i :: 0 <= i < |at| ==> IsStart(nodes, at[i])
    requires forall i, j :: 0 <= i < j < |at| ==> at[i] != at[j]
    requires forall i :: IsStart(nodes, i) ==> i in at
    ensures |at| == 1 <==>
              && (exists i :: IsStart(nodes, i))
              && forall i, j :: IsStart(nodes, i) && IsStart(nodes, j) ==> i == j
  {
    if |at| > 1 {
      assert IsStart(nodes, at[0]) && IsStart(nodes, at[1]) && at[0] != at[1];
    }
    if |at| == 1 {
      assert at == [at[0]];
    }
  }

  method ValidateGraph(nodes: seq<Node>, edges: seq<Edge>) returns (verdict: Verdict)
    ensures verdict == Accepted <==> WellFormed(nodes, edges)
    ensures Blames(nodes, edges, verdict)
    ensures verdict != StartEntered
  {
    var ids := Ids(nodes);
    DistinctIffCardinality(ids);
    if nodes == [] || |ids| != |Elems(ids)|
       || exists i :: 0 <= i < |nodes| && (nodes[i].id.name == "" || nodes[i].id.name == "None") {
      return BadIds;
    }
    var starts, anyEnd := CollectStarts(nodes);
    if |starts| != 1 || !anyEnd { return BadStartOrEnd; }
    verdict := ValidateEdges(nodes, edges, starts[0]);
  }

  method ValidateEdges(nodes: seq<Node>, edges: seq<Edge>, start: Key) returns (verdict: Verdict)
    requires IdsValid(nodes) && StartAndEnd(nodes) && start == StartOf(nodes)
    ensures verdict == Accepted <==> WellFormed(nodes, edges)
    ensures verdict != Accepted ==> Blames(nodes, edges, verdict)
    ensures verdict !in {BadIds, BadStartOrEnd, StartEntered}
  {
    var ids := Ids(nodes);
    var ok, graph, indegree := BuildAdjacency(ids, edges);
    if !ok { return BadEdge; }
    var count := KahnCount(ids, edges, graph, indegree);
    if count != |ids| { return HasCycle; }
    var reachable := CollectReachable(Elems(ids), ArcsOf(edges), graph, start);
    AllReachableIff(nodes, edges, reachable);
    if reachable != Elems(ids) { return NotReachable; }
    StartIsNeverEntered(nodes, edges);
    verdict := CheckNodes(nodes, edges, graph, indegree);
  }

  /** The last loop of the validator: degrees of start and end nodes, and mapping templates. */
  method CheckNodes(nodes: seq<Node>, ghost edges: seq<Edge>, graph: map<Key, seq<Key>>, indegree: map<Key, nat>)
    returns (verdict: Verdict)
    requires StartAndEnd(nodes) && Collected(Elems(Ids(nodes)), edges, graph, indegree)
    requires !Enters(edges, StartOf(nodes))
    ensures verdict in {Accepted, EndLeft, BadMapping}
    ensures verdict == Accepted <==> NodesFit(nodes, edges)
    ensures verdict != Accepted ==> Blames(nodes, edges, verdict)
  {
    var k := 0;
    while k < |nodes|
      invariant 0 <= k <= |nodes|
      invariant forall i :: 0 <= i < k && nodes[i].kind == End ==> !Leaves(edges, nodes[i].id)
      invariant forall i :: 0 <= i < k && nodes[i].kind == Mapping ==> nodes[i].mappingOk
    {
      var node := nodes[k];
      assert Ids(nodes)[k] == node.id;
      if node.kind == Start && indegree[node.id] != 0 {
        NotEntered(nodes, edges, k);
        assert false;
        return StartEntered;
      }
      LeavesIff(edges, node.id, graph[node.id]);
      if node.kind == End && graph[node.id] != [] { return EndLeft; }
      if node.kind == Mapping && !node.mappingOk { return BadMapping; }
      k := k + 1;
    }
    return Accepted;
  }

  lemma NotEntered(nodes: seq<Node>, edges: seq<Edge>, k: nat)
    requires StartAndEnd(nodes) && IsStart(nodes, k) && !Enters(edges, StartOf(nodes))
    ensures Left(edges, nodes[k].id, {}) == 0
  {
    LeftZero(edges, nodes[k].id, {});
    forall x | (x, nodes[k].id) in ArcsOf(edges)
      ensures false
    {
      var j := ArcIsEdge(edges, x, nodes[k].id);
    }
  }

  lemma LeavesIff(edges: seq<Edge>, key: Key, targets: seq<Key>)
    requires forall y :: y in targets <==> (key, y) in ArcsOf(edges)
    ensures Leaves(edges, key) <==> targets != []
  {
    if targets != [] {
      assert targets[0] in targets;
      var j := ArcIsEdge(edges, key, targets[0]);
    }
    if j :| 0 <= j < |edges| && edges[j].source == key {
      EdgeIsArc(edges, j);
    }
  }

  lemma AllReachableIff(nodes: seq<Node>, edges: seq<Edge>, reachable: set<Key>)
    requires StartAndEnd(nodes) && EdgesValid(Elems(Ids(nodes)), edges)
    requires forall x :: x in reachable <==> Reaches(ArcsOf(edges), StartOf(nodes), x)
    ensures reachable == Elems(Ids(nodes)) <==> AllReachable(nodes, edges)
  {
    var ids := Ids(nodes);
    forall x | x in reachable
      ensures x in ids
    {
      forall y, z | (y, z) in ArcsOf(edges)
        ensures z in Elems(ids)
      {
        var j := ArcIsEdge(edges, y, z);
      }
      ClosedHoldsReachable(ArcsOf(edges), Elems(ids), StartOf(nodes), x);
    }
    if AllReachable(nodes, edges) {
      forall x | x in ids
        ensures x in reachable
      {
        var i :| 0 <= i < |ids| && ids[i] == x;
      }
    }
    if reachable == Elems(ids) {
      forall i | 0 <= i < |nodes|
        ensures nodes[i].id in reachable
      {
        assert ids[i] in ids;
      }
    }
  }
}

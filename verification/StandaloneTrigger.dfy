/**
 Self-contained change triggers: the action graph behind the monitor node, its
 validation, and the upgrade that attaches the monitor to version-1 graphs.
 */
module StandaloneTrigger {
  import opened Basics
  import opened Graphs
  import opened PlatformGraph
  import opened WorkflowRun

  const MONITOR := Key("monitor")

  ghost predicate ActionGraphOk(nodes: seq<Key>, edges: seq<Link>) {
    && EndsKnown({MONITOR} + Elems(nodes), edges)
    && !Entered(edges, MONITOR) && Left(edges, MONITOR) && Distinct(edges)
    && Distinct([MONITOR] + nodes) && !Cyclic(Ordering(Elems([MONITOR] + nodes), edges))
    && forall k :: k in nodes ==> Reaches(LinkArcs(edges), MONITOR, k)
  }

  method ValidateActionGraph(nodes: seq<Key>, edges: seq<Link>) returns (ok: bool)
    ensures ok <==> nodes == [] || ActionGraphOk(nodes, edges)
  {
    if nodes == [] { return true; }
    DistinctIffCardinality(edges);
    if !EndsKnown({MONITOR} + Elems(nodes), edges) { return false; }
    if Entered(edges, MONITOR) || !Left(edges, MONITOR) { return false; }
    if |edges| != |Elems(edges)| { return false; }
    var order := TopologicalOrder([MONITOR] + nodes, edges);
    if order.None? { return false; }
    var reachable := ReachableNodes(MONITOR, edges);
    ok := Elems(nodes) - reachable == {};
    assert ok <==> forall k :: k in nodes ==> k in reachable by {
      assert forall k :: k in nodes <==> k in Elems(nodes);
      assert Elems(nodes) - reachable == {} <==> Elems(nodes) <= reachable;
    }
  }

  // ---- the version-1 upgrade -------------------------------------------------------

  function ActionOnly(keys: set<Key>, edges: seq<Link>): (r: seq<Link>)
    ensures EndsKnown(keys, r)
  {
    if edges == [] then [] else
      var n := |edges| - 1;
      ActionOnly(keys, edges[..n]) +
      if edges[n].source in keys && edges[n].target in keys then [edges[n]] else []
  }

  function FromMonitor(roots: seq<Key>): (r: seq<Link>)
    ensures |r| == |roots| && forall i :: 0 <= i < |r| ==> r[i] == Link(MONITOR, roots[i])
  {
    seq(|roots|, i requires 0 <= i < |roots| => Link(MONITOR, roots[i]))
  }

  /** How many edges enter each node; what matters is which counts stay zero. */
  method CountIncoming(nodes: seq<Key>, actionOnly: seq<Link>) returns (incoming: map<Key, nat>)
    requires EndsKnown(Elems(nodes), actionOnly)
    ensures incoming.Keys == Elems(nodes)
    ensures forall k :: k in incoming ==> (incoming[k] == 0 <==> !Entered(actionOnly, k))
  {
    incoming := map k | k in nodes :: 0;
    var n := 0;
    while n < |actionOnly|
      invariant 0 <= n <= |actionOnly| && incoming.Keys == Elems(nodes)
      invariant forall k :: k in incoming ==> (incoming[k] == 0 <==> !Entered(actionOnly[..n], k))
    {
      EnteredNext(actionOnly, n);
      var t := actionOnly[n].target;
      incoming := incoming[t := incoming[t] + 1];
      n := n + 1;
    }
    assert actionOnly[..n] == actionOnly;
  }

  lemma EnteredNext(edges: seq<Link>, n: nat)
    requires n < |edges|
    ensures forall k :: Entered(edges[..n + 1], k) <==> Entered(edges[..n], k) || k == edges[n].target
  {
    forall k
      ensures Entered(edges[..n + 1], k) <==> Entered(edges[..n], k) || k == edges[n].target
    {
      assert edges[..n + 1][n].target == edges[n].target;
      assert forall i :: 0 <= i < n ==> edges[..n + 1][i] == edges[..n][i];
    }
  }

  /** The action nodes no edge enters. */
  method Roots(nodes: seq<Key>, actionOnly: seq<Link>) returns (roots: seq<Key>)
    requires EndsKnown(Elems(nodes), actionOnly)
    ensures RootsOf(nodes, actionOnly, roots)
  {
    var keys := DictKeys(nodes);
    var incoming := CountIncoming(nodes, actionOnly);
    assert forall k :: k in keys <==> k in Elems(keys);
    roots := KeysAtZero(keys, incoming);
    RootsAreUnentered(nodes, actionOnly, keys, incoming, roots);
  }

  method KeysAtZero(keys: seq<Key>, incoming: map<Key, nat>) returns (zero: seq<Key>)
    requires Distinct(keys) && forall k :: k in keys ==> k in incoming
    ensures Distinct(zero) && forall k :: k in zero <==> k in keys && incoming[k] == 0
  {
    zero := [];
    var n := 0;
    while n < |keys|
      invariant 0 <= n <= |keys|
      invariant Distinct(zero) && forall k :: k in zero <==> k in keys[..n] && incoming[k] == 0
    {
      assert keys[..n + 1] == keys[..n] + [keys[n]];
      assert keys[n] !in keys[..n];
      if incoming[keys[n]] == 0 { zero := zero + [keys[n]]; }
      n := n + 1;
    }
    assert keys[..n] == keys;
  }

  lemma RootsAreUnentered(nodes: seq<Key>, actionOnly: seq<Link>, keys: seq<Key>, incoming: map<Key, nat>,
                          roots: seq<Key>)
    requires EndsKnown(Elems(nodes), actionOnly) && Elems(keys) == Elems(nodes) && incoming.Keys == Elems(nodes)
    requires forall k :: k in incoming ==> (incoming[k] == 0 <==> !Entered(actionOnly, k))
    requires Distinct(roots) && forall k :: k in roots <==> k in keys && k in incoming && incoming[k] == 0
    ensures RootsOf(nodes, actionOnly, roots)
  {
    assert forall k :: k in keys <==> k in Elems(keys);
    assert forall k :: k in nodes <==> k in Elems(nodes);
  }

  /** What a version-1 action graph must satisfy for its upgrade to be accepted. */
  ghost predicate Upgradable(nodes: seq<Key>, edges: seq<Link>) {
    var keys := Elems(nodes);
    && Distinct(nodes) && MONITOR !in nodes
    && Distinct(ActionOnly(keys, edges))
    && !Cyclic(Ordering(keys, ActionOnly(keys, edges)))
    && forall k :: SelfLooped(ActionOnly(keys, edges), k) ==> EnteredByOther(ActionOnly(keys, edges), k)
  }

  ghost predicate SelfLooped(edges: seq<Link>, k: Key) {
    (k, k) in LinkArcs(edges)
  }

  ghost predicate EnteredByOther(edges: seq<Link>, k: Key) {
    exists u :: u != k && (u, k) in LinkArcs(edges)
  }

  method StandaloneEdges(nodes: seq<Key>, edges: seq<Link>, schemaVersion: int) returns (result: Option<seq<Link>>)
    ensures schemaVersion < 2 ==> (result.Some? <==> nodes == [] || Upgradable(nodes, edges))
    ensures schemaVersion >= 2 ==> (result.Some? <==> nodes == [] || ActionGraphOk(nodes, edges))
    ensures result.Some? && nodes != [] ==> ActionGraphOk(nodes, result.value)
    ensures schemaVersion >= 2 && result.Some? ==> result.value == edges
    ensures schemaVersion < 2 && result.Some? ==>
              exists roots :: RootsOf(nodes, ActionOnly(Elems(nodes), edges), roots)
                              && result.value == FromMonitor(roots) + ActionOnly(Elems(nodes), edges)
  {
    var attached := edges;
    if schemaVersion < 2 {
      var actionOnly := ActionOnly(Elems(nodes), edges);
      var roots := Roots(nodes, actionOnly);
      attached := FromMonitor(roots) + actionOnly;
      if nodes != [] { UpgradeIffUpgradable(nodes, actionOnly, roots); }
    }
    var ok := ValidateActionGraph(nodes, attached);
    result := if ok then Some(attached) else None;
  }

  // ---- why the upgrade works ---------------------------------------------------------

  lemma {:induction false} ArcsOfConcat(a: seq<Link>, b: seq<Link>)
    ensures LinkArcs(a + b) == LinkArcs(a) + LinkArcs(b)
  {
    if b == [] {
      assert a + b == a;
    } else {
      var n := |b| - 1;
      ArcsOfConcat(a, b[..n]);
      assert (a + b)[..|a| + n] == a + b[..n];
    }
  }

  lemma MonitorArcs(roots: seq<Key>, x: Key, y: Key)
    ensures (x, y) in LinkArcs(FromMonitor(roots)) <==> x == MONITOR && y in roots
  {
    var links := FromMonitor(roots);
    if (x, y) in LinkArcs(links) {
      var i := ArcIsLink(links, x, y);
    }
    if x == MONITOR && y in roots {
      var i :| 0 <= i < |roots| && roots[i] == y;
      LinkIsArc(links, i);
    }
  }

  lemma EnteredIsArc(edges: seq<Link>, k: Key)
    ensures Entered(edges, k) <==> exists u :: (u, k) in LinkArcs(edges)
  {
    if i :| 0 <= i < |edges| && edges[i].target == k { LinkIsArc(edges, i); }
    if u :| (u, k) in LinkArcs(edges) { var i := ArcIsLink(edges, u, k); }
  }

  /** The arcs of the attached graph: the monitor's into the roots, and those between action nodes. */
  lemma AttachedArcs(actionOnly: seq<Link>, roots: seq<Key>)
    ensures forall x, y :: (x, y) in LinkArcs(FromMonitor(roots) + actionOnly) <==>
                             (x == MONITOR && y in roots) || (x, y) in LinkArcs(actionOnly)
  {
    ArcsOfConcat(FromMonitor(roots), actionOnly);
    forall x, y
      ensures (x, y) in LinkArcs(FromMonitor(roots)) <==> x == MONITOR && y in roots
    {
      MonitorArcs(roots, x, y);
    }
  }

  /** Arcs out of a key that nothing enters cannot close a cycle. */
  lemma UnenteredKeepsAcyclic(arcs: Arcs, more: Arcs, m: Key)
    requires !Cyclic(arcs)
    requires forall x, y :: (x, y) in more ==> y != m && (x == m || (x, y) in arcs)
    ensures !Cyclic(more)
  {
    if p :| IsWalk(more, p) && |p| >= 2 && p[0] == p[|p| - 1] {
      NeverThrough(more, p, m);
      assert false;
    }
  }

  lemma NeverThrough(more: Arcs, p: seq<Key>, m: Key)
    requires IsWalk(more, p) && |p| >= 2 && p[0] == p[|p| - 1]
    requires forall x, y :: (x, y) in more ==> y != m
    ensures forall i :: 0 <= i < |p| ==> p[i] != m
  {
    forall i | 0 <= i < |p|
      ensures p[i] != m
    {
      if i == 0 { assert (p[|p| - 2], p[|p| - 1]) in more; } else { assert (p[i - 1], p[i]) in more; }
    }
  }

  ghost predicate RootsOf(nodes: seq<Key>, actionOnly: seq<Link>, roots: seq<Key>) {
    && EndsKnown(Elems(nodes), actionOnly) && Distinct(roots)
    && forall k :: k in roots <==> k in nodes && !Entered(actionOnly, k)
  }

  /** Every node of a finite acyclic graph lies below a root, so the monitor reaches it. */
  lemma MonitorReachesAll(nodes: seq<Key>, actionOnly: seq<Link>, roots: seq<Key>, k: Key) returns (root: Key)
    requires RootsOf(nodes, actionOnly, roots) && k in nodes
    requires !Cyclic(Ordering(Elems(nodes), actionOnly))
    requires forall x :: SelfLooped(actionOnly, x) ==> EnteredByOther(actionOnly, x)
    ensures root in roots && Reaches(LinkArcs(FromMonitor(roots) + actionOnly), MONITOR, k)
  {
    root := RootAbove(Ordering(Elems(nodes), actionOnly), Elems(nodes), k);
    RootIsUnentered(nodes, actionOnly, root);
    MonitorReachesBelow(nodes, actionOnly, roots, root, k);
  }

  lemma MonitorReachesBelow(nodes: seq<Key>, actionOnly: seq<Link>, roots: seq<Key>, root: Key, k: Key)
    requires root in roots && Reaches(Ordering(Elems(nodes), actionOnly), root, k)
    ensures Reaches(LinkArcs(FromMonitor(roots) + actionOnly), MONITOR, k)
  {
    var arcs := LinkArcs(FromMonitor(roots) + actionOnly);
    OrderingMembers(Elems(nodes), actionOnly);
    AttachedArcs(actionOnly, roots);
    ReachesSelf(arcs, MONITOR);
    ReachesArc(arcs, MONITOR, MONITOR, root);
    ArcsSubset(Ordering(Elems(nodes), actionOnly), arcs);
    ReachesMono(Ordering(Elems(nodes), actionOnly), arcs, root, k);
    ReachesTrans(arcs, MONITOR, root, k);
  }

  lemma RootIsUnentered(nodes: seq<Key>, actionOnly: seq<Link>, root: Key)
    requires EndsKnown(Elems(nodes), actionOnly) && root in nodes
    requires forall y :: y in Elems(nodes) ==> (y, root) !in Ordering(Elems(nodes), actionOnly)
    requires SelfLooped(actionOnly, root) ==> EnteredByOther(actionOnly, root)
    ensures !Entered(actionOnly, root)
  {
    OrderingMembers(Elems(nodes), actionOnly);
    EnteredIsArc(actionOnly, root);
    forall u | (u, root) in LinkArcs(actionOnly)
      ensures u == root
    {
      var i := ArcIsLink(actionOnly, u, root);
    }
  }

  lemma AttachedOrdering(nodes: seq<Key>, actionOnly: seq<Link>, roots: seq<Key>)
    requires RootsOf(nodes, actionOnly, roots) && MONITOR !in nodes
    ensures forall x, y :: (x, y) in Ordering(Elems([MONITOR] + nodes), FromMonitor(roots) + actionOnly) <==>
                             (x == MONITOR && y in roots) || (x, y) in Ordering(Elems(nodes), actionOnly)
  {
    OrderingMembers(Elems(nodes), actionOnly);
    OrderingMembers(Elems([MONITOR] + nodes), FromMonitor(roots) + actionOnly);
    AttachedArcs(actionOnly, roots);
    forall x, y | (x, y) in LinkArcs(actionOnly)
      ensures x in nodes && y in nodes
    {
      var i := ArcIsLink(actionOnly, x, y);
    }
  }

  lemma CyclicTogether(arcs: Arcs, roots: seq<Key>, more: Arcs)
    requires forall x, y :: (x, y) in more <==> (x == MONITOR && y in roots) || (x, y) in arcs
    requires MONITOR !in roots && forall x, y :: (x, y) in arcs ==> y != MONITOR
    ensures Cyclic(arcs) <==> Cyclic(more)
  {
    ArcsSubset(arcs, more);
    if Cyclic(arcs) { CyclicMono(arcs, more); } else { UnenteredKeepsAcyclic(arcs, more, MONITOR); }
  }

  lemma AttachedIsAcyclic(nodes: seq<Key>, actionOnly: seq<Link>, roots: seq<Key>)
    requires RootsOf(nodes, actionOnly, roots) && MONITOR !in nodes
    ensures Cyclic(Ordering(Elems(nodes), actionOnly)) <==>
            Cyclic(Ordering(Elems([MONITOR] + nodes), FromMonitor(roots) + actionOnly))
  {
    AttachedOrdering(nodes, actionOnly, roots);
    OrderingMembers(Elems(nodes), actionOnly);
    CyclicTogether(Ordering(Elems(nodes), actionOnly), roots,
                   Ordering(Elems([MONITOR] + nodes), FromMonitor(roots) + actionOnly));
  }

  /** A self-looped node is no root; if the monitor reaches it, another node leads into it. */
  lemma ReachedSelfLoopIsEntered(nodes: seq<Key>, actionOnly: seq<Link>, roots: seq<Key>, k: Key)
    requires RootsOf(nodes, actionOnly, roots) && MONITOR !in nodes
    requires SelfLooped(actionOnly, k) && Reaches(LinkArcs(FromMonitor(roots) + actionOnly), MONITOR, k)
    ensures EnteredByOther(actionOnly, k)
  {
    var edges := FromMonitor(roots) + actionOnly;
    AttachedArcs(actionOnly, roots);
    EnteredIsArc(actionOnly, k);
    var i := ArcIsLink(actionOnly, k, k);
    if !EnteredByOther(actionOnly, k) {
      var others := {MONITOR} + (Elems(nodes) - {k});
      forall x, y | (x, y) in LinkArcs(edges) && x in others
        ensures y in others
      {
        if (x, y) in LinkArcs(actionOnly) { var j := ArcIsLink(actionOnly, x, y); }
      }
      ClosedHoldsReachable(LinkArcs(edges), others, MONITOR, k);
      assert false;
    }
  }

  lemma AttachedShape(nodes: seq<Key>, actionOnly: seq<Link>, roots: seq<Key>)
    requires RootsOf(nodes, actionOnly, roots) && MONITOR !in nodes
    ensures var edges := FromMonitor(roots) + actionOnly;
            && EndsKnown({MONITOR} + Elems(nodes), edges) && !Entered(edges, MONITOR)
            && (Distinct(edges) <==> Distinct(actionOnly))
            && (roots != [] ==> Left(edges, MONITOR))
  {
    AttachedEnds(nodes, actionOnly, roots);
    AttachedDistinct(nodes, actionOnly, roots);
    if roots != [] { assert (FromMonitor(roots) + actionOnly)[0].source == MONITOR; }
  }

  lemma AttachedEnds(nodes: seq<Key>, actionOnly: seq<Link>, roots: seq<Key>)
    requires RootsOf(nodes, actionOnly, roots) && MONITOR !in nodes
    ensures EndsKnown({MONITOR} + Elems(nodes), FromMonitor(roots) + actionOnly)
    ensures !Entered(FromMonitor(roots) + actionOnly, MONITOR)
  {
    var edges := FromMonitor(roots) + actionOnly;
    forall i | 0 <= i < |edges|
      ensures edges[i].source in {MONITOR} + Elems(nodes) && edges[i].target in Elems(nodes)
    {
      if i < |roots| {
        assert edges[i] == Link(MONITOR, roots[i]) && roots[i] in roots;
      } else {
        assert edges[i] == actionOnly[i - |roots|];
      }
    }
  }

  lemma AttachedDistinct(nodes: seq<Key>, actionOnly: seq<Link>, roots: seq<Key>)
    requires RootsOf(nodes, actionOnly, roots) && MONITOR !in nodes
    ensures Distinct(FromMonitor(roots) + actionOnly) <==> Distinct(actionOnly)
  {
    var links := FromMonitor(roots);
    if Distinct(actionOnly) {
      MonitorLinksDiffer(nodes, actionOnly, roots);
      DistinctConcat(links, actionOnly);
    }
    if Distinct(links + actionOnly) {
      assert (links + actionOnly)[|links|..] == actionOnly;
      DistinctSuffix(links + actionOnly, |links|);
    }
  }

  lemma MonitorLinksDiffer(nodes: seq<Key>, actionOnly: seq<Link>, roots: seq<Key>)
    requires RootsOf(nodes, actionOnly, roots) && MONITOR !in nodes
    ensures Distinct(FromMonitor(roots))
    ensures forall i :: 0 <= i < |actionOnly| ==> actionOnly[i] !in FromMonitor(roots)
  {
    forall i | 0 <= i < |actionOnly|
      ensures actionOnly[i] !in FromMonitor(roots)
    {
      assert actionOnly[i].source in nodes;
    }
  }

  lemma DistinctSuffix(s: seq<Link>, n: nat)
    requires n <= |s| && Distinct(s)
    ensures Distinct(s[n..])
  {
    assert forall i :: 0 <= i < |s| - n ==> s[n..][i] == s[n + i];
  }

  /** The monitor attached to all roots passes validation exactly on the upgradable graphs. */
  lemma UpgradeIffUpgradable(nodes: seq<Key>, actionOnly: seq<Link>, roots: seq<Key>)
    requires nodes != [] && RootsOf(nodes, actionOnly, roots)
    ensures ActionGraphOk(nodes, FromMonitor(roots) + actionOnly) <==>
              && Distinct(nodes) && MONITOR !in nodes && Distinct(actionOnly)
              && !Cyclic(Ordering(Elems(nodes), actionOnly))
              && forall k :: SelfLooped(actionOnly, k) ==> EnteredByOther(actionOnly, k)
  {
    var edges := FromMonitor(roots) + actionOnly;
    DistinctWithMonitor(nodes);
    if Distinct([MONITOR] + nodes) {
      AttachedShape(nodes, actionOnly, roots);
      AttachedIsAcyclic(nodes, actionOnly, roots);
      if ActionGraphOk(nodes, edges) {
        forall k | SelfLooped(actionOnly, k)
          ensures EnteredByOther(actionOnly, k)
        {
          var i := ArcIsLink(actionOnly, k, k);
          ReachedSelfLoopIsEntered(nodes, actionOnly, roots, k);
        }
      }
      if Distinct(actionOnly) && !Cyclic(Ordering(Elems(nodes), actionOnly)) &&
         forall k :: SelfLooped(actionOnly, k) ==> EnteredByOther(actionOnly, k) {
        forall k | k in nodes
          ensures Reaches(LinkArcs(edges), MONITOR, k)
        {
          var root := MonitorReachesAll(nodes, actionOnly, roots, k);
        }
        assert nodes[0] in nodes;
        var root := MonitorReachesAll(nodes, actionOnly, roots, nodes[0]);
        assert ActionGraphOk(nodes, edges);
      }
    }
  }

  lemma DistinctWithMonitor(nodes: seq<Key>)
    ensures Distinct([MONITOR] + nodes) <==> Distinct(nodes) && MONITOR !in nodes
  {
    var all := [MONITOR] + nodes;
    assert forall i :: 0 <= i < |nodes| ==> all[i + 1] == nodes[i];
    if Distinct(all) {
      forall i | 0 <= i < |nodes|
        ensures nodes[i] != MONITOR
      {
        assert all[0] != all[i + 1];
      }
    }
    if Distinct(nodes) && MONITOR !in nodes { DistinctConcat([MONITOR], nodes); }
  }

  // ---- running a self-contained trigger ------------------------------------------------

  /**
   The nodes a self-contained trigger deploys: its monitor, marked as such, and its actions, none of them a
   trigger.
   */
  function DeployedNodes(nodes: seq<Key>): (r: seq<NodeSpec>)
    ensures KeysOf(r) == [MONITOR] + nodes
    ensures forall k :: IsTrigger(r, k) <==> k == MONITOR
  {
    var r := [NodeSpec(MONITOR, true, true)]
      + seq(|nodes|, i requires 0 <= i < |nodes| => NodeSpec(nodes[i], false, false));
    assert r[0].key == MONITOR;
    r
  }

  function Deployed(nodes: seq<Key>, edges: seq<Link>, kind: TriggerType, works: Key -> bool): Run {
    Run(DeployedNodes(nodes), edges, kind, MONITOR, works)
  }

  /** A run of the deployment: a trial, or one that a change started. */
  ghost predicate Deploys(run: Run, nodes: seq<Key>, edges: seq<Link>, branch: set<Key>, order: seq<Key>) {
    nodes != [] && ActionGraphOk(nodes, edges) && run == Deployed(nodes, edges, run.kind, run.works)
    && run.kind != OtherTrigger && IsOrder(run, order) && IsBranch(run, branch)
  }

  ghost predicate NoLoopedAction(nodes: seq<Key>, edges: seq<Link>) {
    forall k :: k in nodes ==> !SelfLooped(edges, k)
  }

  /** If the run is recorded as succeeded, every action was executed and succeeded. */
  ghost predicate SuccessMeansAllDone(run: Run, nodes: seq<Key>, branch: set<Key>, order: seq<Key>) {
    StatusOf(run, branch, order) == RunSucceeded ==>
      forall k :: k in nodes ==> k in Results(run, branch, order) && Results(run, branch, order)[k] == Succeeded
  }

  /** A validated trigger graph can be ordered, and its monitor is an entry point. */
  lemma DeploymentIsOrdered(nodes: seq<Key>, edges: seq<Link>, kind: TriggerType, works: Key -> bool)
    requires ActionGraphOk(nodes, edges)
    ensures var run := Deployed(nodes, edges, kind, works);
            && Distinct(KeysOf(run.nodes)) && !Cyclic(Ordering(Elems(KeysOf(run.nodes)), run.edges))
            && EndsKnown(Elems(KeysOf(run.nodes)), edges) && TriggersUnentered(run.nodes, edges)
  {
    assert Elems([MONITOR] + nodes) == {MONITOR} + Elems(nodes);
    forall i | 0 <= i < |DeployedNodes(nodes)| && DeployedNodes(nodes)[i].isTrigger
      ensures DeployedNodes(nodes)[i].key == MONITOR
    {
      assert IsTrigger(DeployedNodes(nodes), DeployedNodes(nodes)[i].key);
    }
  }

  /** All actions are in the branch of the monitor, so only an action that feeds itself can break it. */
  lemma DeploymentIsClosed(nodes: seq<Key>, edges: seq<Link>, works: Key -> bool)
    requires ActionGraphOk(nodes, edges)
    ensures var run := Deployed(nodes, edges, DataChange, works);
            && Closed(run) && (NoLoopInBranch(run) <==> NoLoopedAction(nodes, edges))
            && forall k :: k in nodes ==> InBranch(run, k)
  {
    var run := Deployed(nodes, edges, DataChange, works);
    assert MONITOR.name[0] == 'm';
    ReachesSelf(LinkArcs(edges), MONITOR);
    forall u, k | (u, k) in LinkArcs(edges)
      ensures InBranch(run, u) && k in nodes
    {
      var j := ArcIsLink(edges, u, k);
      assert edges[j].source in {MONITOR} + Elems(nodes) && edges[j].target in {MONITOR} + Elems(nodes);
      assert k != MONITOR by { EnteredIsArc(edges, MONITOR); }
    }
  }

  /**
   A change run of a self-contained trigger that is recorded as succeeded, which
   advances its watermark, has executed every action, whatever the actions do,
   exactly when no action feeds itself.
   */
  lemma DeployedChangeRunsAllIff(run: Run, nodes: seq<Key>, edges: seq<Link>, branch: set<Key>, order: seq<Key>)
    requires Deploys(run, nodes, edges, branch, order) && run.kind == DataChange
    ensures (forall works: Key -> bool :: SuccessMeansAllDone(run.(works := works), nodes, branch, order))
            <==> NoLoopedAction(nodes, edges)
  {
    DeploymentIsOrdered(nodes, edges, run.kind, run.works);
    DeploymentIsClosed(nodes, edges, run.works);
    WatermarkIsEarnedIffClosed(run, branch, order);
    OrderFacts(run, order);
    if NoLoopedAction(nodes, edges) {
      forall works: Key -> bool
        ensures SuccessMeansAllDone(run.(works := works), nodes, branch, order)
      {
        assert SuccessMeansBranchDone(run.(works := works), branch, order);
        forall k | k in nodes && StatusOf(run.(works := works), branch, order) == RunSucceeded
          ensures k in Results(run.(works := works), branch, order)
                  && Results(run.(works := works), branch, order)[k] == Succeeded
        {
          assert InBranch(run, k) && k in Elems(order);
          var i :| 0 <= i < |order| && order[i] == k;
          assert InBranch(run.(works := works), order[i]);
        }
      }
    } else {
      var k :| k in nodes && SelfLooped(edges, k);
      LoopedActionIsNotRun(run, run.(works := _ => true), nodes, edges, branch, order, k);
    }
  }

  /** In a change run an action that feeds itself is skipped, and the run succeeds without it. */
  lemma LoopedActionIsNotRun(run: Run, r: Run, nodes: seq<Key>, edges: seq<Link>, branch: set<Key>, order: seq<Key>,
                             k: Key)
    requires Deploys(run, nodes, edges, branch, order) && run.kind == DataChange && k in nodes && SelfLooped(edges, k)
    requires r == run.(works := r.works) && forall x :: r.works(x)
    ensures StatusOf(r, branch, order) == RunSucceeded
    ensures k in Results(r, branch, order) && Results(r, branch, order)[k] == Skipped
  {
    DeploymentIsOrdered(nodes, edges, run.kind, run.works);
    DeploymentIsClosed(nodes, edges, run.works);
    BranchHasNoOtherTrigger(run, k);
    assert !FedFromBranch(run, k, k) && !SealedAt(run, k);
    UnsealedBranchIsNotEarned(run, r, branch, order, k);
  }

  /** A trial run skips an action without a failure, and is then partial, exactly if some action feeds itself. */
  lemma DeployedTrialSkipsOnlyByFailureIff(run: Run, nodes: seq<Key>, edges: seq<Link>, branch: set<Key>,
                                           order: seq<Key>)
    requires Deploys(run, nodes, edges, branch, order) && run.kind == TriggerTest
    ensures (forall works: Key -> bool :: SkipsOnlyByFailure(run.(works := works), branch, order))
            <==> NoLoopedAction(nodes, edges)
    ensures StatusOf(run, branch, order) == RunSucceeded ==> SuccessMeansAllDone(run, nodes, branch, order)
  {
    DeploymentIsOrdered(nodes, edges, run.kind, run.works);
    SkipsOnlyByFailureIff(run, branch, order);
    DeadActionsAreLooped(run, nodes, edges);
    OrderFacts(run, order);
    TrialSuccessIsComplete(run, nodes, branch, order);
  }

  lemma DeadActionsAreLooped(run: Run, nodes: seq<Key>, edges: seq<Link>)
    requires ActionGraphOk(nodes, edges) && run == Deployed(nodes, edges, TriggerTest, run.works)
    ensures NoneDead(run) <==> NoLoopedAction(nodes, edges)
  {
    forall u, k | DeadWait(run, u, k)
      ensures k in nodes && SelfLooped(edges, k)
    {
      var j := ArcIsLink(edges, u, k);
      assert edges[j].source in {MONITOR} + Elems(nodes) && edges[j].target in {MONITOR} + Elems(nodes);
    }
    forall k | k in nodes && SelfLooped(edges, k)
      ensures Dead(run, k)
    {
      assert k != MONITOR by { EnteredIsArc(edges, MONITOR); }
      assert DeadWait(run, k, k);
    }
  }

  lemma TrialSuccessIsComplete(run: Run, nodes: seq<Key>, branch: set<Key>, order: seq<Key>)
    requires run.kind == TriggerTest && Distinct(KeysOf(run.nodes)) && IsOrder(run, order)
             && KeysOf(run.nodes) == [MONITOR] + nodes
    ensures SuccessMeansAllDone(run, nodes, branch, order)
  {
    var results := Results(run, branch, order);
    OrderFacts(run, order);
    forall i | 0 <= i < |order|
      ensures order[i] in results
    {
      StatusIsFate(run, branch, order, i);
    }
    AllSucceededIff(run, order, results);
  }

  // ---- an action that feeds itself --------------------------------------------------------

  /** Validation accepts an action that feeds itself, as long as the monitor feeds it too. */
  lemma LoopedGraphIsAccepted(a: Key)
    requires a != MONITOR
    ensures ActionGraphOk([a], [Link(MONITOR, a), Link(a, a)]) && SelfLooped([Link(MONITOR, a), Link(a, a)], a)
    ensures Ordering(Elems([MONITOR, a]), [Link(MONITOR, a), Link(a, a)]) == {(MONITOR, a)}
  {
    var edges := [Link(MONITOR, a), Link(a, a)];
    assert edges[..1] == [Link(MONITOR, a)] && edges[..1][..0] == [];
    assert LinkArcs(edges[..1]) == {(MONITOR, a)};
    assert LinkArcs(edges) == LinkArcs(edges[..1]) + {(a, a)};
    var keys := Elems([MONITOR, a]);
    assert Ordering(keys, edges[..1]) == {(MONITOR, a)};
    MonitorFirst(a);
    assert [MONITOR] + [a] == [MONITOR, a];
    ReachesSelf(LinkArcs(edges), MONITOR);
    ReachesArc(LinkArcs(edges), MONITOR, MONITOR, a);
    assert edges[0].source == MONITOR;
  }

  lemma MonitorFirst(a: Key)
    requires a != MONITOR
    ensures SourcesFirst({(MONITOR, a)}, [MONITOR, a]) && !Cyclic({(MONITOR, a)})
  {
    var arcs, order := {(MONITOR, a)}, [MONITOR, a];
    assert order[..1] == [MONITOR] && [MONITOR][..0] == [];
    assert SourcesFirst(arcs, [MONITOR]);
    OrderedIsAcyclic(arcs, order);
    assert Induced(arcs, Elems(order)) == arcs;
  }

  /**
   The change run of that trigger succeeds, and its trial run is partial, though nothing fails and the
   action is never run.
   */
  lemma LoopedActionRuns(a: Key, works: Key -> bool)
    requires a != MONITOR && forall x :: works(x)
    ensures var edges, order := [Link(MONITOR, a), Link(a, a)], [MONITOR, a];
            var change, trial := Deployed([a], edges, DataChange, works), Deployed([a], edges, TriggerTest, works);
            && ActionGraphOk([a], edges) && IsOrder(change, order) && IsOrder(trial, order)
            && IsBranch(change, {MONITOR, a})
            && StatusOf(change, {MONITOR, a}, order) == RunSucceeded
            && a in Results(change, {MONITOR, a}, order) && Results(change, {MONITOR, a}, order)[a] == Skipped
            && StatusOf(trial, {}, order) == RunPartial && Count(order, Results(trial, {}, order), Failed) == 0
  {
    var edges, order := [Link(MONITOR, a), Link(a, a)], [MONITOR, a];
    var change, trial := Deployed([a], edges, DataChange, works), Deployed([a], edges, TriggerTest, works);
    LoopedGraphIsAccepted(a);
    MonitorFirst(a);
    assert [MONITOR] + [a] == order;
    LoopedBranch(a, change);
    LoopedActionIsNotRun(change, change, [a], edges, {MONITOR, a}, order, a);
    LoopedTrialIsPartial(trial, [a], edges, order, a);
  }

  lemma LoopedBranch(a: Key, run: Run)
    requires a != MONITOR && run.selected == MONITOR && run.edges == [Link(MONITOR, a), Link(a, a)]
    ensures IsBranch(run, {MONITOR, a})
  {
    LoopedGraphIsAccepted(a);
    assert MONITOR.name[0] == 'm';
    ReachesSelf(LinkArcs(run.edges), MONITOR);
    forall x | Reaches(LinkArcs(run.edges), MONITOR, x)
      ensures x in {MONITOR, a}
    {
      if x != MONITOR {
        var u := ReachesLastArc(LinkArcs(run.edges), MONITOR, x);
        var j := ArcIsLink(run.edges, u, x);
      }
    }
  }

  lemma LoopedTrialIsPartial(run: Run, nodes: seq<Key>, edges: seq<Link>, order: seq<Key>, k: Key)
    requires nodes != [] && ActionGraphOk(nodes, edges) && run == Deployed(nodes, edges, TriggerTest, run.works)
    requires IsOrder(run, order) && k in nodes && SelfLooped(edges, k) && forall x :: run.works(x)
    ensures StatusOf(run, {}, order) == RunPartial && Count(order, Results(run, {}, order), Failed) == 0
  {
    DeploymentIsOrdered(nodes, edges, run.kind, run.works);
    assert k != MONITOR by { EnteredIsArc(edges, MONITOR); }
    assert DeadWait(run, k, k) && Dead(run, k);
    DeadNodeIsSkippedWithoutFailure(run, run, {}, order, k);
  }
}

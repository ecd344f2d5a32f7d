/**
 Running one workflow version of the data platform: the checks a graph passes
 before release, the node-by-node execution with skipping, and the run status
 that later decides whether a change trigger's watermark advances.
 */
module WorkflowRun {
  import opened Basics
  import opened Graphs
  import opened PlatformGraph

  /** `standalone` abbreviates the configuration test for self-contained change triggers. */
  datatype NodeSpec = NodeSpec(key: Key, isTrigger: bool, standalone: bool)

  datatype TriggerType = DataChange | TriggerTest | OtherTrigger

  datatype Status = Succeeded | Failed | Skipped

  datatype RunStatus = RunSucceeded | RunPartial | RunFailed

  function KeysOf(nodes: seq<NodeSpec>): (r: seq<Key>)
    ensures |r| == |nodes| && forall i :: 0 <= i < |nodes| ==> r[i] == nodes[i].key
  {
    seq(|nodes|, i requires 0 <= i < |nodes| => nodes[i].key)
  }

  predicate IsTrigger(nodes: seq<NodeSpec>, key: Key) {
    exists i :: 0 <= i < |nodes| && nodes[i].key == key && nodes[i].isTrigger
  }

  predicate IsStandalone(nodes: seq<NodeSpec>, key: Key) {
    exists i :: 0 <= i < |nodes| && nodes[i].key == key && nodes[i].isTrigger && nodes[i].standalone
  }

  // ---- release checks ----------------------------------------------------------

  predicate EndsKnown(keys: set<Key>, edges: seq<Link>) {
    forall i :: 0 <= i < |edges| ==> edges[i].source in keys && edges[i].target in keys
  }

  predicate NoSelfLoop(edges: seq<Link>) {
    forall i :: 0 <= i < |edges| ==> edges[i].source != edges[i].target
  }

  predicate Touched(edges: seq<Link>, key: Key) {
    exists i :: 0 <= i < |edges| && (edges[i].source == key || edges[i].target == key)
  }

  ghost predicate ReleasableGraph(nodes: seq<NodeSpec>, edges: seq<Link>) {
    && Distinct(KeysOf(nodes))
    && EndsKnown(Elems(KeysOf(nodes)), edges) && NoSelfLoop(edges) && Distinct(edges)
    && (|Elems(KeysOf(nodes))| > 1 ==> forall i :: 0 <= i < |nodes| ==>
          Touched(edges, nodes[i].key) || IsStandalone(nodes, nodes[i].key))
    && !Cyclic(LinkArcs(edges))
  }

  method ValidateWorkflowGraph(nodes: seq<NodeSpec>, edges: seq<Link>) returns (ok: bool)
    ensures ok <==> ReleasableGraph(nodes, edges)
  {
    var keys := KeysOf(nodes);
    DistinctIffCardinality(edges);
    if !EndsKnown(Elems(keys), edges) || !NoSelfLoop(edges) || |edges| != |Elems(edges)| { return false; }
    if |Elems(keys)| > 1 {
      if exists i :: 0 <= i < |nodes| && !Touched(edges, nodes[i].key) && !IsStandalone(nodes, nodes[i].key) {
        return false;
      }
    }
    var order := TopologicalOrder(keys, edges);
    OrderingIsAll(Elems(keys), edges);
    ok := order.Some?;
  }

  lemma {:induction false} OrderingIsAll(keys: set<Key>, edges: seq<Link>)
    requires EndsKnown(keys, edges) && NoSelfLoop(edges)
    ensures Ordering(keys, edges) == LinkArcs(edges)
  {
    if edges != [] { OrderingIsAll(keys, edges[..|edges| - 1]); }
  }

  predicate Entered(edges: seq<Link>, key: Key) {
    exists i :: 0 <= i < |edges| && edges[i].target == key
  }

  predicate Left(edges: seq<Link>, key: Key) {
    exists i :: 0 <= i < |edges| && edges[i].source == key
  }

  /** Change triggers are entry points, connected exactly when they are not self-contained. */
  predicate TriggersAreEntries(nodes: seq<NodeSpec>, edges: seq<Link>) {
    forall i :: 0 <= i < |nodes| && nodes[i].isTrigger ==>
      && !Entered(edges, nodes[i].key)
      && (Left(edges, nodes[i].key) <==> !IsStandalone(nodes, nodes[i].key))
  }

  /** The check of change triggers, which follows that of the graph. */
  method ValidateChangeTriggers(nodes: seq<NodeSpec>, edges: seq<Link>) returns (ok: bool)
    requires Distinct(KeysOf(nodes))
    ensures ok <==> TriggersAreEntries(nodes, edges)
  {
    var incoming, outgoing := CountEnds(edges);
    ok := true;
    for i := 0 to |nodes|
      invariant ok <==> forall j :: 0 <= j < i && nodes[j].isTrigger ==>
                          !Entered(edges, nodes[j].key) && (Left(edges, nodes[j].key) <==> !nodes[j].standalone)
    {
      var key := nodes[i].key;
      var entered, left := key in incoming && incoming[key] > 0, key in outgoing && outgoing[key] > 0;
      if nodes[i].isTrigger {
        if nodes[i].standalone && (entered || left) { ok := false; }
        if !nodes[i].standalone && (entered || !left) { ok := false; }
      }
    }
    forall i | 0 <= i < |nodes| && nodes[i].isTrigger
      ensures IsStandalone(nodes, nodes[i].key) <==> nodes[i].standalone
    {
      StandaloneByKey(nodes, i);
    }
  }

  lemma StandaloneByKey(nodes: seq<NodeSpec>, i: nat)
    requires Distinct(KeysOf(nodes)) && i < |nodes| && nodes[i].isTrigger
    ensures IsStandalone(nodes, nodes[i].key) <==> nodes[i].standalone
  {
    if j :| 0 <= j < |nodes| && nodes[j].key == nodes[i].key && nodes[j].isTrigger && nodes[j].standalone {
      assert KeysOf(nodes)[i] == KeysOf(nodes)[j];
      assert i == j;
    }
  }

  method CountEnds(edges: seq<Link>) returns (incoming: map<Key, nat>, outgoing: map<Key, nat>)
    ensures forall k :: (k in incoming && incoming[k] > 0) <==> Entered(edges, k)
    ensures forall k :: (k in outgoing && outgoing[k] > 0) <==> Left(edges, k)
  {
    incoming, outgoing := map[], map[];
    for n := 0 to |edges|
      invariant forall k :: (k in incoming && incoming[k] > 0) <==> exists i :: 0 <= i < n && edges[i].target == k
      invariant forall k :: (k in outgoing && outgoing[k] > 0) <==> exists i :: 0 <= i < n && edges[i].source == k
    {
      var s, t := edges[n].source, edges[n].target;
      incoming := incoming[t := (if t in incoming then incoming[t] else 0) + 1];
      outgoing := outgoing[s := (if s in outgoing then outgoing[s] else 0) + 1];
    }
  }

  /** What a workflow graph satisfies once it has passed both checks. */
  ghost predicate Released(nodes: seq<NodeSpec>, edges: seq<Link>) {
    ReleasableGraph(nodes, edges) && TriggersAreEntries(nodes, edges)
  }

  // ---- one run -------------------------------------------------------------------

  /** Everything that fixes how a run goes: the graph, how it was started, and which nodes would work. */
  datatype Run = Run(nodes: seq<NodeSpec>, edges: seq<Link>, kind: TriggerType, selected: Key, works: Key -> bool)

  predicate IsUpstream(edges: seq<Link>, u: Key, key: Key) {
    exists i :: 0 <= i < |edges| && edges[i] == Link(u, key)
  }

  /** An upstream node that has not succeeded blocks, unless it is another change trigger of a change run. */
  predicate Blocks(run: Run, results: map<Key, Status>, u: Key) {
    && !(u in results && results[u] == Succeeded)
    && !(run.kind == DataChange && IsTrigger(run.nodes, u) && u != run.selected)
  }

  predicate Blocked(run: Run, results: map<Key, Status>, key: Key) {
    exists i :: 0 <= i < |run.edges| && run.edges[i].target == key && Blocks(run, results, run.edges[i].source)
  }

  /** The status a node gets, given those of the nodes before it and the selected branch. */
  function Verdict(run: Run, branch: set<Key>, results: map<Key, Status>, key: Key): Status {
    if run.kind == DataChange && key !in branch then Skipped
    else if run.kind == TriggerTest && IsTrigger(run.nodes, key) then Succeeded
    else if run.kind == DataChange && IsTrigger(run.nodes, key) && key != run.selected then Skipped
    else if Blocked(run, results, key) then Skipped
    else if run.works(key) then Succeeded else Failed
  }

  function Results(run: Run, branch: set<Key>, order: seq<Key>): map<Key, Status> {
    if order == [] then map[] else
      var n := |order| - 1;
      var before := Results(run, branch, order[..n]);
      before[order[n] := Verdict(run, branch, before, order[n])]
  }

  function Count(order: seq<Key>, results: map<Key, Status>, status: Status): nat {
    if order == [] then 0 else
      var n := |order| - 1;
      Count(order[..n], results, status) + if order[n] in results && results[order[n]] == status then 1 else 0
  }

  function FinalStatus(kind: TriggerType, succeeded: nat, failed: nat, skipped: nat): RunStatus {
    if failed > 0 then (if succeeded == 0 then RunFailed else RunPartial)
    else if skipped > 0 && kind != DataChange then RunPartial
    else RunSucceeded
  }

  /** `_upstream_map`: the sources of each target, in edge order. */
  method UpstreamMap(edges: seq<Link>) returns (upstream: map<Key, seq<Key>>)
    ensures forall u, k :: (k in upstream && u in upstream[k]) <==> IsUpstream(edges, u, k)
  {
    upstream := map[];
    var n := 0;
    while n < |edges|
      invariant 0 <= n <= |edges|
      invariant forall u, k :: (k in upstream && u in upstream[k]) <==> IsUpstream(edges[..n], u, k)
    {
      var s, t := edges[n].source, edges[n].target;
      assert edges[..n + 1] == edges[..n] + [edges[n]];
      forall u, k
        ensures IsUpstream(edges[..n + 1], u, k) <==> IsUpstream(edges[..n], u, k) || Link(u, k) == edges[n]
      {
        assert edges[..n + 1][n] == edges[n];
        assert forall i :: 0 <= i < n ==> edges[..n + 1][i] == edges[..n][i];
      }
      upstream := upstream[t := (if t in upstream then upstream[t] else []) + [s]];
      n := n + 1;
    }
    assert edges[..n] == edges;
  }

  /** What is on record once a run has finished. */
  datatype Report = Report(order: Option<seq<Key>>, branch: set<Key>, results: map<Key, Status>,
                           succeeded: nat, failed: nat, skipped: nat, status: RunStatus)

  ghost predicate Reports(run: Run, report: Report) {
    match report.order
    case None => report.status == RunFailed && report.failed >= 1
    case Some(order) =>
      && Distinct(KeysOf(run.nodes)) && IsOrder(run, order) && IsBranch(run, report.branch)
      && report.results == Results(run, report.branch, order)
      && report.succeeded == Count(order, report.results, Succeeded)
      && report.failed == Count(order, report.results, Failed)
      && report.skipped == Count(order, report.results, Skipped)
      && report.status == FinalStatus(run.kind, report.succeeded, report.failed, report.skipped)
  }

  /** The executor's loop over the ordered nodes, and the status it ends with. */
  method ExecuteRun(run: Run) returns (report: Report)
    ensures Reports(run, report)
    ensures report.order.Some?
            <==> Distinct(KeysOf(run.nodes)) && !Cyclic(Ordering(Elems(KeysOf(run.nodes)), run.edges))
  {
    var sorted := TopologicalOrder(KeysOf(run.nodes), run.edges);
    if sorted.None? { return Report(None, {}, map[], 0, 1, 0, RunFailed); }
    var order := sorted.value;
    var upstream := UpstreamMap(run.edges);
    var branch := {};
    if run.kind == DataChange { branch := ReachableNodes(run.selected, run.edges); }
    var results := RunNodes(run, branch, upstream, order);
    var succeeded, failed, skipped := Tally(order, results);
    report := Report(sorted, branch, results, succeeded, failed, skipped,
                     FinalStatus(run.kind, succeeded, failed, skipped));
  }

  method RunNodes(run: Run, branch: set<Key>, upstream: map<Key, seq<Key>>, order: seq<Key>)
    returns (results: map<Key, Status>)
    requires forall u, k :: (k in upstream && u in upstream[k]) <==> IsUpstream(run.edges, u, k)
    ensures results == Results(run, branch, order)
  {
    results := map[];
    var n := 0;
    while n < |order|
      invariant 0 <= n <= |order| && results == Results(run, branch, order[..n])
    {
      assert order[..n + 1][..n] == order[..n];
      var verdict := RunNode(run, branch, upstream, results, order[n]);
      results := results[order[n] := verdict];
      n := n + 1;
    }
    assert order[..n] == order;
  }

  /** One iteration: the tests that skip a node, in order, and its execution. */
  method RunNode(run: Run, branch: set<Key>, upstream: map<Key, seq<Key>>, results: map<Key, Status>, key: Key)
    returns (status: Status)
    requires forall u, k :: (k in upstream && u in upstream[k]) <==> IsUpstream(run.edges, u, k)
    ensures status == Verdict(run, branch, results, key)
  {
    if run.kind == DataChange && key !in branch { return Skipped; }
    if run.kind in {DataChange, TriggerTest} && IsTrigger(run.nodes, key) {
      if run.kind == TriggerTest { return Succeeded; }
      if key != run.selected { return Skipped; }
    }
    var waits := if key in upstream then upstream[key] else [];
    var blocked := false;
    var j := 0;
    while j < |waits|
      invariant 0 <= j <= |waits|
      invariant blocked <==> exists i :: 0 <= i < j && Blocks(run, results, waits[i])
    {
      if Blocks(run, results, waits[j]) { blocked := true; }
      j := j + 1;
    }
    BlockedIff(run, upstream, results, key, waits);
    if blocked { return Skipped; }
    status := if run.works(key) then Succeeded else Failed;
  }

  lemma BlockedIff(run: Run, upstream: map<Key, seq<Key>>, results: map<Key, Status>, key: Key, waits: seq<Key>)
    requires forall u, k :: (k in upstream && u in upstream[k]) <==> IsUpstream(run.edges, u, k)
    requires waits == if key in upstream then upstream[key] else []
    ensures Blocked(run, results, key) <==> exists i :: 0 <= i < |waits| && Blocks(run, results, waits[i])
  {
    if i :| 0 <= i < |waits| && Blocks(run, results, waits[i]) {
      assert waits[i] in waits && IsUpstream(run.edges, waits[i], key);
    }
    if i :| 0 <= i < |run.edges| && run.edges[i].target == key && Blocks(run, results, run.edges[i].source) {
      assert IsUpstream(run.edges, run.edges[i].source, key);
    }
  }

  method Tally(order: seq<Key>, results: map<Key, Status>) returns (succeeded: nat, failed: nat, skipped: nat)
    ensures succeeded == Count(order, results, Succeeded)
    ensures failed == Count(order, results, Failed)
    ensures skipped == Count(order, results, Skipped)
  {
    succeeded, failed, skipped := 0, 0, 0;
    var n := 0;
    while n < |order|
      invariant 0 <= n <= |order|
      invariant succeeded == Count(order[..n], results, Succeeded)
      invariant failed == Count(order[..n], results, Failed)
      invariant skipped == Count(order[..n], results, Skipped)
    {
      assert order[..n + 1][..n] == order[..n];
      if order[n] in results {
        match results[order[n]] {
          case Succeeded => succeeded := succeeded + 1;
          case Failed => failed := failed + 1;
          case Skipped => skipped := skipped + 1;
        }
      }
      n := n + 1;
    }
    assert order[..n] == order;
  }

  ghost predicate IsOrder(run: Run, order: seq<Key>) {
    && multiset(order) == multiset(KeysOf(run.nodes))
    && SourcesFirst(Ordering(Elems(KeysOf(run.nodes)), run.edges), order)
  }

  /** The branch a change run is restricted to: all that its trigger reaches. */
  ghost predicate IsBranch(run: Run, branch: set<Key>) {
    run.kind == DataChange ==>
      forall x :: x in branch <==> run.selected.name != "" && Reaches(LinkArcs(run.edges), run.selected, x)
  }

  // ---- the equations a finished run satisfies, free of the order -----------------

  lemma {:induction false} ResultsKeep(run: Run, branch: set<Key>, order: seq<Key>, m: nat)
    requires Distinct(order) && m <= |order|
    ensures Results(run, branch, order).Keys == Elems(order)
    ensures forall j :: 0 <= j < m ==> order[j] in Results(run, branch, order[..m])
    ensures forall j :: 0 <= j < m ==>
              Results(run, branch, order)[order[j]] == Results(run, branch, order[..m])[order[j]]
  {
    if order == [] {
    } else {
      var n := |order| - 1;
      assert order == order[..n] + [order[n]];
      if m <= n {
        ResultsKeep(run, branch, order[..n], m);
        assert order[..n][..m] == order[..m];
      } else {
        ResultsKeep(run, branch, order[..n], n);
        assert order[..m] == order;
      }
    }
  }

  /** Each node's status follows from the final statuses of the nodes, its own included if it feeds itself. */
  lemma StatusIsVerdict(run: Run, branch: set<Key>, order: seq<Key>, i: nat)
    requires Distinct(KeysOf(run.nodes)) && IsOrder(run, order) && i < |order|
    ensures var results := Results(run, branch, order);
            order[i] in results && results[order[i]] == Verdict(run, branch, results, order[i])
  {
    VerdictAtItsTurn(run, branch, order, i);
    var before, results := Results(run, branch, order[..i]), Results(run, branch, order);
    forall j | 0 <= j < |run.edges| && run.edges[j].target == order[i] && results[order[i]] != Succeeded
      ensures Blocks(run, before, run.edges[j].source) == Blocks(run, results, run.edges[j].source)
    {
      SourceAtItsTurn(run, branch, order, i, j);
    }
    if results[order[i]] == Succeeded {
      NothingBlocksAfterSuccess(run, branch, order, i);
    }
  }

  /** A node gets its verdict over the results of the nodes before it, and keeps it. */
  lemma VerdictAtItsTurn(run: Run, branch: set<Key>, order: seq<Key>, i: nat)
    requires Distinct(KeysOf(run.nodes)) && IsOrder(run, order) && i < |order|
    ensures var before, results := Results(run, branch, order[..i]), Results(run, branch, order);
            && before.Keys == Elems(order[..i]) && results.Keys == Elems(order)
            && results[order[i]] == Verdict(run, branch, before, order[i])
            && forall j :: 0 <= j < i ==> order[j] in before && before[order[j]] == results[order[j]]
  {
    OrderFacts(run, order);
    ResultsKeep(run, branch, order, i);
    ResultsKeep(run, branch, order, i + 1);
    ResultsKeep(run, branch, order[..i], i);
    assert order[..i + 1][..i] == order[..i];
    assert order[i] in Elems(order);
  }

  /** The source of an edge into node `i` is the node itself, unknown, or had its final result before. */
  lemma SourceAtItsTurn(run: Run, branch: set<Key>, order: seq<Key>, i: nat, j: nat)
    requires Distinct(KeysOf(run.nodes)) && IsOrder(run, order) && i < |order|
    requires j < |run.edges| && run.edges[j].target == order[i]
    ensures var u, before, results :=
            run.edges[j].source, Results(run, branch, order[..i]), Results(run, branch, order);
            && (u == order[i] ==> u !in before && u in results)
            && (u !in KeysOf(run.nodes) ==> u !in before && u !in results && !IsTrigger(run.nodes, u))
            && (u != order[i] && u in KeysOf(run.nodes) ==>
                  u in order[..i] && u in before && u in results && before[u] == results[u])
  {
    var u := run.edges[j].source;
    OrderFacts(run, order);
    VerdictAtItsTurn(run, branch, order, i);
    LinkIsArc(run.edges, j);
    OrderingMembers(Elems(KeysOf(run.nodes)), run.edges);
    assert order[i] in Elems(order) && order[i] !in order[..i];
    if u != order[i] && u in KeysOf(run.nodes) {
      var at := SourceBefore(Ordering(Elems(KeysOf(run.nodes)), run.edges), order, i, u);
      assert order[..i][at] == u;
    }
    if u !in KeysOf(run.nodes) {
      assert u !in Elems(order) && u !in order[..i];
      TriggerIsNode(run.nodes, u);
    }
  }

  lemma TriggerIsNode(nodes: seq<NodeSpec>, k: Key)
    ensures IsTrigger(nodes, k) ==> k in KeysOf(nodes)
  {
    if n :| 0 <= n < |nodes| && nodes[n].key == k && nodes[n].isTrigger {
      assert KeysOf(nodes)[n] == k;
    }
  }

  /** Nothing blocks a node that succeeded, unless it is a trigger of a trial run. */
  lemma NothingBlocksAfterSuccess(run: Run, branch: set<Key>, order: seq<Key>, i: nat)
    requires Distinct(KeysOf(run.nodes)) && IsOrder(run, order) && i < |order|
    requires order[i] in Results(run, branch, order) && Results(run, branch, order)[order[i]] == Succeeded
    ensures (run.kind == TriggerTest && IsTrigger(run.nodes, order[i]))
            || !Blocked(run, Results(run, branch, order), order[i])
  {
    VerdictAtItsTurn(run, branch, order, i);
    if !(run.kind == TriggerTest && IsTrigger(run.nodes, order[i])) {
      forall j | 0 <= j < |run.edges| && run.edges[j].target == order[i]
        ensures !Blocks(run, Results(run, branch, order), run.edges[j].source)
      {
        SourceAtItsTurn(run, branch, order, i, j);
        assert !Blocks(run, Results(run, branch, order[..i]), run.edges[j].source);
      }
    }
  }

  lemma {:induction false} SourceBefore(arcs: Arcs, order: seq<Key>, i: nat, u: Key) returns (j: nat)
    requires SourcesFirst(arcs, order) && i < |order| && (u, order[i]) in arcs
    ensures j < i && order[j] == u
  {
    var n := |order| - 1;
    if i == n {
      j :| 0 <= j < n && order[..n][j] == u;
    } else {
      j := SourceBefore(arcs, order[..n], i, u);
    }
  }

  lemma OrderFacts(run: Run, order: seq<Key>)
    requires Distinct(KeysOf(run.nodes)) && IsOrder(run, order)
    ensures Distinct(order) && Elems(order) == Elems(KeysOf(run.nodes)) && |order| == |run.nodes|
  {
    PermutationOfDistinct(order, KeysOf(run.nodes));
  }

  lemma PermutationOfDistinct(a: seq<Key>, b: seq<Key>)
    requires Distinct(b) && multiset(a) == multiset(b)
    ensures Distinct(a) && Elems(a) == Elems(b) && |a| == |b|
  {
    forall k
      ensures k in a <==> k in b
    {
      assert k in a <==> k in multiset(a);
      assert k in b <==> k in multiset(b);
    }
    assert Elems(a) == Elems(b);
    assert |a| == |multiset(a)| == |b|;
    DistinctIffCardinality(a);
    DistinctIffCardinality(b);
  }

  lemma {:induction false} CountAll(order: seq<Key>, results: map<Key, Status>)
    requires forall k :: k in order ==> k in results
    ensures Count(order, results, Succeeded) + Count(order, results, Failed) + Count(order, results, Skipped) == |order|
  {
    if order != [] {
      var n := |order| - 1;
      assert order[n] in order && order == order[..n] + [order[n]];
      CountAll(order[..n], results);
    }
  }

  lemma {:induction false} CountPositive(order: seq<Key>, results: map<Key, Status>, status: Status)
    ensures Count(order, results, status) > 0
            <==> exists i :: 0 <= i < |order| && order[i] in results && results[order[i]] == status
  {
    if order != [] {
      var n := |order| - 1;
      CountPositive(order[..n], results, status);
      if i :| 0 <= i < n && order[..n][i] in results && results[order[..n][i]] == status {
        assert order[i] == order[..n][i];
      }
      if i :| 0 <= i < |order| && order[i] in results && results[order[i]] == status {
        if i < n { assert order[..n][i] == order[i]; }
      }
    }
  }

  // ---- what the graph makes of each node ------------------------------------------

  ghost predicate InBranch(run: Run, k: Key) {
    run.selected.name != "" && Reaches(LinkArcs(run.edges), run.selected, k)
  }

  ghost predicate OtherTrigger(run: Run, k: Key) {
    IsTrigger(run.nodes, k) && k != run.selected
  }

  /** A change run executes only nodes of its branch, and of the change triggers only the selected one. */
  ghost predicate Admitted(run: Run, k: Key) {
    run.kind == DataChange ==> InBranch(run, k) && !OtherTrigger(run, k)
  }

  /**
   The arcs along which nodes wait: not into a change trigger of a trial run, nor out of another one of a
   change run.
   */
  ghost function Waits(run: Run): (r: Arcs)
    ensures forall u, k :: (u, k) in r <==>
                             && (u, k) in LinkArcs(run.edges) && !(run.kind == TriggerTest && IsTrigger(run.nodes, k))
                             && !(run.kind == DataChange && OtherTrigger(run, u))
  {
    set a | a in LinkArcs(run.edges) && !(run.kind == TriggerTest && IsTrigger(run.nodes, a.1))
            && !(run.kind == DataChange && OtherTrigger(run, a.0))
  }

  /**
   A trial run counts its change triggers as working; an unknown node, one that waits for itself, or one that is not
   admitted never works.
   */
  ghost predicate Good(run: Run, k: Key) {
    (run.kind == TriggerTest && IsTrigger(run.nodes, k))
    || (k in KeysOf(run.nodes) && (k, k) !in Waits(run) && Admitted(run, k) && run.works(k))
  }

  ghost predicate GoodAbove(run: Run, k: Key) {
    forall a :: Reaches(Waits(run), a, k) ==> Good(run, a)
  }

  /** All nodes this one waits for, and everything above them, work. */
  ghost predicate GoodUpstream(run: Run, k: Key) {
    forall u :: (u, k) in Waits(run) ==> GoodAbove(run, u)
  }

  lemma GoodAboveIff(run: Run, k: Key)
    ensures GoodAbove(run, k) <==> Good(run, k) && GoodUpstream(run, k)
  {
    var arcs := Waits(run);
    ReachesSelf(arcs, k);
    if GoodAbove(run, k) {
      forall u, a | (u, k) in arcs && Reaches(arcs, a, u)
        ensures Good(run, a)
      {
        ReachesArc(arcs, a, u, k);
      }
    }
    if Good(run, k) && GoodUpstream(run, k) {
      forall a | Reaches(arcs, a, k)
        ensures Good(run, a)
      {
        if a != k {
          var u := ReachesLastArc(arcs, a, k);
          assert GoodAbove(run, u);
        }
      }
    }
  }

  /** The status the graph alone gives a node: no order, no accumulated results. */
  ghost function Fate(run: Run, k: Key): Status {
    if GoodAbove(run, k) then Succeeded else if GoodUpstream(run, k) && Admitted(run, k) then Failed else Skipped
  }

  /**
   In every run a node succeeds exactly when it and all it waits for work, fails
   exactly when it is admitted and the first on its paths not to work, and is skipped
   exactly when it is not admitted or something it waits for, directly or not, does not work.
   */
  lemma {:induction false} StatusIsFate(run: Run, branch: set<Key>, order: seq<Key>, i: nat)
    requires Distinct(KeysOf(run.nodes)) && IsOrder(run, order) && IsBranch(run, branch) && i < |order|
    ensures order[i] in Results(run, branch, order) && Results(run, branch, order)[order[i]] == Fate(run, order[i])
    decreases i
  {
    forall j | 0 <= j < i
      ensures order[j] in Results(run, branch, order) && Results(run, branch, order)[order[j]] == Fate(run, order[j])
    {
      StatusIsFate(run, branch, order, j);
    }
    VerdictAtItsTurn(run, branch, order, i);
    VerdictIsFate(run, branch, order, i);
  }

  lemma VerdictIsFate(run: Run, branch: set<Key>, order: seq<Key>, i: nat)
    requires Distinct(KeysOf(run.nodes)) && IsOrder(run, order) && IsBranch(run, branch) && i < |order|
    requires var before := Results(run, branch, order[..i]);
             forall j :: 0 <= j < i ==> order[j] in before && before[order[j]] == Fate(run, order[j])
    ensures Verdict(run, branch, Results(run, branch, order[..i]), order[i]) == Fate(run, order[i])
  {
    var k, before := order[i], Results(run, branch, order[..i]);
    OrderFacts(run, order);
    GoodAboveIff(run, k);
    assert k in Elems(order);
    if !(run.kind == TriggerTest && IsTrigger(run.nodes, k)) {
      forall j | 0 <= j < |run.edges| && run.edges[j].target == k
        ensures Blocks(run, before, run.edges[j].source) <==> BlocksByFate(run, run.edges[j].source)
      {
        EdgeBlocksIff(run, branch, order, i, j);
      }
      BlockedByBadUpstream(run, before, k);
      SelfWaiterIsBlocked(run, k);
    }
  }

  ghost predicate BlocksByFate(run: Run, u: Key) {
    !GoodAbove(run, u) && !(run.kind == DataChange && OtherTrigger(run, u))
  }

  lemma EdgeBlocksIff(run: Run, branch: set<Key>, order: seq<Key>, i: nat, j: nat)
    requires Distinct(KeysOf(run.nodes)) && IsOrder(run, order) && IsBranch(run, branch) && i < |order|
    requires var before := Results(run, branch, order[..i]);
             forall m :: 0 <= m < i ==> order[m] in before && before[order[m]] == Fate(run, order[m])
    requires j < |run.edges| && run.edges[j].target == order[i]
             && !(run.kind == TriggerTest && IsTrigger(run.nodes, order[i]))
    ensures Blocks(run, Results(run, branch, order[..i]), run.edges[j].source)
            <==> BlocksByFate(run, run.edges[j].source)
  {
    var u := run.edges[j].source;
    LinkIsArc(run.edges, j);
    SourceAtItsTurn(run, branch, order, i, j);
    if u == order[i] || u !in KeysOf(run.nodes) {
      ReachesSelf(Waits(run), u);
      assert !Good(run, u);
    } else {
      var at :| 0 <= at < i && order[..i][at] == u;
      assert Fate(run, order[at]) == Succeeded <==> GoodAbove(run, order[at]);
    }
  }

  lemma BlockedByBadUpstream(run: Run, results: map<Key, Status>, k: Key)
    requires !(run.kind == TriggerTest && IsTrigger(run.nodes, k))
    requires forall j :: 0 <= j < |run.edges| && run.edges[j].target == k ==>
               (Blocks(run, results, run.edges[j].source) <==> BlocksByFate(run, run.edges[j].source))
    ensures Blocked(run, results, k) <==> !GoodUpstream(run, k)
  {
    if u :| (u, k) in Waits(run) && !GoodAbove(run, u) {
      var j := ArcIsLink(run.edges, u, k);
      assert Blocks(run, results, run.edges[j].source);
    }
    if j :| 0 <= j < |run.edges| && run.edges[j].target == k && Blocks(run, results, run.edges[j].source) {
      LinkIsArc(run.edges, j);
    }
  }

  lemma SelfWaiterIsBlocked(run: Run, k: Key)
    ensures (k, k) in Waits(run) ==> !GoodUpstream(run, k)
  {
    ReachesSelf(Waits(run), k);
    if (k, k) in Waits(run) { assert !Good(run, k); }
  }

  /** A node that can never run: it waits for itself, or for a node that does not exist. */
  ghost predicate Dead(run: Run, k: Key) {
    k in KeysOf(run.nodes) && exists u :: DeadWait(run, u, k)
  }

  ghost predicate DeadWait(run: Run, u: Key, k: Key) {
    (u, k) in Waits(run) && (u == k || u !in KeysOf(run.nodes))
  }

  ghost predicate NoneDead(run: Run) {
    forall k :: !Dead(run, k)
  }

  lemma DeadIsSkipped(run: Run, k: Key)
    requires Dead(run, k)
    ensures Fate(run, k) == Skipped
  {
    var u :| DeadWait(run, u, k);
    GoodAboveIff(run, k);
    ReachesSelf(Waits(run), u);
    assert !Good(run, u);
  }

  /** Everything else a dead node waits for has succeeded. */
  ghost predicate OnlyDead(run: Run, k: Key) {
    Dead(run, k) && forall u :: (u, k) in Waits(run) && !DeadWait(run, u, k) ==> Fate(run, u) == Succeeded
  }

  /**
   Going up from a skipped node one meets a node that was run and failed, one not admitted, or a dead node
   that waits for nothing else.
   */
  lemma {:induction false} SkippedBelow(run: Run, order: seq<Key>, i: nat) returns (m: nat)
    requires Distinct(KeysOf(run.nodes)) && IsOrder(run, order) && i < |order| && Fate(run, order[i]) == Skipped
    ensures m <= i && Reaches(Waits(run), order[m], order[i])
    ensures (m < i && Fate(run, order[m]) == Failed) || OnlyDead(run, order[m]) || !Admitted(run, order[m])
    decreases i
  {
    var arcs, k := Waits(run), order[i];
    OrderFacts(run, order);
    GoodAboveIff(run, k);
    ReachesSelf(arcs, k);
    assert k in Elems(order);
    if u :| (u, k) in arcs && !DeadWait(run, u, k) && !GoodAbove(run, u) {
      var j := KnownSourceBefore(run, order, i, u);
      if Fate(run, u) == Failed {
        m := j;
        ReachesSelf(arcs, u);
        ReachesArc(arcs, u, u, k);
      } else {
        m := SkippedBelow(run, order, j);
        ReachesArc(arcs, order[m], u, k);
      }
    } else {
      m := i;
      if Admitted(run, k) {
        var u :| (u, k) in arcs && !GoodAbove(run, u);
        assert DeadWait(run, u, k);
      }
    }
  }

  lemma KnownSourceBefore(run: Run, order: seq<Key>, i: nat, u: Key) returns (j: nat)
    requires Distinct(KeysOf(run.nodes)) && IsOrder(run, order) && i < |order|
    requires (u, order[i]) in Waits(run) && !DeadWait(run, u, order[i])
    ensures j < i && order[j] == u
  {
    OrderFacts(run, order);
    OrderingMembers(Elems(KeysOf(run.nodes)), run.edges);
    assert order[i] in Elems(order);
    j := SourceBefore(Ordering(Elems(KeysOf(run.nodes)), run.edges), order, i, u);
  }

  ghost predicate AllSucceeded(run: Run, results: map<Key, Status>) {
    forall k :: k in KeysOf(run.nodes) ==> k in results && results[k] == Succeeded
  }

  /** The results on record are the fates, and the counts add up, in every run that could be ordered. */
  lemma RecordsFates(run: Run, report: Report)
    requires report.order.Some? && Reports(run, report)
    ensures forall k :: k in KeysOf(run.nodes) ==> k in report.results && report.results[k] == Fate(run, k)
    ensures forall i :: 0 <= i < |report.order.value| ==>
              report.order.value[i] in KeysOf(run.nodes) && report.order.value[i] in report.results
    ensures report.succeeded + report.failed + report.skipped == |run.nodes|
  {
    var order, results := report.order.value, report.results;
    OrderFacts(run, order);
    forall i | 0 <= i < |order|
      ensures order[i] in results && results[order[i]] == Fate(run, order[i]) && order[i] in KeysOf(run.nodes)
    {
      StatusIsFate(run, report.branch, order, i);
      assert order[i] in Elems(order);
    }
    forall k | k in KeysOf(run.nodes)
      ensures k in results && results[k] == Fate(run, k)
    {
      assert k in Elems(KeysOf(run.nodes)) && k in Elems(order);
    }
    CountAll(order, results);
  }

  /** How many nodes ended with a status is positive exactly if that is the fate of one. */
  lemma FateIsCounted(run: Run, report: Report, status: Status)
    requires report.order.Some? && Reports(run, report)
    ensures Count(report.order.value, report.results, status) > 0
            <==> exists k :: k in KeysOf(run.nodes) && Fate(run, k) == status
  {
    var order, results := report.order.value, report.results;
    RecordsFates(run, report);
    OrderFacts(run, order);
    CountPositive(order, results, status);
    if k :| k in KeysOf(run.nodes) && Fate(run, k) == status {
      assert k in Elems(order);
      var i :| 0 <= i < |order| && order[i] == k;
    }
  }

  /**
   What the record of a manual, scheduled or trial run means, on any graph that can
   be ordered.  A run is partial for skipped nodes alone exactly when nothing failed
   and some dead node had everything else it waits for.
   */
  lemma OrdinaryRun(run: Run, report: Report)
    requires run.kind != DataChange && report.order.Some? && Reports(run, report)
    ensures forall k :: k in KeysOf(run.nodes) ==> k in report.results && report.results[k] == Fate(run, k)
    ensures report.succeeded + report.failed + report.skipped == |run.nodes|
    ensures report.status == RunSucceeded <==> AllSucceeded(run, report.results)
    ensures report.status == RunFailed <==> report.failed > 0 && report.succeeded == 0
    ensures report.status == RunPartial && report.failed == 0 <==> report.failed == 0 && exists k :: OnlyDead(run, k)
  {
    var order, results := report.order.value, report.results;
    RecordsFates(run, report);
    OrderFacts(run, order);
    AllSucceededIff(run, order, results);
    FateIsCounted(run, report, Failed);
    FateIsCounted(run, report, Skipped);
    if report.failed == 0 && report.skipped > 0 {
      var k :| k in KeysOf(run.nodes) && Fate(run, k) == Skipped;
      assert k in Elems(order);
      var i :| 0 <= i < |order| && order[i] == k;
      var m := SkippedBelow(run, order, i);
      assert order[m] in KeysOf(run.nodes);
    }
    if k :| OnlyDead(run, k) {
      DeadIsSkipped(run, k);
    }
  }

  /**
   What the record of a change run means: again each node has the fate the graph gives it, whatever the order, and
   the run is recorded as succeeded, so that the watermark advances, exactly if failing is the fate of no node.
   */
  lemma ChangeRun(run: Run, report: Report)
    requires run.kind == DataChange && report.order.Some? && Reports(run, report)
    ensures forall k :: k in KeysOf(run.nodes) ==> k in report.results && report.results[k] == Fate(run, k)
    ensures report.succeeded + report.failed + report.skipped == |run.nodes|
    ensures report.status == RunSucceeded <==> forall k :: k in KeysOf(run.nodes) ==> Fate(run, k) != Failed
    ensures report.status == RunFailed <==>
              (exists k :: k in KeysOf(run.nodes) && Fate(run, k) == Failed)
              && forall k :: k in KeysOf(run.nodes) ==> Fate(run, k) != Succeeded
  {
    RecordsFates(run, report);
    FateIsCounted(run, report, Failed);
    FateIsCounted(run, report, Succeeded);
  }

  lemma AllSucceededIff(run: Run, order: seq<Key>, results: map<Key, Status>)
    requires Elems(order) == Elems(KeysOf(run.nodes)) && forall i :: 0 <= i < |order| ==> order[i] in results
    ensures AllSucceeded(run, results) <==> Count(order, results, Failed) == 0 && Count(order, results, Skipped) == 0
  {
    CountPositive(order, results, Failed);
    CountPositive(order, results, Skipped);
    if AllSucceeded(run, results) {
      forall i | 0 <= i < |order|
        ensures results[order[i]] == Succeeded
      {
        assert order[i] in Elems(order);
      }
    }
    if Count(order, results, Failed) == 0 && Count(order, results, Skipped) == 0 {
      forall k | k in KeysOf(run.nodes)
        ensures k in results && results[k] == Succeeded
      {
        assert k in Elems(order);
        var i :| 0 <= i < |order| && order[i] == k;
      }
    }
  }

  /** Nodes are skipped only when one fails. */
  ghost predicate SkipsOnlyByFailure(run: Run, branch: set<Key>, order: seq<Key>) {
    var results := Results(run, branch, order);
    Count(order, results, Failed) == 0 ==> Count(order, results, Skipped) == 0
  }

  /** Whatever the nodes do, an ordinary run skips only after a failure exactly when no node of the graph is dead. */
  lemma SkipsOnlyByFailureIff(run: Run, branch: set<Key>, order: seq<Key>)
    requires run.kind != DataChange && Distinct(KeysOf(run.nodes)) && IsOrder(run, order)
    ensures (forall works: Key -> bool :: SkipsOnlyByFailure(run.(works := works), branch, order)) <==> NoneDead(run)
  {
    if NoneDead(run) {
      forall works: Key -> bool
        ensures SkipsOnlyByFailure(run.(works := works), branch, order)
      {
        NoneDeadSkipsOnlyByFailure(run, run.(works := works), branch, order);
      }
    } else {
      var k :| Dead(run, k);
      var r := run.(works := _ => true);
      DeadNodeIsSkippedWithoutFailure(run, r, branch, order, k);
    }
  }

  lemma NoneDeadSkipsOnlyByFailure(run: Run, r: Run, branch: set<Key>, order: seq<Key>)
    requires run.kind != DataChange && Distinct(KeysOf(run.nodes)) && IsOrder(run, order) && NoneDead(run)
    requires r == run.(works := r.works)
    ensures SkipsOnlyByFailure(r, branch, order)
  {
    var results := Results(r, branch, order);
    CountPositive(order, results, Failed);
    CountPositive(order, results, Skipped);
    if i :| 0 <= i < |order| && order[i] in results && results[order[i]] == Skipped {
      StatusIsFate(r, branch, order, i);
      var m := SkippedBelow(r, order, i);
      assert Waits(r) == Waits(run);
      if OnlyDead(r, order[m]) {
        var u :| DeadWait(r, u, order[m]);
        assert DeadWait(run, u, order[m]) && Dead(run, order[m]);
      } else {
        StatusIsFate(r, branch, order, m);
      }
    }
  }

  lemma DeadNodeIsSkippedWithoutFailure(run: Run, r: Run, branch: set<Key>, order: seq<Key>, k: Key)
    requires run.kind != DataChange && Distinct(KeysOf(run.nodes)) && IsOrder(run, order) && Dead(run, k)
    requires r == run.(works := r.works) && forall x :: r.works(x)
    ensures !SkipsOnlyByFailure(r, branch, order)
  {
    var u :| DeadWait(run, u, k);
    assert Waits(r) == Waits(run);
    assert DeadWait(r, u, k);
    DeadIsSkipped(r, k);
    OrderFacts(r, order);
    assert k in Elems(order);
    var i :| 0 <= i < |order| && order[i] == k;
    StatusIsFate(r, branch, order, i);
    NothingFailsWhenAllWork(r, branch, order);
    CountPositive(order, Results(r, branch, order), Failed);
    CountPositive(order, Results(r, branch, order), Skipped);
  }

  /** The executor never refuses to order a releasable graph, and none of its nodes is dead. */
  lemma ReleasableIsOrderedAndAlive(run: Run)
    requires ReleasableGraph(run.nodes, run.edges)
    ensures Distinct(KeysOf(run.nodes)) && !Cyclic(Ordering(Elems(KeysOf(run.nodes)), run.edges))
    ensures NoneDead(run)
  {
    OrderingIsAll(Elems(KeysOf(run.nodes)), run.edges);
    forall u, k | (u, k) in Waits(run)
      ensures !DeadWait(run, u, k)
    {
      var j := ArcIsLink(run.edges, u, k);
      assert run.edges[j].source in Elems(KeysOf(run.nodes)) && run.edges[j].source != run.edges[j].target;
    }
  }

  // ---- change runs --------------------------------------------------------------------

  /** What feeds a node of the branch is another change trigger, or another node of the branch. */
  ghost predicate FedFromBranch(run: Run, u: Key, k: Key) {
    OtherTrigger(run, u) || (u in KeysOf(run.nodes) && InBranch(run, u) && u != k)
  }

  /** The branch holds no other change trigger, and everything its nodes wait for is in it. */
  ghost predicate SealedAt(run: Run, k: Key) {
    !OtherTrigger(run, k) && forall u :: (u, k) in LinkArcs(run.edges) ==> FedFromBranch(run, u, k)
  }

  ghost predicate Sealed(run: Run) {
    forall k :: k in KeysOf(run.nodes) && InBranch(run, k) ==> SealedAt(run, k)
  }

  function StatusOf(run: Run, branch: set<Key>, order: seq<Key>): RunStatus {
    var results := Results(run, branch, order);
    FinalStatus(run.kind, Count(order, results, Succeeded), Count(order, results, Failed),
                Count(order, results, Skipped))
  }

  /** If the run is recorded as succeeded, every node of the branch was executed and succeeded. */
  ghost predicate SuccessMeansBranchDone(run: Run, branch: set<Key>, order: seq<Key>) {
    StatusOf(run, branch, order) == RunSucceeded ==>
      forall i :: 0 <= i < |order| && InBranch(run, order[i]) ==>
        order[i] in Results(run, branch, order) && Results(run, branch, order)[order[i]] == Succeeded
  }

  lemma {:induction false} SealedBranchSucceeds(run: Run, branch: set<Key>, order: seq<Key>, i: nat)
    requires run.kind == DataChange && Distinct(KeysOf(run.nodes)) && IsOrder(run, order) && IsBranch(run, branch)
    requires Sealed(run) && i < |order| && Count(order, Results(run, branch, order), Failed) == 0
    requires InBranch(run, order[i])
    ensures order[i] in Results(run, branch, order) && Results(run, branch, order)[order[i]] == Succeeded
    decreases i
  {
    var k, results := order[i], Results(run, branch, order);
    OrderFacts(run, order);
    StatusIsVerdict(run, branch, order, i);
    assert k in Elems(order) && SealedAt(run, k);
    forall j | 0 <= j < |run.edges| && run.edges[j].target == k
      ensures !Blocks(run, results, run.edges[j].source)
    {
      LinkIsArc(run.edges, j);
      var u := run.edges[j].source;
      assert FedFromBranch(run, u, k);
      if !OtherTrigger(run, u) {
        SourceAtItsTurn(run, branch, order, i, j);
        var at :| 0 <= at < i && order[..i][at] == u;
        SealedBranchSucceeds(run, branch, order, at);
      }
    }
    CountPositive(order, results, Failed);
  }

  lemma {:induction false} NothingFailsWhenAllWork(run: Run, branch: set<Key>, order: seq<Key>)
    requires forall k :: run.works(k)
    ensures forall k :: k in Results(run, branch, order) ==> Results(run, branch, order)[k] != Failed
  {
    if order != [] { NothingFailsWhenAllWork(run, branch, order[..|order| - 1]); }
  }

  /**
   A node of the branch that is another trigger, waits for itself, or is fed from outside is skipped, even
   when every node works.
   */
  lemma UnsealedIsSkipped(run: Run, branch: set<Key>, order: seq<Key>, i: nat)
    requires run.kind == DataChange && Distinct(KeysOf(run.nodes)) && IsOrder(run, order) && IsBranch(run, branch)
    requires i < |order| && InBranch(run, order[i]) && !SealedAt(run, order[i])
    ensures order[i] in Results(run, branch, order) && Results(run, branch, order)[order[i]] == Skipped
  {
    var k := order[i];
    VerdictAtItsTurn(run, branch, order, i);
    if !OtherTrigger(run, k) {
      var u :| (u, k) in LinkArcs(run.edges) && !FedFromBranch(run, u, k);
      var j := ArcIsLink(run.edges, u, k);
      SourceAtItsTurn(run, branch, order, i, j);
      var before := Results(run, branch, order[..i]);
      if u in KeysOf(run.nodes) && u != k {
        var at :| 0 <= at < i && order[..i][at] == u;
        VerdictAtItsTurn(run, branch, order, at);
      }
      assert Blocks(run, before, run.edges[j].source);
    }
  }

  /**
   A change run recorded as succeeded (which advances the watermark) has executed
   its whole branch, whatever the nodes do, exactly when the branch is sealed.
   */
  lemma WatermarkIsEarnedIffSealed(run: Run, branch: set<Key>, order: seq<Key>)
    requires run.kind == DataChange && Distinct(KeysOf(run.nodes)) && IsOrder(run, order) && IsBranch(run, branch)
    ensures Sealed(run) <==> forall works: Key -> bool :: SuccessMeansBranchDone(run.(works := works), branch, order)
  {
    if Sealed(run) {
      forall works: Key -> bool
        ensures SuccessMeansBranchDone(run.(works := works), branch, order)
      {
        SealedBranchIsEarned(run, run.(works := works), branch, order);
      }
    } else {
      var k :| k in KeysOf(run.nodes) && InBranch(run, k) && !SealedAt(run, k);
      UnsealedBranchIsNotEarned(run, run.(works := _ => true), branch, order, k);
    }
  }

  lemma SealedBranchIsEarned(run: Run, r: Run, branch: set<Key>, order: seq<Key>)
    requires run.kind == DataChange && Distinct(KeysOf(run.nodes)) && IsOrder(run, order) && IsBranch(run, branch)
    requires Sealed(run) && r == run.(works := r.works)
    ensures SuccessMeansBranchDone(r, branch, order)
  {
    if StatusOf(r, branch, order) == RunSucceeded {
      forall k | k in KeysOf(r.nodes) && InBranch(r, k)
        ensures SealedAt(r, k)
      {
        assert SealedAt(run, k);
        forall u | (u, k) in LinkArcs(r.edges)
          ensures FedFromBranch(r, u, k)
        {
          assert FedFromBranch(run, u, k);
        }
      }
      forall i | 0 <= i < |order| && InBranch(r, order[i])
        ensures order[i] in Results(r, branch, order) && Results(r, branch, order)[order[i]] == Succeeded
      {
        SealedBranchSucceeds(r, branch, order, i);
      }
    }
  }

  lemma UnsealedBranchIsNotEarned(run: Run, r: Run, branch: set<Key>, order: seq<Key>, k: Key)
    requires run.kind == DataChange && Distinct(KeysOf(run.nodes)) && IsOrder(run, order) && IsBranch(run, branch)
    requires k in KeysOf(run.nodes) && InBranch(run, k) && !SealedAt(run, k)
    requires r == run.(works := r.works) && forall x :: r.works(x)
    ensures StatusOf(r, branch, order) == RunSucceeded && !SuccessMeansBranchDone(r, branch, order)
    ensures k in Results(r, branch, order) && Results(r, branch, order)[k] == Skipped
  {
    OrderFacts(r, order);
    assert k in Elems(order);
    var i :| 0 <= i < |order| && order[i] == k;
    assert !SealedAt(r, k) by {
      if !OtherTrigger(run, k) {
        var u :| (u, k) in LinkArcs(run.edges) && !FedFromBranch(run, u, k);
        assert !FedFromBranch(r, u, k);
      }
    }
    UnsealedIsSkipped(r, branch, order, i);
    NothingFailsWhenAllWork(r, branch, order);
    CountPositive(order, Results(r, branch, order), Failed);
    assert InBranch(r, order[i]);
  }

  /** Whatever feeds the selected branch is in the branch, or is another change trigger. */
  ghost predicate Closed(run: Run) {
    forall u, k :: (u, k) in LinkArcs(run.edges) && InBranch(run, k) ==> InBranch(run, u) || OtherTrigger(run, u)
  }

  ghost predicate NoLoopInBranch(run: Run) {
    forall k :: InBranch(run, k) ==> (k, k) !in LinkArcs(run.edges)
  }

  predicate TriggersUnentered(nodes: seq<NodeSpec>, edges: seq<Link>) {
    forall i :: 0 <= i < |nodes| && nodes[i].isTrigger ==> !Entered(edges, nodes[i].key)
  }

  /** A node of the branch is entered, so it is no change trigger but the selected one. */
  lemma BranchHasNoOtherTrigger(run: Run, k: Key)
    requires TriggersUnentered(run.nodes, run.edges) && InBranch(run, k)
    ensures !OtherTrigger(run, k)
  {
    if k != run.selected {
      var u := ReachesLastArc(LinkArcs(run.edges), run.selected, k);
      var j := ArcIsLink(run.edges, u, k);
      assert Entered(run.edges, k);
    }
  }

  /**
   On graphs with known ends whose triggers are entry points, a branch is sealed if it is closed and none of
   its nodes feeds itself.
   */
  lemma SealedIffClosed(run: Run)
    requires EndsKnown(Elems(KeysOf(run.nodes)), run.edges) && TriggersUnentered(run.nodes, run.edges)
    ensures Sealed(run) <==> Closed(run) && NoLoopInBranch(run)
  {
    if Closed(run) && NoLoopInBranch(run) {
      forall k | k in KeysOf(run.nodes) && InBranch(run, k)
        ensures SealedAt(run, k)
      {
        BranchHasNoOtherTrigger(run, k);
        forall u | (u, k) in LinkArcs(run.edges)
          ensures FedFromBranch(run, u, k)
        {
          var j := ArcIsLink(run.edges, u, k);
          assert run.edges[j].source in Elems(KeysOf(run.nodes));
        }
      }
    }
    if Sealed(run) {
      forall u, k | (u, k) in LinkArcs(run.edges) && InBranch(run, k)
        ensures (InBranch(run, u) || OtherTrigger(run, u)) && (k, k) !in LinkArcs(run.edges)
      {
        var j := ArcIsLink(run.edges, u, k);
        assert run.edges[j].target in Elems(KeysOf(run.nodes));
        assert SealedAt(run, k) && FedFromBranch(run, u, k);
        BranchHasNoOtherTrigger(run, k);
        assert (k, k) in LinkArcs(run.edges) ==> FedFromBranch(run, k, k);
      }
    }
  }

  /**
   So for every released graph and for every self-contained trigger: success means the branch is done
   exactly under these two conditions.
   */
  lemma WatermarkIsEarnedIffClosed(run: Run, branch: set<Key>, order: seq<Key>)
    requires run.kind == DataChange && Distinct(KeysOf(run.nodes)) && IsOrder(run, order) && IsBranch(run, branch)
    requires EndsKnown(Elems(KeysOf(run.nodes)), run.edges) && TriggersUnentered(run.nodes, run.edges)
    ensures Closed(run) && NoLoopInBranch(run)
            <==> forall works: Key -> bool :: SuccessMeansBranchDone(run.(works := works), branch, order)
  {
    SealedIffClosed(run);
    WatermarkIsEarnedIffSealed(run, branch, order);
  }

  /** The trigger `t` and an ordinary node `a` both feed `b`. */
  function TwoSources(t: Key, a: Key, b: Key, works: Key -> bool): Run {
    Run([NodeSpec(t, true, false), NodeSpec(a, false, false), NodeSpec(b, false, false)],
        [Link(t, b), Link(a, b)], DataChange, t, works)
  }

  predicate ThreeKeys(t: Key, a: Key, b: Key) {
    t != a && t != b && a != b && t.name != ""
  }

  lemma TwoSourcesArcs(t: Key, a: Key, b: Key, works: Key -> bool)
    requires ThreeKeys(t, a, b)
    ensures var run := TwoSources(t, a, b, works);
            && LinkArcs(run.edges) == {(t, b), (a, b)} && KeysOf(run.nodes) == [t, a, b]
            && EndsKnown(Elems([t, a, b]), run.edges) && NoSelfLoop(run.edges)
            && Ordering(Elems([t, a, b]), run.edges) == LinkArcs(run.edges)
  {
    var run := TwoSources(t, a, b, works);
    assert run.edges[..1] == [Link(t, b)] && run.edges[..1][..0] == [];
    assert LinkArcs(run.edges[..1]) == {(t, b)};
    OrderingIsAll(Elems([t, a, b]), run.edges);
  }

  lemma SourcesFirstOfThree(arcs: Arcs, t: Key, a: Key, b: Key)
    requires ThreeKeys(t, a, b) && arcs == {(t, b), (a, b)}
    ensures SourcesFirst(arcs, [t, a, b]) && !Cyclic(arcs)
  {
    var order := [t, a, b];
    assert order[..2] == [t, a] && [t, a][..1] == [t] && [t][..0] == [];
    assert SourcesFirst(arcs, [t]);
    assert SourcesFirst(arcs, [t, a]);
    OrderedIsAcyclic(arcs, order);
    assert Induced(arcs, Elems(order)) == arcs;
  }

  lemma TwoSourcesIsReleased(t: Key, a: Key, b: Key, works: Key -> bool)
    requires ThreeKeys(t, a, b)
    ensures Released(TwoSources(t, a, b, works).nodes, TwoSources(t, a, b, works).edges)
  {
    var run := TwoSources(t, a, b, works);
    TwoSourcesArcs(t, a, b, works);
    SourcesFirstOfThree(LinkArcs(run.edges), t, a, b);
    ThreeAreReleased(run.nodes, run.edges, t, a, b);
  }

  lemma ThreeAreReleased(nodes: seq<NodeSpec>, edges: seq<Link>, t: Key, a: Key, b: Key)
    requires ThreeKeys(t, a, b) && edges == [Link(t, b), Link(a, b)] && KeysOf(nodes) == [t, a, b]
    requires nodes == [NodeSpec(t, true, false), NodeSpec(a, false, false), NodeSpec(b, false, false)]
    requires EndsKnown(Elems([t, a, b]), edges) && NoSelfLoop(edges) && !Cyclic(LinkArcs(edges))
    ensures Released(nodes, edges)
  {
    TwoSourcesChecks(nodes, edges, t, a, b);
    TwoSourcesDiffer(edges, t, a, b);
  }

  lemma TwoSourcesDiffer(edges: seq<Link>, t: Key, a: Key, b: Key)
    requires ThreeKeys(t, a, b) && edges == [Link(t, b), Link(a, b)]
    ensures Distinct([t, a, b]) && Distinct(edges)
  {
  }

  lemma TwoSourcesOrder(t: Key, a: Key, b: Key, works: Key -> bool)
    requires ThreeKeys(t, a, b)
    ensures IsOrder(TwoSources(t, a, b, works), [t, a, b])
  {
    TwoSourcesArcs(t, a, b, works);
    SourcesFirstOfThree(LinkArcs(TwoSources(t, a, b, works).edges), t, a, b);
  }

  lemma TwoSourcesChecks(nodes: seq<NodeSpec>, edges: seq<Link>, t: Key, a: Key, b: Key)
    requires ThreeKeys(t, a, b) && edges == [Link(t, b), Link(a, b)]
    requires nodes == [NodeSpec(t, true, false), NodeSpec(a, false, false), NodeSpec(b, false, false)]
    ensures TriggersAreEntries(nodes, edges) && forall i :: 0 <= i < |nodes| ==> Touched(edges, nodes[i].key)
  {
    assert edges[0].source == t && edges[1].source == a && edges[1].target == b;
  }

  lemma TwoSourcesBranch(arcs: Arcs, t: Key, a: Key, b: Key)
    requires ThreeKeys(t, a, b) && arcs == {(t, b), (a, b)}
    ensures forall x :: x in {t, b} <==> Reaches(arcs, t, x)
  {
    ReachesSelf(arcs, t);
    ReachesArc(arcs, t, t, b);
    forall x | Reaches(arcs, t, x)
      ensures x in {t, b}
    {
      ClosedHoldsReachable(arcs, {t, b}, t, x);
    }
  }

  /** In this released graph `b` is skipped, as `a` is outside the branch, and the run succeeds all the same. */
  lemma WatermarkAdvancesPastSkippedNode(t: Key, a: Key, b: Key, works: Key -> bool)
    requires ThreeKeys(t, a, b) && works(t)
    ensures var run, branch, order := TwoSources(t, a, b, works), {t, b}, [t, a, b];
            && Released(run.nodes, run.edges) && IsOrder(run, order) && IsBranch(run, branch)
            && b in Results(run, branch, order) && Results(run, branch, order)[b] == Skipped
            && StatusOf(run, branch, order) == RunSucceeded
  {
    var run := TwoSources(t, a, b, works);
    TwoSourcesArcs(t, a, b, works);
    TwoSourcesIsReleased(t, a, b, works);
    TwoSourcesOrder(t, a, b, works);
    TwoSourcesBranch(LinkArcs(run.edges), t, a, b);
    TwoSourcesUnsealed(run, {t, b}, t, a, b);
    TwoSourcesSkips(run, {t, b}, [t, a, b], t, a, b);
  }

  lemma TwoSourcesUnsealed(run: Run, branch: set<Key>, t: Key, a: Key, b: Key)
    requires ThreeKeys(t, a, b) && run.kind == DataChange && run.selected == t && branch == {t, b}
             && IsBranch(run, branch)
    requires (a, b) in LinkArcs(run.edges) && !IsTrigger(run.nodes, a)
    ensures InBranch(run, b) && !SealedAt(run, b)
  {
    assert b in branch && a !in branch;
    assert !FedFromBranch(run, a, b);
  }

  lemma TwoSourcesSkips(run: Run, branch: set<Key>, order: seq<Key>, t: Key, a: Key, b: Key)
    requires run.kind == DataChange && run.selected == t && run.works(t) && order == [t, a, b] && branch == {t, b}
    requires KeysOf(run.nodes) == order && ThreeKeys(t, a, b) && IsOrder(run, order) && IsBranch(run, branch)
    requires InBranch(run, b) && !SealedAt(run, b) && !Entered(run.edges, t)
    ensures b in Results(run, branch, order) && Results(run, branch, order)[b] == Skipped
    ensures StatusOf(run, branch, order) == RunSucceeded
  {
    var results := Results(run, branch, order);
    UnsealedIsSkipped(run, branch, order, 2);
    VerdictAtItsTurn(run, branch, order, 0);
    VerdictAtItsTurn(run, branch, order, 1);
    assert results[t] == Succeeded && results[a] == Skipped && results[b] == Skipped;
    CountPositive(order, results, Failed);
  }
}

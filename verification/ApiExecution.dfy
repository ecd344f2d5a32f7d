/**
 Executing a validated API orchestration workflow.

 `ExecuteRun` keeps the service's loop: a queue of ready nodes, a set of
 undecided nodes, and a decision per edge that `ResolveReady` propagates through
 skipped nodes to a fixpoint.  It is proved against a description that mentions
 no queue and no order: the executed nodes are those reachable from the start
 along the edges that their sources select.
 */
module ApiExecution {
  import opened Graphs
  import opened ApiGraph

  /** What executing a node yields; `matched` is read for condition nodes only. */
  datatype Outcome = Raised | Output(matched: bool)

  datatype RunState = Succeeded | FailedAt(key: Key) | Undecided

  /** A validated workflow as the executor reads it: nodes by id, and edges by position. */
  datatype Flow = Flow(byId: map<Key, Node>, edges: seq<Edge>) {
    ghost predicate Valid() {
      && (forall k :: k in byId ==> byId[k].id == k)
      && (forall i :: 0 <= i < |edges| ==> edges[i].source in byId && edges[i].target in byId)
    }
  }

  function ById(nodes: seq<Node>): map<Key, Node> {
    if nodes == [] then map[] else
      var n := |nodes| - 1;
      ById(nodes[..n])[nodes[n].id := nodes[n]]
  }

  lemma {:induction false} ByIdFinds(nodes: seq<Node>)
    ensures forall k :: k in ById(nodes) ==> ById(nodes)[k].id == k
    ensures ById(nodes).Keys == Elems(Ids(nodes))
  {
    if nodes != [] {
      var n := |nodes| - 1;
      ByIdFinds(nodes[..n]);
      assert Ids(nodes) == Ids(nodes[..n]) + [nodes[n].id];
    }
  }

  // ---- which edges an executed node selects --------------------------------

  predicate OnBranch(edges: seq<Edge>, i: int, key: Key, branch: string) {
    0 <= i < |edges| && edges[i].source == key && edges[i].branch == branch
  }

  function BranchName(matched: bool): string {
    if matched then "true" else "false"
  }

  predicate SomeOnBranch(edges: seq<Edge>, key: Key, branch: string) {
    exists j :: 0 <= j < |edges| && OnBranch(edges, j, key, branch)
  }

  /** Whether a node that produced `outcome` selects its outgoing edge `i`. */
  predicate Selects(node: Node, edges: seq<Edge>, i: int, outcome: Outcome)
    requires 0 <= i < |edges| && outcome.Output?
  {
    if node.kind != Condition then true else
      var branch := BranchName(outcome.matched);
      if SomeOnBranch(edges, node.id, branch) then edges[i].branch == branch
      else edges[i].branch == "default"
  }

  ghost predicate Chosen(f: Flow, outcomes: Key -> Outcome, i: int)
    requires 0 <= i < |f.edges|
  {
    var source := f.edges[i].source;
    source in f.byId && outcomes(source).Output? && Selects(f.byId[source], f.edges, i, outcomes(source))
  }

  /** The arcs selected by nodes that do not raise: no queue, no order. */
  ghost function ChosenArcs(f: Flow, outcomes: Key -> Outcome, n: nat): Arcs
    requires n <= |f.edges|
  {
    if n == 0 then {} else
      var rest := ChosenArcs(f, outcomes, n - 1);
      if Chosen(f, outcomes, n - 1) then rest + {(f.edges[n - 1].source, f.edges[n - 1].target)} else rest
  }

  lemma {:induction false} ChosenIsArc(f: Flow, outcomes: Key -> Outcome, n: nat, i: nat)
    requires i < n <= |f.edges| && Chosen(f, outcomes, i)
    ensures (f.edges[i].source, f.edges[i].target) in ChosenArcs(f, outcomes, n)
  {
    if i < n - 1 { ChosenIsArc(f, outcomes, n - 1, i); }
  }

  lemma {:induction false} ArcIsChosen(f: Flow, outcomes: Key -> Outcome, n: nat, x: Key, y: Key) returns (i: nat)
    requires n <= |f.edges| && (x, y) in ChosenArcs(f, outcomes, n)
    ensures i < n && f.edges[i].source == x && f.edges[i].target == y && Chosen(f, outcomes, i)
  {
    if (x, y) == (f.edges[n - 1].source, f.edges[n - 1].target) && Chosen(f, outcomes, n - 1) {
      i := n - 1;
    } else {
      i := ArcIsChosen(f, outcomes, n - 1, x, y);
    }
  }

  /** The keys a run is meant to execute. */
  ghost predicate Live(f: Flow, outcomes: Key -> Outcome, start: Key, key: Key) {
    Reaches(ChosenArcs(f, outcomes, |f.edges|), start, key)
  }

  // ---- the state of a run ----------------------------------------------------

  datatype Phase = Waiting | Queued | Executed | Skipped

  ghost predicate Enter(f: Flow, i: int, key: Key) {
    0 <= i < |f.edges| && f.edges[i].target == key
  }

  ghost predicate AllDecided(f: Flow, decided: map<nat, bool>, key: Key) {
    forall i: nat :: Enter(f, i, key) ==> i in decided
  }

  ghost predicate SomeTaken(f: Flow, decided: map<nat, bool>, key: Key) {
    exists i: nat :: Enter(f, i, key) && i in decided && decided[i]
  }

  ghost predicate SomeEnter(f: Flow, key: Key) {
    exists i :: Enter(f, i, key)
  }

  /** Edges are decided exactly out of settled nodes, and taken when an executed source selects them. */
  ghost predicate EdgesAgree(f: Flow, outcomes: Key -> Outcome, decided: map<nat, bool>, phase: map<Key, Phase>) {
    && phase.Keys == f.byId.Keys
    && (forall i: nat :: i in decided ==> i < |f.edges|)
    && (forall i: nat :: i < |f.edges| && f.edges[i].source in phase ==>
          (i in decided <==> phase[f.edges[i].source] in {Executed, Skipped}))
    && (forall i: nat :: i in decided && f.edges[i].source in phase ==>
          (decided[i] <==> phase[f.edges[i].source] == Executed && Chosen(f, outcomes, i)))
  }

  /** Why a node stands where it stands. */
  ghost predicate Justified(f: Flow, outcomes: Key -> Outcome, start: Key, decided: map<nat, bool>, key: Key,
                            p: Phase) {
    match p
    case Waiting => true
    case Skipped => AllDecided(f, decided, key) && SomeEnter(f, key) && !SomeTaken(f, decided, key)
    case Queued => AllDecided(f, decided, key) && Live(f, outcomes, start, key)
    case Executed => AllDecided(f, decided, key) && Live(f, outcomes, start, key) && outcomes(key).Output?
  }

  ghost predicate PhasesAgree(f: Flow, outcomes: Key -> Outcome, start: Key, decided: map<nat, bool>,
                              phase: map<Key, Phase>) {
    forall k {:trigger Justified(f, outcomes, start, decided, k, phase[k])} :: k in phase ==>
      Justified(f, outcomes, start, decided, k, phase[k])
  }

  ghost predicate Holds(phase: map<Key, Phase>, p: Phase, keys: seq<Key>) {
    Distinct(keys) && forall k :: k in keys <==> k in phase && phase[k] == p
  }

  ghost predicate Pending(phase: map<Key, Phase>, pending: set<Key>) {
    forall k :: k in pending <==> k in phase && phase[k] == Waiting
  }

  /** Nothing that waits could be settled now. */
  ghost predicate Settled(f: Flow, decided: map<nat, bool>, pending: set<Key>) {
    forall k :: k in pending ==> !AllDecided(f, decided, k)
  }

  // ---- moving one node on ------------------------------------------------------

  /** Deciding the edges out of a node that has just been executed or skipped. */
  method DecideOutgoing(f: Flow, decided: map<nat, bool>, outgoing: seq<nat>, taken: set<nat>)
    returns (now: map<nat, bool>)
    ensures forall i :: i in now <==> i in decided || i in outgoing
    ensures forall i :: i in outgoing ==> now[i] == (i in taken)
    ensures forall i :: i in decided && i !in outgoing ==> now[i] == decided[i]
  {
    now := decided;
    var j := 0;
    while j < |outgoing|
      invariant 0 <= j <= |outgoing|
      invariant forall i :: i in now <==> i in decided || i in outgoing[..j]
      invariant forall i :: i in outgoing[..j] ==> now[i] == (i in taken)
      invariant forall i :: i in decided && i !in outgoing[..j] ==> now[i] == decided[i]
    {
      assert outgoing[..j + 1] == outgoing[..j] + [outgoing[j]];
      now := now[outgoing[j] := outgoing[j] in taken];
      j := j + 1;
    }
    assert outgoing[..j] == outgoing;
  }

  /** `now` adds to `decided` the edges out of `key`, taken when `taken` says so. */
  ghost predicate Decides(f: Flow, decided: map<nat, bool>, now: map<nat, bool>, key: Key, taken: set<nat>) {
    && (forall i: nat :: i in now <==> i in decided || (i < |f.edges| && f.edges[i].source == key))
    && (forall i: nat :: i in now && i !in decided ==> now[i] == (i in taken))
    && (forall i: nat :: i in decided ==> i in now && now[i] == decided[i])
  }

  /** Once all edges into a node are decided, later decisions leave its justification alone. */
  lemma PhasesStay(f: Flow, outcomes: Key -> Outcome, start: Key, decided: map<nat, bool>, now: map<nat, bool>,
                   key: Key, taken: set<nat>, phase: map<Key, Phase>)
    requires PhasesAgree(f, outcomes, start, decided, phase) && Decides(f, decided, now, key, taken)
    ensures PhasesAgree(f, outcomes, start, now, phase)
  {
    forall k | k in phase
      ensures Justified(f, outcomes, start, now, k, phase[k])
    {
      assert Justified(f, outcomes, start, decided, k, phase[k]);
    }
  }

  /** Moving one node to a phase it is justified in leaves the others alone. */
  lemma PhaseMoves(f: Flow, outcomes: Key -> Outcome, start: Key, decided: map<nat, bool>, phase: map<Key, Phase>,
                   key: Key, p: Phase)
    requires PhasesAgree(f, outcomes, start, decided, phase) && Justified(f, outcomes, start, decided, key, p)
    ensures PhasesAgree(f, outcomes, start, decided, phase[key := p])
  {
    var next := phase[key := p];
    forall k | k in next
      ensures Justified(f, outcomes, start, decided, k, next[k])
    {
      assert k in phase && k != key ==> Justified(f, outcomes, start, decided, k, phase[k]);
    }
  }

  lemma EdgesAgreeAfter(f: Flow, outcomes: Key -> Outcome, decided: map<nat, bool>, now: map<nat, bool>,
                        key: Key, taken: set<nat>, phase: map<Key, Phase>, p: Phase)
    requires f.Valid() && EdgesAgree(f, outcomes, decided, phase) && key in phase
    requires phase[key] in {Waiting, Queued} && p in {Executed, Skipped}
    requires Decides(f, decided, now, key, taken)
    requires forall i: nat :: i < |f.edges| && f.edges[i].source == key ==>
               (i in taken <==> p == Executed && Chosen(f, outcomes, i))
    ensures EdgesAgree(f, outcomes, now, phase[key := p])
  {
    forall i: nat | i < |f.edges| && f.edges[i].source == key
      ensures i !in decided
    {
    }
  }

  /** A node all of whose entering edges are decided is live exactly when one of them is taken. */
  lemma TakenIsLive(f: Flow, outcomes: Key -> Outcome, start: Key, decided: map<nat, bool>, phase: map<Key, Phase>,
                    key: Key)
    requires f.Valid() && EdgesAgree(f, outcomes, decided, phase) && PhasesAgree(f, outcomes, start, decided, phase)
    requires SomeTaken(f, decided, key) || (key == start && !SomeEnter(f, start))
    ensures Live(f, outcomes, start, key)
  {
    if SomeTaken(f, decided, key) {
      var i: nat :| Enter(f, i, key) && i in decided && decided[i];
      var x := f.edges[i].source;
      assert Justified(f, outcomes, start, decided, x, phase[x]);
      ChosenIsArc(f, outcomes, |f.edges|, i);
      ReachesArc(ChosenArcs(f, outcomes, |f.edges|), start, x, key);
    } else {
      ReachesSelf(ChosenArcs(f, outcomes, |f.edges|), start);
    }
  }

  ghost predicate SoleEntry(f: Flow, start: Key) {
    forall k {:trigger SomeEnter(f, k)} :: k in f.byId ==> (SomeEnter(f, k) <==> k != start)
  }

  ghost predicate Indexed(f: Flow, incoming: map<Key, seq<nat>>, outgoing: map<Key, seq<nat>>) {
    && incoming.Keys == f.byId.Keys && outgoing.Keys == f.byId.Keys
    && (forall k, i: nat :: k in incoming ==> (i in incoming[k] <==> Enter(f, i, k)))
    && (forall k, i: nat :: k in outgoing ==> (i in outgoing[k] <==> i < |f.edges| && f.edges[i].source == k))
  }

  /** All that the loops keep about a run in progress. */
  ghost predicate Sound(f: Flow, outcomes: Key -> Outcome, start: Key, decided: map<nat, bool>,
                        pending: set<Key>, phase: map<Key, Phase>) {
    EdgesAgree(f, outcomes, decided, phase) && PhasesAgree(f, outcomes, start, decided, phase)
    && Pending(phase, pending)
  }

  /** `ready` and `skipped` are exactly the nodes that stopped waiting, each named once. */
  ghost predicate Moved(was: map<Key, Phase>, phase: map<Key, Phase>, ready: seq<Key>, skipped: seq<Key>) {
    && was.Keys == phase.Keys && Distinct(ready) && Distinct(skipped)
    && (forall k :: k in was && was[k] != Waiting ==> phase[k] == was[k])
    && (forall k :: k in was && was[k] == Waiting ==> phase[k] != Executed)
    && (forall k :: k in ready <==> k in was && was[k] == Waiting && phase[k] == Queued)
    && (forall k :: k in skipped <==> k in was && was[k] == Waiting && phase[k] == Skipped)
  }

  lemma QueueKeepsSound(f: Flow, outcomes: Key -> Outcome, start: Key, decided: map<nat, bool>,
                        pending: set<Key>, phase: map<Key, Phase>, key: Key)
    requires f.Valid() && SoleEntry(f, start) && Sound(f, outcomes, start, decided, pending, phase)
    requires key in pending && AllDecided(f, decided, key) && (SomeTaken(f, decided, key) || !SomeEnter(f, key))
    ensures Sound(f, outcomes, start, decided, pending - {key}, phase[key := Queued])
  {
    TakenIsLive(f, outcomes, start, decided, phase, key);
    PhaseMoves(f, outcomes, start, decided, phase, key, Queued);
  }

  lemma SkipKeepsSound(f: Flow, outcomes: Key -> Outcome, start: Key, decided: map<nat, bool>, now: map<nat, bool>,
                       pending: set<Key>, phase: map<Key, Phase>, key: Key)
    requires f.Valid() && Sound(f, outcomes, start, decided, pending, phase)
    requires key in pending && AllDecided(f, decided, key) && !SomeTaken(f, decided, key) && SomeEnter(f, key)
    requires Decides(f, decided, now, key, {})
    ensures Sound(f, outcomes, start, now, pending - {key}, phase[key := Skipped])
  {
    EdgesAgreeAfter(f, outcomes, decided, now, key, {}, phase, Skipped);
    PhaseMoves(f, outcomes, start, decided, phase, key, Skipped);
    PhasesStay(f, outcomes, start, decided, now, key, {}, phase[key := Skipped]);
  }

  /** One pass of the resolver's inner loop over one node. */
  method SettleNode(f: Flow, incoming: map<Key, seq<nat>>, outgoing: map<Key, seq<nat>>, decided: map<nat, bool>,
                    pending: set<Key>, key: Key,
                    ghost outcomes: Key -> Outcome, ghost start: Key, ghost phase: map<Key, Phase>)
    returns (next: Phase, now: map<nat, bool>)
    requires f.Valid() && SoleEntry(f, start) && Sound(f, outcomes, start, decided, pending, phase)
    requires key in pending && Indexed(f, incoming, outgoing)
    ensures next == Waiting <==> !AllDecided(f, decided, key)
    ensures next == Waiting ==> now == decided
    ensures next != Waiting ==> Sound(f, outcomes, start, now, pending - {key}, phase[key := next])
    ensures next != Executed
  {
    now := decided;
    var into := incoming[key];
    if into != [] && !(forall i :: i in into ==> i in decided) {
      next := Waiting;
    } else if into == [] || exists i :: i in into && decided[i] {
      next := Queued;
      QueueKeepsSound(f, outcomes, start, decided, pending, phase, key);
    } else {
      next := Skipped;
      assert into[0] in into;
      assert !SomeTaken(f, decided, key);
      now := DecideOutgoing(f, decided, outgoing[key], {});
      NoEdgeDecidedEarly(f, outcomes, decided, phase, key);
      SkipKeepsSound(f, outcomes, start, decided, now, pending, phase, key);
    }
  }

  lemma NoEdgeDecidedEarly(f: Flow, outcomes: Key -> Outcome, decided: map<nat, bool>, phase: map<Key, Phase>, key: Key)
    requires EdgesAgree(f, outcomes, decided, phase) && key in phase && phase[key] in {Waiting, Queued}
    ensures forall i: nat :: i < |f.edges| && f.edges[i].source == key ==> i !in decided
  {
  }

  lemma MovedOne(was: map<Key, Phase>, phase: map<Key, Phase>, ready: seq<Key>, skipped: seq<Key>, key: Key,
                 next: Phase)
    requires Moved(was, phase, ready, skipped) && key in phase && phase[key] == Waiting && next in {Queued, Skipped}
    ensures next == Queued ==> Moved(was, phase[key := next], ready + [key], skipped)
    ensures next == Skipped ==> Moved(was, phase[key := next], ready, skipped + [key])
  {
  }

  // ---- the order in which nodes are settled ----------------------------------------

  ghost predicate SourcesIn(f: Flow, before: seq<Key>, key: Key) {
    forall i :: Enter(f, i, key) ==> f.edges[i].source in before
  }

  /** Each node of the log comes after every node with an edge into it. */
  ghost predicate SourcesBefore(f: Flow, log: seq<Key>) {
    log == [] ||
    var n := |log| - 1;
    SourcesBefore(f, log[..n]) && SourcesIn(f, log[..n], log[n])
  }

  /** The log is the two lists merged, each in its own order. */
  predicate Merged(log: seq<Key>, executed: seq<Key>, skipped: seq<Key>)
    decreases |log|
  {
    if log == [] then executed == [] && skipped == [] else
      var last := log[|log| - 1];
      || (executed != [] && executed[|executed| - 1] == last
          && Merged(log[..|log| - 1], executed[..|executed| - 1], skipped))
      || (skipped != [] && skipped[|skipped| - 1] == last
          && Merged(log[..|log| - 1], executed, skipped[..|skipped| - 1]))
  }

  /** The nodes in the order in which they were executed or skipped. */
  ghost predicate Chronicle(f: Flow, log: seq<Key>, executed: seq<Key>, skipped: seq<Key>) {
    SourcesBefore(f, log) && Merged(log, executed, skipped)
  }

  lemma {:induction false} MergedElems(log: seq<Key>, executed: seq<Key>, skipped: seq<Key>, k: Key)
    requires Merged(log, executed, skipped)
    ensures k in log <==> k in executed || k in skipped
    decreases |log|
  {
    if log != [] {
      var init, last := log[..|log| - 1], log[|log| - 1];
      assert log == init + [last];
      if executed != [] && executed[|executed| - 1] == last && Merged(init, executed[..|executed| - 1], skipped) {
        MergedElems(init, executed[..|executed| - 1], skipped, k);
        assert executed == executed[..|executed| - 1] + [last];
      } else {
        MergedElems(init, executed, skipped[..|skipped| - 1], k);
        assert skipped == skipped[..|skipped| - 1] + [last];
      }
    }
  }

  lemma MergedExecuted(log: seq<Key>, executed: seq<Key>, skipped: seq<Key>, key: Key)
    requires Merged(log, executed, skipped)
    ensures Merged(log + [key], executed + [key], skipped)
  {
    assert (log + [key])[..|log|] == log && (executed + [key])[..|executed|] == executed;
  }

  lemma {:induction false} MergedSkipped(log: seq<Key>, executed: seq<Key>, skipped: seq<Key>, more: seq<Key>)
    requires Merged(log, executed, skipped)
    ensures Merged(log + more, executed, skipped + more)
    decreases |more|
  {
    if more == [] {
      assert log + more == log && skipped + more == skipped;
    } else {
      var init := more[..|more| - 1];
      MergedSkipped(log, executed, skipped, init);
      assert (log + more)[..|log + more| - 1] == log + init;
      assert (skipped + more)[..|skipped + more| - 1] == skipped + init;
    }
  }

  lemma SourcesBeforeSnoc(f: Flow, log: seq<Key>, key: Key)
    requires SourcesBefore(f, log) && SourcesIn(f, log, key)
    ensures SourcesBefore(f, log + [key])
  {
    assert (log + [key])[..|log|] == log;
  }

  ghost predicate Logged(phase: map<Key, Phase>, log: seq<Key>) {
    forall k :: k in log <==> k in phase && phase[k] in {Executed, Skipped}
  }

  lemma LoggedMoved(was: map<Key, Phase>, phase: map<Key, Phase>, ready: seq<Key>, skipped: seq<Key>, log: seq<Key>)
    requires Logged(was, log) && Moved(was, phase, ready, skipped)
    ensures Logged(phase, log + skipped)
  {
    forall k
      ensures k in log + skipped <==> k in phase && phase[k] in {Executed, Skipped}
    {
      assert k in log + skipped <==> k in log || k in skipped;
    }
  }

  /** A node all of whose entering edges are decided comes after all their sources. */
  lemma JoinWaited(f: Flow, outcomes: Key -> Outcome, decided: map<nat, bool>, phase: map<Key, Phase>, log: seq<Key>,
                   key: Key)
    requires f.Valid() && EdgesAgree(f, outcomes, decided, phase) && AllDecided(f, decided, key)
    requires Logged(phase, log)
    ensures SourcesIn(f, log, key)
  {
    forall i | Enter(f, i, key)
      ensures f.edges[i].source in log
    {
      var m: nat := i;
      assert Enter(f, m, key) && m in decided;
    }
  }

  /** Propagates decisions, through nodes that get skipped, until nothing more can be settled. */
  method ResolveReady(f: Flow, keys: seq<Key>, incoming: map<Key, seq<nat>>, outgoing: map<Key, seq<nat>>,
                      wasDecided: map<nat, bool>, wasPending: set<Key>,
                      ghost outcomes: Key -> Outcome, ghost start: Key, ghost was: map<Key, Phase>, ghost log: seq<Key>)
    returns (ready: seq<Key>, skipped: seq<Key>, decided: map<nat, bool>, pending: set<Key>,
             ghost phase: map<Key, Phase>)
    requires f.Valid() && SoleEntry(f, start) && Indexed(f, incoming, outgoing) && Elems(keys) == f.byId.Keys
    requires Sound(f, outcomes, start, wasDecided, wasPending, was) && Logged(was, log) && SourcesBefore(f, log)
    ensures Sound(f, outcomes, start, decided, pending, phase) && Moved(was, phase, ready, skipped)
    ensures Settled(f, decided, pending) && SourcesBefore(f, log + skipped)
  {
    ready, skipped, decided, pending, phase := [], [], wasDecided, wasPending, was;
    assert log + skipped == log;
    var changed := true;
    while changed
      invariant Sound(f, outcomes, start, decided, pending, phase) && Moved(was, phase, ready, skipped)
      invariant (!changed ==> Settled(f, decided, pending)) && SourcesBefore(f, log + skipped)
      decreases pending, changed
    {
      ghost var before := pending;
      ready, skipped, decided, pending, changed, phase :=
        ResolvePass(f, keys, incoming, outgoing, ready, skipped, decided, pending, outcomes, start, was, phase, log);
    }
  }

  /** What a pass does about one node that waits. */
  method PassNode(f: Flow, incoming: map<Key, seq<nat>>, outgoing: map<Key, seq<nat>>, key: Key,
                  wasReady: seq<Key>, wasSkipped: seq<Key>, wasDecided: map<nat, bool>, wasPending: set<Key>,
                  ghost outcomes: Key -> Outcome, ghost start: Key, ghost first: map<Key, Phase>,
                  ghost was: map<Key, Phase>, ghost log: seq<Key>)
    returns (ready: seq<Key>, skipped: seq<Key>, decided: map<nat, bool>, pending: set<Key>, settled: bool,
             ghost phase: map<Key, Phase>)
    requires f.Valid() && SoleEntry(f, start) && Indexed(f, incoming, outgoing) && key in wasPending
    requires Sound(f, outcomes, start, wasDecided, wasPending, was) && Moved(first, was, wasReady, wasSkipped)
    requires Logged(first, log) && SourcesBefore(f, log + wasSkipped)
    ensures Sound(f, outcomes, start, decided, pending, phase) && Moved(first, phase, ready, skipped)
    ensures SourcesBefore(f, log + skipped)
    ensures settled <==> AllDecided(f, wasDecided, key)
    ensures if settled then pending == wasPending - {key} else decided == wasDecided && pending == wasPending
  {
    ready, skipped, decided, pending, phase := wasReady, wasSkipped, wasDecided, wasPending, was;
    var next, now := SettleNode(f, incoming, outgoing, decided, pending, key, outcomes, start, phase);
    settled := next != Waiting;
    if settled {
      MovedOne(first, phase, ready, skipped, key, next);
      SettledAfterItsSources(f, outcomes, decided, first, phase, ready, skipped, log, key);
      decided, pending := now, pending - {key};
      if next == Queued { ready := ready + [key]; } else { skipped := skipped + [key]; }
      phase := phase[key := next];
    }
  }

  /** One pass over all nodes; `changed` tells whether any was settled. */
  method ResolvePass(f: Flow, keys: seq<Key>, incoming: map<Key, seq<nat>>, outgoing: map<Key, seq<nat>>,
                     wasReady: seq<Key>, wasSkipped: seq<Key>, wasDecided: map<nat, bool>, wasPending: set<Key>,
                     ghost outcomes: Key -> Outcome, ghost start: Key, ghost first: map<Key, Phase>,
                     ghost was: map<Key, Phase>, ghost log: seq<Key>)
    returns (ready: seq<Key>, skipped: seq<Key>, decided: map<nat, bool>, pending: set<Key>, changed: bool,
             ghost phase: map<Key, Phase>)
    requires f.Valid() && SoleEntry(f, start) && Indexed(f, incoming, outgoing) && Elems(keys) == f.byId.Keys
    requires Sound(f, outcomes, start, wasDecided, wasPending, was) && Moved(first, was, wasReady, wasSkipped)
    requires Logged(first, log) && SourcesBefore(f, log + wasSkipped)
    ensures Sound(f, outcomes, start, decided, pending, phase) && Moved(first, phase, ready, skipped)
    ensures pending <= wasPending && (changed ==> pending != wasPending)
    ensures (!changed ==> Settled(f, decided, pending)) && SourcesBefore(f, log + skipped)
  {
    ready, skipped, decided, pending, phase := wasReady, wasSkipped, wasDecided, wasPending, was;
    changed := false;
    var n := 0;
    while n < |keys|
      invariant 0 <= n <= |keys| && pending <= wasPending && (changed ==> pending != wasPending)
      invariant Sound(f, outcomes, start, decided, pending, phase) && Moved(first, phase, ready, skipped)
      invariant SourcesBefore(f, log + skipped)
      invariant !changed ==> Unsettled(f, keys, decided, pending, n)
    {
      var key := keys[n];
      if key in pending {
        var settled;
        ready, skipped, decided, pending, settled, phase :=
          PassNode(f, incoming, outgoing, key, ready, skipped, decided, pending, outcomes, start, first, phase, log);
        changed := changed || settled;
      }
      if !changed { UnsettledOneMore(f, keys, decided, pending, n); }
      n := n + 1;
    }
    if !changed { NothingSettles(f, keys, decided, pending); }
  }

  /** The log goes on with a node that is skipped. */
  lemma SettledAfterItsSources(f: Flow, outcomes: Key -> Outcome, decided: map<nat, bool>, first: map<Key, Phase>,
                               phase: map<Key, Phase>, ready: seq<Key>, skipped: seq<Key>, log: seq<Key>, key: Key)
    requires f.Valid() && EdgesAgree(f, outcomes, decided, phase) && AllDecided(f, decided, key)
    requires Logged(first, log) && Moved(first, phase, ready, skipped) && SourcesBefore(f, log + skipped)
    ensures SourcesBefore(f, log + (skipped + [key]))
  {
    LoggedMoved(first, phase, ready, skipped, log);
    JoinWaited(f, outcomes, decided, phase, log + skipped, key);
    SourcesBeforeSnoc(f, log + skipped, key);
    assert log + (skipped + [key]) == log + skipped + [key];
  }

  lemma NothingSettles(f: Flow, keys: seq<Key>, decided: map<nat, bool>, pending: set<Key>)
    requires pending <= Elems(keys)
    requires Unsettled(f, keys, decided, pending, |keys|)
    ensures Settled(f, decided, pending)
  {
  }

  /** None of the first `n` nodes can be settled. */
  ghost predicate Unsettled(f: Flow, keys: seq<Key>, decided: map<nat, bool>, pending: set<Key>, n: nat) {
    forall j :: 0 <= j < n && j < |keys| && keys[j] in pending ==> !AllDecided(f, decided, keys[j])
  }

  lemma UnsettledOneMore(f: Flow, keys: seq<Key>, decided: map<nat, bool>, pending: set<Key>, n: nat)
    requires Unsettled(f, keys, decided, pending, n) && n < |keys|
             && (keys[n] in pending ==> !AllDecided(f, decided, keys[n]))
    ensures Unsettled(f, keys, decided, pending, n + 1)
  {
  }

  /** The positions below `n` of the edges into, or out of, a key. */
  ghost function Into(f: Flow, key: Key, n: nat): seq<nat>
    requires n <= |f.edges|
  {
    if n == 0 then [] else Into(f, key, n - 1) + if f.edges[n - 1].target == key then [n - 1] else []
  }

  ghost function OutOf(f: Flow, key: Key, n: nat): seq<nat>
    requires n <= |f.edges|
  {
    if n == 0 then [] else OutOf(f, key, n - 1) + if f.edges[n - 1].source == key then [n - 1] else []
  }

  lemma {:induction false} IndexMembers(f: Flow, key: Key, n: nat, i: nat)
    requires n <= |f.edges|
    ensures i in Into(f, key, n) <==> i < n && f.edges[i].target == key
    ensures i in OutOf(f, key, n) <==> i < n && f.edges[i].source == key
  {
    if n > 0 { IndexMembers(f, key, n - 1, i); }
  }

  method IndexEdges(f: Flow, keys: seq<Key>) returns (incoming: map<Key, seq<nat>>, outgoing: map<Key, seq<nat>>)
    requires f.Valid() && Elems(keys) == f.byId.Keys
    ensures Indexed(f, incoming, outgoing)
  {
    incoming := map k | k in keys :: [];
    outgoing := map k | k in keys :: [];
    var n := 0;
    while n < |f.edges|
      invariant n <= |f.edges| && ByPosition(f, incoming, outgoing, n)
    {
      AppendPosition(f, incoming, outgoing, n);
      var s, t := f.edges[n].source, f.edges[n].target;
      incoming := incoming[t := incoming[t] + [n]];
      outgoing := outgoing[s := outgoing[s] + [n]];
      n := n + 1;
    }
    IndexedByPosition(f, incoming, outgoing);
  }

  ghost predicate ByPosition(f: Flow, incoming: map<Key, seq<nat>>, outgoing: map<Key, seq<nat>>, n: nat)
    requires n <= |f.edges|
  {
    && incoming.Keys == f.byId.Keys && outgoing.Keys == f.byId.Keys
    && (forall k :: k in incoming ==> incoming[k] == Into(f, k, n))
    && (forall k :: k in outgoing ==> outgoing[k] == OutOf(f, k, n))
  }

  lemma AppendPosition(f: Flow, incoming: map<Key, seq<nat>>, outgoing: map<Key, seq<nat>>, n: nat)
    requires n < |f.edges| && f.edges[n].source in f.byId && f.edges[n].target in f.byId
    requires ByPosition(f, incoming, outgoing, n)
    ensures var s, t := f.edges[n].source, f.edges[n].target;
            ByPosition(f, incoming[t := incoming[t] + [n]], outgoing[s := outgoing[s] + [n]], n + 1)
  {
  }

  lemma IndexedByPosition(f: Flow, incoming: map<Key, seq<nat>>, outgoing: map<Key, seq<nat>>)
    requires ByPosition(f, incoming, outgoing, |f.edges|)
    ensures Indexed(f, incoming, outgoing)
  {
    forall k, i: nat
      ensures k in incoming ==> (i in incoming[k] <==> Enter(f, i, k))
    {
      IndexMembers(f, k, |f.edges|, i);
    }
    forall k, i: nat
      ensures k in outgoing ==> (i in outgoing[k] <==> i < |f.edges| && f.edges[i].source == k)
    {
      IndexMembers(f, k, |f.edges|, i);
    }
  }

  predicate Labelled(edges: seq<Edge>, indexes: seq<nat>, name: string) {
    exists i: nat :: i in indexes && i < |edges| && edges[i].branch == name
  }

  /** The outgoing edges a node selects, as the set the executor tests membership in. */
  method SelectedOutgoing(f: Flow, node: Node, outgoing: seq<nat>, output: Outcome) returns (selected: set<nat>)
    requires output.Output?
    requires forall i: nat :: i in outgoing <==> i < |f.edges| && f.edges[i].source == node.id
    ensures forall i: nat :: i in selected <==> i in outgoing && Selects(node, f.edges, i, output)
    ensures node.kind != Condition ==> forall i: nat :: i in selected <==> i in outgoing
    ensures node.kind == Condition && output.matched && Labelled(f.edges, outgoing, "true") ==>
              forall i: nat :: i in selected <==> i in outgoing && f.edges[i].branch == "true"
    ensures node.kind == Condition && !output.matched && Labelled(f.edges, outgoing, "false") ==>
              forall i: nat :: i in selected <==> i in outgoing && f.edges[i].branch == "false"
    ensures node.kind == Condition && !Labelled(f.edges, outgoing, if output.matched then "true" else "false") ==>
              forall i: nat :: i in selected <==> i in outgoing && f.edges[i].branch == "default"
  {
    if node.kind != Condition {
      return set i: nat | i in outgoing;
    }
    var branch := BranchName(output.matched);
    var matched := set i: nat | i in outgoing && f.edges[i].branch == branch;
    BranchTaken(f, node, outgoing, branch, matched);
    if matched != {} { return matched; }
    return set i: nat | i in outgoing && f.edges[i].branch == "default";
  }

  lemma BranchTaken(f: Flow, node: Node, outgoing: seq<nat>, branch: string, matched: set<nat>)
    requires forall i: nat :: i in outgoing <==> i < |f.edges| && f.edges[i].source == node.id
    requires forall i: nat :: i in matched <==> i in outgoing && f.edges[i].branch == branch
    ensures matched != {} <==> SomeOnBranch(f.edges, node.id, branch)
  {
    if j :| 0 <= j < |f.edges| && OnBranch(f.edges, j, node.id, branch) {
      assert j in matched;
    }
    if matched != {} {
      var j :| j in matched;
      assert OnBranch(f.edges, j, node.id, branch);
    }
  }

  /** The loop invariant of a run: what waits, what is queued, what was executed, what was skipped. */
  ghost predicate Running(f: Flow, outcomes: Key -> Outcome, start: Key, decided: map<nat, bool>, pending: set<Key>,
                          phase: map<Key, Phase>, queue: seq<Key>, executed: seq<Key>, skipped: seq<Key>,
                          log: seq<Key>) {
    && Sound(f, outcomes, start, decided, pending, phase) && Settled(f, decided, pending)
    && Holds(phase, Queued, queue) && Holds(phase, Executed, executed) && Holds(phase, Skipped, skipped)
    && Chronicle(f, log, executed, skipped)
  }

  lemma MovedQueues(was: map<Key, Phase>, phase: map<Key, Phase>, queue: seq<Key>, executed: seq<Key>,
                    skipped: seq<Key>,
                    ready: seq<Key>, newly: seq<Key>)
    requires Holds(was, Queued, queue) && Holds(was, Executed, executed) && Holds(was, Skipped, skipped)
    requires Moved(was, phase, ready, newly)
    ensures Holds(phase, Queued, queue + ready) && Holds(phase, Executed, executed)
            && Holds(phase, Skipped, skipped + newly)
  {
    forall i | 0 <= i < |ready|
      ensures ready[i] !in queue
    {
      assert ready[i] in ready;
    }
    DistinctConcat(queue, ready);
    forall i | 0 <= i < |newly|
      ensures newly[i] !in skipped
    {
      assert newly[i] in newly;
    }
    DistinctConcat(skipped, newly);
  }

  lemma ExecutedOne(phase: map<Key, Phase>, queue: seq<Key>, executed: seq<Key>, skipped: seq<Key>)
    requires queue != [] && Holds(phase, Queued, queue) && Holds(phase, Executed, executed)
             && Holds(phase, Skipped, skipped)
    ensures var now := phase[queue[0] := Executed];
            && Holds(now, Queued, queue[1..]) && Holds(now, Executed, executed + [queue[0]])
            && Holds(now, Skipped, skipped)
  {
    assert queue == [queue[0]] + queue[1..];
    assert queue[0] in queue;
    assert queue[0] !in queue[1..];
    assert queue[0] !in executed;
  }

  lemma ExecuteKeepsSound(f: Flow, outcomes: Key -> Outcome, start: Key, decided: map<nat, bool>, now: map<nat, bool>,
                          pending: set<Key>, phase: map<Key, Phase>, key: Key, selected: set<nat>)
    requires f.Valid() && Sound(f, outcomes, start, decided, pending, phase)
    requires key in phase && phase[key] == Queued && outcomes(key).Output?
    requires Decides(f, decided, now, key, selected)
    requires forall i: nat :: i < |f.edges| && f.edges[i].source == key ==> (i in selected <==> Chosen(f, outcomes, i))
    ensures Sound(f, outcomes, start, now, pending, phase[key := Executed])
    ensures AllDecided(f, decided, key)
  {
    assert Justified(f, outcomes, start, decided, key, phase[key]);
    EdgesAgreeAfter(f, outcomes, decided, now, key, selected, phase, Executed);
    PhaseMoves(f, outcomes, start, decided, phase, key, Executed);
    PhasesStay(f, outcomes, start, decided, now, key, selected, phase[key := Executed]);
  }

  /** A failing node is live; without one, the run ends with every node executed or skipped as `Live` says. */
  ghost predicate Accounts(f: Flow, outcomes: Key -> Outcome, start: Key, state: RunState, executed: seq<Key>,
                           skipped: seq<Key>) {
    && Distinct(executed) && Distinct(skipped)
    && (forall k :: k in executed ==> k in f.byId && Live(f, outcomes, start, k) && outcomes(k).Output?)
    && match state
       case Undecided => false
       case FailedAt(key) => key in f.byId && key !in executed && Live(f, outcomes, start, key) && outcomes(key).Raised?
       case Succeeded =>
         && (forall k :: k in executed <==> Live(f, outcomes, start, k))
         && (forall k :: k in skipped <==> k in f.byId && !Live(f, outcomes, start, k))
  }

  lemma NothingQueued(phase: map<Key, Phase>, k: Key)
    requires Holds(phase, Queued, []) && k in phase
    ensures phase[k] != Queued
  {
    assert phase[k] == Queued <==> k in [];
  }

  /**
   When the queue runs empty nothing waits: a waiting node with no waiting source
   would have had all its edges decided, and the sources cannot go round in a circle.
   */
  lemma NothingLeftWaiting(f: Flow, outcomes: Key -> Outcome, start: Key, decided: map<nat, bool>, pending: set<Key>,
                           phase: map<Key, Phase>, executed: seq<Key>, skipped: seq<Key>, log: seq<Key>)
    requires f.Valid() && !Cyclic(ArcsOf(f.edges))
    requires Running(f, outcomes, start, decided, pending, phase, [], executed, skipped, log)
    ensures pending == {}
  {
    if x :| x in pending {
      var root := RootAbove(ArcsOf(f.edges), pending, x);
      var i: nat :| Enter(f, i, root) && i !in decided;
      EdgeIsArc(f.edges, i);
      var source := f.edges[i].source;
      NothingQueued(phase, source);
      assert false;
    }
  }

  lemma ExecutedAreLive(f: Flow, outcomes: Key -> Outcome, start: Key, decided: map<nat, bool>, pending: set<Key>,
                        phase: map<Key, Phase>, k: Key)
    requires Sound(f, outcomes, start, decided, pending, phase) && k in phase
    ensures phase[k] in {Queued, Executed} ==> Live(f, outcomes, start, k)
    ensures phase[k] == Executed ==> outcomes(k).Output?
  {
    assert Justified(f, outcomes, start, decided, k, phase[k]);
  }

  lemma LiveAreExecuted(f: Flow, outcomes: Key -> Outcome, start: Key, decided: map<nat, bool>,
                        phase: map<Key, Phase>, k: Key)
    requires f.Valid() && SoleEntry(f, start) && start in f.byId
    requires Sound(f, outcomes, start, decided, {}, phase) && Holds(phase, Queued, [])
    requires Live(f, outcomes, start, k)
    ensures k in phase && phase[k] == Executed
  {
    var arcs := ChosenArcs(f, outcomes, |f.edges|);
    var executed := set x | x in phase && phase[x] == Executed;
    assert start in executed by {
      assert Justified(f, outcomes, start, decided, start, phase[start]);
      assert phase[start] == Queued ==> start in [];
      assert SomeEnter(f, start) <==> start != start;
    }
    forall x, y | (x, y) in arcs && x in executed
      ensures y in executed
    {
      var i := ArcIsChosen(f, outcomes, |f.edges|, x, y);
      assert SomeTaken(f, decided, y) by {
        assert Enter(f, i, y) && decided[i];
      }
      assert Justified(f, outcomes, start, decided, y, phase[y]);
      assert phase[y] == Queued ==> y in [];
    }
    ClosedHoldsReachable(arcs, executed, start, k);
  }

  lemma RunAccounts(f: Flow, outcomes: Key -> Outcome, start: Key, decided: map<nat, bool>, pending: set<Key>,
                    phase: map<Key, Phase>, executed: seq<Key>, skipped: seq<Key>, log: seq<Key>)
    requires f.Valid() && !Cyclic(ArcsOf(f.edges)) && SoleEntry(f, start) && start in f.byId
    requires Running(f, outcomes, start, decided, pending, phase, [], executed, skipped, log)
    ensures pending == {} && Accounts(f, outcomes, start, Succeeded, executed, skipped)
  {
    NothingLeftWaiting(f, outcomes, start, decided, pending, phase, executed, skipped, log);
    forall k
      ensures k in executed <==> Live(f, outcomes, start, k)
      ensures k in phase && phase[k] == Executed ==> outcomes(k).Output?
    {
      if k in phase { ExecutedAreLive(f, outcomes, start, decided, pending, phase, k); }
      if Live(f, outcomes, start, k) { LiveAreExecuted(f, outcomes, start, decided, phase, k); }
    }
    forall k | k in phase
      ensures phase[k] in {Executed, Skipped}
    {
      assert phase[k] == Queued ==> k in [];
      assert phase[k] == Waiting ==> k in pending;
    }
  }

  /** In a well-formed workflow the start node, and no other, is entered by no edge. */
  lemma StartIsSoleEntry(nodes: seq<Node>, edges: seq<Edge>)
    requires WellFormed(nodes, edges)
    ensures var f := Flow(ById(nodes), edges);
            f.Valid() && SoleEntry(f, StartOf(nodes)) && StartOf(nodes) in f.byId
  {
    var f, start := Flow(ById(nodes), edges), StartOf(nodes);
    ByIdFinds(nodes);
    assert Elems(Ids(nodes)) == f.byId.Keys;
    forall k | k in f.byId
      ensures SomeEnter(f, k) <==> k != start
    {
      if k == start {
        assert forall i :: Enter(f, i, k) ==> Enters(edges, start);
      } else {
        var n :| 0 <= n < |nodes| && Ids(nodes)[n] == k;
        assert nodes[n].id == k;
        var x := ReachesLastArc(ArcsOf(edges), start, k);
        var i := ArcIsEdge(edges, x, k);
        assert Enter(f, i, k);
      }
    }
    var n :| IsStart(nodes, n) && nodes[n].id == start;
    assert Ids(nodes)[n] in Ids(nodes);
  }

  /** The executor's run of a validated workflow, given what each node would yield. */
  method ExecuteRun(nodes: seq<Node>, edges: seq<Edge>, outcomes: Key -> Outcome)
    returns (state: RunState, executed: seq<Key>, skipped: seq<Key>, ghost log: seq<Key>)
    requires WellFormed(nodes, edges)
    ensures Accounts(Flow(ById(nodes), edges), outcomes, StartOf(nodes), state, executed, skipped)
    ensures Chronicle(Flow(ById(nodes), edges), log, executed, skipped)
  {
    StartIsSoleEntry(nodes, edges);
    ByIdFinds(nodes);
    var f, keys := Flow(ById(nodes), edges), Ids(nodes);
    var pending;
    ghost var decided, phase;
    state, executed, skipped, pending, decided, phase, log := RunFlow(f, keys, outcomes, StartOf(nodes));
    if state == Succeeded {
      RunAccounts(f, outcomes, StartOf(nodes), decided, pending, phase, executed, skipped, log);
      if pending != {} { state := Undecided; }
    }
  }

  lemma NothingDecided(f: Flow, outcomes: Key -> Outcome, start: Key, keys: seq<Key>, waiting: map<Key, Phase>)
    requires Elems(keys) == f.byId.Keys && waiting.Keys == f.byId.Keys
    requires forall k :: k in waiting ==> waiting[k] == Waiting
    ensures Sound(f, outcomes, start, map[], Elems(keys), waiting) && Logged(waiting, []) && SourcesBefore(f, [])
  {
  }

  lemma FirstNodesMoved(waiting: map<Key, Phase>, phase: map<Key, Phase>, queue: seq<Key>, skipped: seq<Key>)
    requires (forall k :: k in waiting ==> waiting[k] == Waiting) && Moved(waiting, phase, queue, skipped)
    ensures Holds(phase, Queued, queue) && Holds(phase, Executed, []) && Holds(phase, Skipped, skipped)
  {
  }

  /** Before the loop: nothing is decided, everything waits, and what can be settled is. */
  method StartRun(f: Flow, keys: seq<Key>, incoming: map<Key, seq<nat>>, outgoing: map<Key, seq<nat>>,
                  ghost outcomes: Key -> Outcome, ghost start: Key)
    returns (queue: seq<Key>, skipped: seq<Key>, decided: map<nat, bool>, pending: set<Key>,
             ghost phase: map<Key, Phase>,
             ghost log: seq<Key>)
    requires f.Valid() && SoleEntry(f, start) && Indexed(f, incoming, outgoing) && Elems(keys) == f.byId.Keys
    ensures Running(f, outcomes, start, decided, pending, phase, queue, [], skipped, log)
  {
    ghost var waiting := map k | k in f.byId :: Waiting;
    NothingDecided(f, outcomes, start, keys, waiting);
    queue, skipped, decided, pending, phase :=
      ResolveReady(f, keys, incoming, outgoing, map[], Elems(keys), outcomes, start, waiting, []);
    FirstNodesMoved(waiting, phase, queue, skipped);
    MergedSkipped([], [], [], skipped);
    assert [] + skipped == skipped;
    log := skipped;
  }

  /** The executor's loop, up to its last check that nothing is left undecided. */
  method RunFlow(f: Flow, keys: seq<Key>, outcomes: Key -> Outcome, ghost start: Key)
    returns (state: RunState, executed: seq<Key>, skipped: seq<Key>, pending: set<Key>,
             ghost edgeState: map<nat, bool>, ghost phase: map<Key, Phase>, ghost log: seq<Key>)
    requires f.Valid() && SoleEntry(f, start) && Elems(keys) == f.byId.Keys
    ensures state.FailedAt? ==> Accounts(f, outcomes, start, state, executed, skipped)
    ensures Chronicle(f, log, executed, skipped)
    ensures !state.FailedAt? ==>
              state == Succeeded && Running(f, outcomes, start, edgeState, pending, phase, [], executed, skipped, log)
  {
    var incoming, outgoing := IndexEdges(f, keys);
    var decided, queue;
    executed, edgeState := [], map[];
    queue, skipped, decided, pending, phase, log := StartRun(f, keys, incoming, outgoing, outcomes, start);
    while queue != []
      invariant Running(f, outcomes, start, decided, pending, phase, queue, executed, skipped, log)
      decreases Unexecuted(f, executed)
    {
      var key := queue[0];
      assert key in queue;
      var output := outcomes(key);
      if output.Raised? {
        FailureAccounts(f, outcomes, start, decided, pending, phase, queue, executed, skipped, log);
        return FailedAt(key), executed, skipped, pending, decided, phase, log;
      }
      queue, executed, skipped, decided, pending, phase, log :=
        ExecuteNode(f, keys, incoming, outgoing, outcomes, start, output, decided, pending, queue, executed, skipped,
                    phase, log);
    }
    state, edgeState := Succeeded, decided;
  }

  lemma FailureAccounts(f: Flow, outcomes: Key -> Outcome, start: Key, decided: map<nat, bool>, pending: set<Key>,
                        phase: map<Key, Phase>, queue: seq<Key>, executed: seq<Key>, skipped: seq<Key>, log: seq<Key>)
    requires Running(f, outcomes, start, decided, pending, phase, queue, executed, skipped, log)
    requires queue != [] && outcomes(queue[0]).Raised?
    ensures Accounts(f, outcomes, start, FailedAt(queue[0]), executed, skipped)
  {
    assert queue[0] in queue;
    forall k | k in executed || k == queue[0]
      ensures k in f.byId && Live(f, outcomes, start, k) && (k in executed ==> outcomes(k).Output?)
    {
      ExecutedAreLive(f, outcomes, start, decided, pending, phase, k);
    }
  }

  /** The log goes on with a node that is executed. */
  lemma ExecutedIsLogged(f: Flow, outcomes: Key -> Outcome, decided: map<nat, bool>, phase: map<Key, Phase>,
                         executed: seq<Key>, skipped: seq<Key>, log: seq<Key>, key: Key)
    requires f.Valid() && EdgesAgree(f, outcomes, decided, phase) && AllDecided(f, decided, key) && key in phase
    requires Holds(phase, Executed, executed) && Holds(phase, Skipped, skipped) && Chronicle(f, log, executed, skipped)
    ensures Chronicle(f, log + [key], executed + [key], skipped) && Logged(phase[key := Executed], log + [key])
  {
    forall k
      ensures k in log <==> k in phase && phase[k] in {Executed, Skipped}
    {
      MergedElems(log, executed, skipped, k);
    }
    JoinWaited(f, outcomes, decided, phase, log, key);
    SourcesBeforeSnoc(f, log, key);
    MergedExecuted(log, executed, skipped, key);
  }

  ghost function Unexecuted(f: Flow, executed: seq<Key>): set<Key> {
    f.byId.Keys - Elems(executed)
  }

  lemma OneLessUnexecuted(f: Flow, executed: seq<Key>, key: Key)
    requires key in f.byId && key !in executed
    ensures Unexecuted(f, executed + [key]) < Unexecuted(f, executed)
  {
    assert key in executed + [key];
    assert key in Unexecuted(f, executed);
  }

  /** The rest of the loop body, once the node at the head of the queue has yielded its output. */
  method ExecuteNode(f: Flow, keys: seq<Key>, incoming: map<Key, seq<nat>>, outgoing: map<Key, seq<nat>>,
                     ghost outcomes: Key -> Outcome, ghost start: Key, output: Outcome,
                     wasDecided: map<nat, bool>, wasPending: set<Key>,
                     wasQueue: seq<Key>, wasExecuted: seq<Key>, wasSkipped: seq<Key>, ghost was: map<Key, Phase>,
                     ghost wasLog: seq<Key>)
    returns (queue: seq<Key>, executed: seq<Key>, skipped: seq<Key>, decided: map<nat, bool>, pending: set<Key>,
             ghost phase: map<Key, Phase>, ghost log: seq<Key>)
    requires f.Valid() && SoleEntry(f, start) && Indexed(f, incoming, outgoing) && Elems(keys) == f.byId.Keys
    requires wasQueue != [] && output.Output? && output == outcomes(wasQueue[0])
    requires Running(f, outcomes, start, wasDecided, wasPending, was, wasQueue, wasExecuted, wasSkipped, wasLog)
    ensures Running(f, outcomes, start, decided, pending, phase, queue, executed, skipped, log)
    ensures executed == wasExecuted + [wasQueue[0]] && Unexecuted(f, executed) < Unexecuted(f, wasExecuted)
  {
    var key := wasQueue[0];
    assert key in wasQueue;
    OneLessUnexecuted(f, wasExecuted, key);
    executed := wasExecuted + [key];
    var selected := SelectedOutgoing(f, f.byId[key], outgoing[key], output);
    decided := DecideOutgoing(f, wasDecided, outgoing[key], selected);
    NoEdgeDecidedEarly(f, outcomes, wasDecided, was, key);
    ExecuteKeepsSound(f, outcomes, start, wasDecided, decided, wasPending, was, key, selected);
    ExecutedIsLogged(f, outcomes, wasDecided, was, wasExecuted, wasSkipped, wasLog, key);
    ExecutedOne(was, wasQueue, wasExecuted, wasSkipped);
    ghost var now := was[key := Executed];
    log := wasLog + [key];
    var ready, newly;
    ready, newly, decided, pending, phase :=
      ResolveReady(f, keys, incoming, outgoing, decided, wasPending, outcomes, start, now, log);
    MovedQueues(now, phase, wasQueue[1..], executed, wasSkipped, ready, newly);
    MergedSkipped(log, executed, wasSkipped, newly);
    log := log + newly;
    queue, skipped := wasQueue[1..] + ready, wasSkipped + newly;
  }

  /** A run succeeds exactly when no node it is meant to execute raises. */
  lemma FailsOnlyOnLiveNodes(f: Flow, outcomes: Key -> Outcome, start: Key, state: RunState, executed: seq<Key>,
                             skipped: seq<Key>)
    requires Accounts(f, outcomes, start, state, executed, skipped)
    ensures state == Succeeded <==> forall k :: Live(f, outcomes, start, k) ==> outcomes(k).Output?
  {
  }
}

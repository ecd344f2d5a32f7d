/**
 Which branches a run takes, in the labels of its edges.

 A condition that matched goes along its edges labelled "true" and one that did not along
 those labelled "false"; without such an edge it goes along those labelled "default".  What a
 succeeded run executes is the start and whatever these edges enter, and nothing else.
 */
module ApiBranches {
  import opened Graphs
  import opened ApiGraph
  import opened ApiExecution

  predicate LabelledOut(f: Flow, key: Key, name: string) {
    exists i :: 0 <= i < |f.edges| && f.edges[i].source == key && f.edges[i].branch == name
  }

  /** A run that executes the source of edge `i` goes along it. */
  ghost predicate Follows(f: Flow, outcomes: Key -> Outcome, i: nat) {
    i < |f.edges| && f.edges[i].source in f.byId && outcomes(f.edges[i].source).Output? &&
    var key, name, matched := f.edges[i].source, f.edges[i].branch, outcomes(f.edges[i].source).matched;
    f.byId[key].kind == Condition ==>
      (matched && name == "true") || (!matched && name == "false")
      || (name == "default" && matched && !LabelledOut(f, key, "true"))
      || (name == "default" && !matched && !LabelledOut(f, key, "false"))
  }

  lemma ChosenIsFollowed(f: Flow, outcomes: Key -> Outcome, i: nat)
    requires f.Valid() && i < |f.edges|
    ensures Chosen(f, outcomes, i) <==> Follows(f, outcomes, i)
  {
    var key := f.edges[i].source;
    WantedEdge(f, key, "true");
    WantedEdge(f, key, "false");
  }

  lemma WantedEdge(f: Flow, key: Key, name: string)
    ensures SomeOnBranch(f.edges, key, name) <==> LabelledOut(f, key, name)
  {
    if j :| 0 <= j < |f.edges| && f.edges[j].source == key && f.edges[j].branch == name {
      assert OnBranch(f.edges, j, key, name);
    }
    if j :| 0 <= j < |f.edges| && OnBranch(f.edges, j, key, name) {
      assert f.edges[j].source == key;
    }
  }

  /** Edge `i` brings the run from an executed node to this one. */
  ghost predicate Brings(f: Flow, outcomes: Key -> Outcome, executed: seq<Key>, i: nat, key: Key) {
    i < |f.edges| && f.edges[i].target == key && f.edges[i].source in executed && Follows(f, outcomes, i)
  }

  /** The nodes a succeeded run executes are the start and exactly those that an edge brings it to. */
  lemma ExecutedIffBrought(f: Flow, outcomes: Key -> Outcome, start: Key, executed: seq<Key>, skipped: seq<Key>,
                           key: Key)
    requires f.Valid() && Accounts(f, outcomes, start, Succeeded, executed, skipped)
    ensures key in executed <==> key == start || exists i: nat :: Brings(f, outcomes, executed, i, key)
  {
    var arcs := ChosenArcs(f, outcomes, |f.edges|);
    ReachesSelf(arcs, start);
    if key in executed && key != start {
      var p :| IsWalk(arcs, p) && p[0] == start && p[|p| - 1] == key;
      var before := p[|p| - 2];
      WalkPrefix(arcs, p);
      var i := ArcIsChosen(f, outcomes, |f.edges|, before, key);
      ChosenIsFollowed(f, outcomes, i);
      assert Live(f, outcomes, start, before);
      assert Brings(f, outcomes, executed, i, key);
    }
    if i: nat :| Brings(f, outcomes, executed, i, key) {
      ChosenIsFollowed(f, outcomes, i);
      ChosenIsArc(f, outcomes, |f.edges|, i);
      ReachesArc(arcs, start, f.edges[i].source, key);
    }
  }

  lemma WalkPrefix(arcs: Arcs, p: seq<Key>)
    requires IsWalk(arcs, p) && |p| >= 2
    ensures Reaches(arcs, p[0], p[|p| - 2]) && (p[|p| - 2], p[|p| - 1]) in arcs
  {
    var q := p[..|p| - 1];
    assert IsWalk(arcs, q) && q[0] == p[0] && q[|q| - 1] == p[|p| - 2];
    assert (p[|p| - 2], p[|p| - 2 + 1]) in arcs;
  }

  /**
   The branch that a condition rejects is not run on its account: a node behind it is executed only if the run is
   brought there by another edge.
   */
  lemma RejectedBranchIsNotRun(f: Flow, outcomes: Key -> Outcome, start: Key, executed: seq<Key>, skipped: seq<Key>,
                               j: nat)
    requires f.Valid() && Accounts(f, outcomes, start, Succeeded, executed, skipped)
    requires j < |f.edges| && f.edges[j].source in executed && f.byId[f.edges[j].source].kind == Condition
    requires f.edges[j].branch != (if outcomes(f.edges[j].source).matched then "true" else "false")
    requires f.edges[j].branch != "default"
    requires f.edges[j].target in executed && f.edges[j].target != start
    ensures exists i: nat :: i != j && Brings(f, outcomes, executed, i, f.edges[j].target)
  {
    ExecutedIffBrought(f, outcomes, start, executed, skipped, f.edges[j].target);
    var i: nat :| Brings(f, outcomes, executed, i, f.edges[j].target);
    assert i != j;
  }

  /** The branch that a condition takes is run: with an edge for its outcome those edges, and otherwise the defaults. */
  lemma TakenBranchIsRun(f: Flow, outcomes: Key -> Outcome, start: Key, executed: seq<Key>, skipped: seq<Key>, j: nat)
    requires f.Valid() && Accounts(f, outcomes, start, Succeeded, executed, skipped)
    requires j < |f.edges| && f.edges[j].source in executed && f.byId[f.edges[j].source].kind == Condition
    requires var wanted := if outcomes(f.edges[j].source).matched then "true" else "false";
             f.edges[j].branch == wanted
             || (f.edges[j].branch == "default" && !LabelledOut(f, f.edges[j].source, wanted))
    ensures f.edges[j].target in executed
  {
    ExecutedIffBrought(f, outcomes, start, executed, skipped, f.edges[j].target);
    assert Brings(f, outcomes, executed, j, f.edges[j].target);
  }
}

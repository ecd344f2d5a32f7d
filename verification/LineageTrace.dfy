/**
 Tracing the lineage of a data asset, breadth first over the stored edges, up to
 a depth between 1 and 20, upstream or downstream, for one batch or for all.
 Lineage may be any graph, with cycles and parallel edges.
 */
module LineageTrace {
  import opened Basics
  import opened Graphs

  datatype Asset = Asset(id: int)

  datatype Edge = Edge(source: Asset, target: Asset, batch: int)

  /** The stored edges, and which of them the trace follows in which direction. */
  datatype Lineage = Lineage(edges: seq<Edge>, upstream: bool, batch: Option<int>)

  predicate Picks(g: Lineage, i: int) {
    0 <= i < |g.edges| && (g.batch.None? || g.edges[i].batch == g.batch.value)
  }

  function Near(g: Lineage, i: int): Asset
    requires 0 <= i < |g.edges|
  {
    if g.upstream then g.edges[i].target else g.edges[i].source
  }

  function Far(g: Lineage, i: int): Asset
    requires 0 <= i < |g.edges|
  {
    if g.upstream then g.edges[i].source else g.edges[i].target
  }

  function Depth(maxDepth: int): nat {
    if maxDepth < 1 then 1 else if maxDepth > 20 then 20 else maxDepth
  }

  // ---- distance -----------------------------------------------------------------------------------------

  /** The edges of `path`, followed one after the other, lead from `root` to `x`. */
  ghost predicate Leads(g: Lineage, root: Asset, path: seq<int>, x: Asset)
    decreases |path|
  {
    if path == [] then x == root else
      var last := path[|path| - 1];
      Picks(g, last) && Far(g, last) == x && Leads(g, root, path[..|path| - 1], Near(g, last))
  }

  ghost predicate Within(g: Lineage, root: Asset, x: Asset, d: nat) {
    exists path :: |path| <= d && Leads(g, root, path, x)
  }

  /** The same by recursion on the distance, as the loop finds it. */
  ghost predicate Ball(g: Lineage, root: Asset, x: Asset, d: nat)
    decreases d
  {
    if d == 0 then x == root
    else Ball(g, root, x, d - 1) || exists i :: Picks(g, i) && Far(g, i) == x && Ball(g, root, Near(g, i), d - 1)
  }

  ghost predicate Enters(g: Lineage, root: Asset, i: int, x: Asset, d: nat) {
    Picks(g, i) && Far(g, i) == x && Ball(g, root, Near(g, i), d)
  }

  lemma EntersByAnEdge(g: Lineage, root: Asset, x: Asset, d: nat)
    ensures Ball(g, root, x, d + 1) <==> Ball(g, root, x, d) || exists i :: Enters(g, root, i, x, d)
  {
    if Ball(g, root, x, d + 1) && !Ball(g, root, x, d) {
      var i :| Picks(g, i) && Far(g, i) == x && Ball(g, root, Near(g, i), d);
      assert Enters(g, root, i, x, d);
    }
    if i :| Enters(g, root, i, x, d) {
      assert Picks(g, i);
    }
  }

  lemma {:induction false} PathIsInBall(g: Lineage, root: Asset, path: seq<int>, x: Asset, d: nat)
    requires |path| <= d && Leads(g, root, path, x)
    ensures Ball(g, root, x, d)
    decreases d
  {
    if path == [] {
      if d > 0 {
        PathIsInBall(g, root, path, x, d - 1);
      }
    } else {
      var last := path[|path| - 1];
      PathIsInBall(g, root, path[..|path| - 1], Near(g, last), d - 1);
      assert Picks(g, last);
    }
  }

  lemma {:induction false} BallHasPath(g: Lineage, root: Asset, x: Asset, d: nat) returns (path: seq<int>)
    requires Ball(g, root, x, d)
    ensures |path| <= d && Leads(g, root, path, x)
    decreases d
  {
    if d == 0 {
      path := [];
    } else if Ball(g, root, x, d - 1) {
      path := BallHasPath(g, root, x, d - 1);
    } else {
      EntersByAnEdge(g, root, x, d - 1);
      var i :| Enters(g, root, i, x, d - 1);
      var init := BallHasPath(g, root, Near(g, i), d - 1);
      path := init + [i];
      assert path[..|path| - 1] == init;
    }
  }

  lemma BallIsWithin(g: Lineage, root: Asset, x: Asset, d: nat)
    ensures Ball(g, root, x, d) <==> Within(g, root, x, d)
  {
    if Ball(g, root, x, d) {
      var path := BallHasPath(g, root, x, d);
    }
    if Within(g, root, x, d) {
      var path :| |path| <= d && Leads(g, root, path, x);
      PathIsInBall(g, root, path, x, d);
    }
  }

  /** Once a step finds nothing new, no later step does. */
  lemma {:induction false} StillBall(g: Lineage, root: Asset, x: Asset, d: nat, n: nat)
    requires d <= n && forall y :: Ball(g, root, y, d + 1) ==> Ball(g, root, y, d)
    ensures Ball(g, root, x, n) <==> Ball(g, root, x, d)
    decreases n
  {
    if d < n {
      var m := n - 1;
      StillBall(g, root, x, d, m);
      EntersByAnEdge(g, root, x, m);
      if i :| Enters(g, root, i, x, m) {
        StillBall(g, root, Near(g, i), d, m);
        assert Enters(g, root, i, x, d);
        EntersByAnEdge(g, root, x, d);
      }
    }
  }

  // ---- the trace ------------------------------------------------------------------------------------------

  predicate Leaves(g: Lineage, i: int, frontier: set<Asset>) {
    Picks(g, i) && Near(g, i) in frontier
  }

  predicate LeavesTo(g: Lineage, i: int, frontier: set<Asset>, x: Asset) {
    Leaves(g, i, frontier) && Far(g, i) == x
  }

  /** One level: every edge that leaves the frontier, and the assets seen there for the first time. */
  method Expand(g: Lineage, frontier: set<Asset>, was: set<Asset>, found: seq<int>)
    returns (seen: set<Asset>, next: set<Asset>, more: seq<int>)
    requires Distinct(found) && forall k :: 0 <= k < |found| ==> !Leaves(g, found[k], frontier)
    ensures Distinct(more) && forall i :: i in more <==> i in found || Leaves(g, i, frontier)
    ensures forall x :: x in seen <==> x in was || exists i :: LeavesTo(g, i, frontier, x)
    ensures next == seen - was
  {
    seen, next, more := was, {}, found;
    for n := 0 to |g.edges|
      invariant Distinct(more) && forall i :: i in more <==> i in found || (i < n && Leaves(g, i, frontier))
      invariant forall x :: x in seen <==> x in was || exists i :: i < n && LeavesTo(g, i, frontier, x)
      invariant next == seen - was
    {
      if Picks(g, n) && Near(g, n) in frontier {
        assert Leaves(g, n, frontier) && n !in found;
        more := more + [n];
        var other := Far(g, n);
        assert LeavesTo(g, n, frontier, other);
        if other !in seen {
          seen, next := seen + {other}, next + {other};
        }
      }
    }
  }

  /** What the first `d` levels have seen, left to visit, and listed. */
  ghost predicate Traced(g: Lineage, root: Asset, d: nat, seen: set<Asset>, frontier: set<Asset>, found: seq<int>) {
    (forall x :: x in seen <==> Ball(g, root, x, d))
    && (forall x :: x in frontier <==> Ball(g, root, x, d) && (d == 0 || !Ball(g, root, x, d - 1)))
    && Distinct(found)
    && (forall i :: i in found <==> d > 0 && Picks(g, i) && Ball(g, root, Near(g, i), d - 1))
  }

  lemma LevelAddsOne(g: Lineage, root: Asset, d: nat, was: set<Asset>, frontier: set<Asset>, found: seq<int>,
                     seen: set<Asset>, next: set<Asset>, more: seq<int>)
    requires Traced(g, root, d, was, frontier, found)
    requires Distinct(more) && forall i :: i in more <==> i in found || Leaves(g, i, frontier)
    requires forall x :: x in seen <==> x in was || exists i :: LeavesTo(g, i, frontier, x)
    requires next == seen - was
    ensures Traced(g, root, d + 1, seen, next, more)
  {
    forall x
      ensures x in seen <==> Ball(g, root, x, d + 1)
    {
      EntersByAnEdge(g, root, x, d);
      if x in seen && x !in was {
        var i :| LeavesTo(g, i, frontier, x);
        assert Enters(g, root, i, x, d);
      }
      if i :| Enters(g, root, i, x, d) {
        if Near(g, i) in frontier {
          assert LeavesTo(g, i, frontier, x);
        } else {
          assert Enters(g, root, i, x, d - 1);
          EntersByAnEdge(g, root, x, d - 1);
        }
      }
    }
  }

  /**
   The assets within the clamped depth of the root, and each edge whose near end is closer than that
   exactly once.
   */
  method TraceLineage(g: Lineage, root: Asset, maxDepth: int) returns (assets: set<Asset>, listed: seq<int>)
    ensures forall x :: x in assets <==> Within(g, root, x, Depth(maxDepth))
    ensures Distinct(listed)
    ensures forall i :: i in listed <==> Picks(g, i) && Within(g, root, Near(g, i), Depth(maxDepth) - 1)
  {
    var frontier := {root};
    assets, listed := {root}, [];
    ghost var reached := 0;
    for d := 0 to Depth(maxDepth)
      invariant reached <= Depth(maxDepth) && Traced(g, root, reached, assets, frontier, listed)
      invariant reached == d
    {
      if frontier == {} { break; }
      ghost var was, last, found := assets, frontier, listed;
      LeavesNoListed(g, root, d, assets, frontier, listed);
      assets, frontier, listed := Expand(g, frontier, assets, listed);
      LevelAddsOne(g, root, d, was, last, found, assets, frontier, listed);
      reached := reached + 1;
    }
    TraceIsComplete(g, root, reached, Depth(maxDepth), assets, frontier, listed);
  }

  lemma LeavesNoListed(g: Lineage, root: Asset, d: nat, seen: set<Asset>, frontier: set<Asset>, found: seq<int>)
    requires Traced(g, root, d, seen, frontier, found)
    ensures forall k :: 0 <= k < |found| ==> !Leaves(g, found[k], frontier)
  {
    forall k | 0 <= k < |found|
      ensures !Leaves(g, found[k], frontier)
    {
      assert found[k] in found;
    }
  }

  /** A trace that stopped early, because it found nothing new, is the whole trace. */
  lemma TraceIsComplete(g: Lineage, root: Asset, d: nat, n: nat, seen: set<Asset>, frontier: set<Asset>,
                        found: seq<int>)
    requires Traced(g, root, d, seen, frontier, found) && 1 <= n && d <= n && (d == n || frontier == {})
    ensures forall x :: x in seen <==> Within(g, root, x, n)
    ensures forall i :: i in found <==> Picks(g, i) && Within(g, root, Near(g, i), n - 1)
  {
    if d < n {
      assert root !in frontier;
      assert d > 0;
    }
    forall x
      ensures x in seen <==> Within(g, root, x, n)
    {
      StopsAt(g, root, d, n, seen, frontier, found, x);
    }
    forall i | Picks(g, i)
      ensures i in found <==> Within(g, root, Near(g, i), n - 1)
    {
      StopsAt(g, root, d, n, seen, frontier, found, Near(g, i));
    }
  }

  lemma StopsAt(g: Lineage, root: Asset, d: nat, n: nat, seen: set<Asset>, frontier: set<Asset>, found: seq<int>,
                x: Asset)
    requires Traced(g, root, d, seen, frontier, found) && 1 <= n && 0 < d <= n && (d == n || frontier == {})
    ensures (Ball(g, root, x, d) <==> Within(g, root, x, n)) && (Ball(g, root, x, d - 1) <==> Within(g, root, x, n - 1))
  {
    BallIsWithin(g, root, x, n);
    BallIsWithin(g, root, x, n - 1);
    if d < n {
      NothingNew(g, root, d, seen, frontier, found);
      StillBall(g, root, x, d - 1, n);
      StillBall(g, root, x, d - 1, n - 1);
      StillBall(g, root, x, d - 1, d);
    }
  }

  lemma NothingNew(g: Lineage, root: Asset, d: nat, seen: set<Asset>, frontier: set<Asset>, found: seq<int>)
    requires Traced(g, root, d, seen, frontier, found) && frontier == {} && d > 0
    ensures forall y :: Ball(g, root, y, d) ==> Ball(g, root, y, d - 1)
  {
    forall y | Ball(g, root, y, d)
      ensures Ball(g, root, y, d - 1)
    {
      assert y !in frontier;
    }
  }
}

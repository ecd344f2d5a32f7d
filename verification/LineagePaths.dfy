/**
 What a trace shows, in the flow of data: upstream the assets from which data comes to the
 root, downstream those to which it goes.
 */
module LineagePaths {
  import opened Basics
  import opened LineageTrace

  predicate IsStored(g: Lineage, i: int, source: Asset, target: Asset) {
    0 <= i < |g.edges| && g.edges[i].source == source && g.edges[i].target == target
    && (g.batch.Some? ==> g.edges[i].batch == g.batch.value)
  }

  /** Data flows from `source` to `target` by a stored edge, of the batch if one is named. */
  ghost predicate Feeds(g: Lineage, source: Asset, target: Asset) {
    exists i :: IsStored(g, i, source, target)
  }

  /** Data flows along `p`. */
  ghost predicate Flows(g: Lineage, p: seq<Asset>) {
    |p| > 0 && forall k :: 0 <= k < |p| - 1 ==> Feeds(g, p[k], p[k + 1])
  }

  ghost predicate FlowsWithin(g: Lineage, source: Asset, target: Asset, d: nat) {
    exists p :: Flows(g, p) && |p| <= d + 1 && p[0] == source && p[|p| - 1] == target
  }

  // ---- a traced path is a flow --------------------------------------------------------------------------

  lemma FlowsBefore(g: Lineage, source: Asset, p: seq<Asset>)
    requires Flows(g, p) && Feeds(g, source, p[0])
    ensures Flows(g, [source] + p)
  {
    var q := [source] + p;
    forall k | 0 <= k < |q| - 1
      ensures Feeds(g, q[k], q[k + 1])
    {
      if k > 0 { assert q[k] == p[k - 1] && q[k + 1] == p[k - 1 + 1]; }
    }
  }

  lemma FlowsAfter(g: Lineage, p: seq<Asset>, target: Asset)
    requires Flows(g, p) && Feeds(g, p[|p| - 1], target)
    ensures Flows(g, p + [target])
  {
    var q := p + [target];
    forall k | 0 <= k < |q| - 1
      ensures Feeds(g, q[k], q[k + 1])
    {
      if k < |p| - 1 { assert q[k] == p[k] && q[k + 1] == p[k + 1]; }
    }
  }

  lemma {:induction false} UpstreamPathFlows(g: Lineage, root: Asset, path: seq<int>, x: Asset) returns (p: seq<Asset>)
    requires g.upstream && Leads(g, root, path, x)
    ensures Flows(g, p) && |p| == |path| + 1 && p[0] == x && p[|p| - 1] == root
    decreases |path|
  {
    if path == [] {
      p := [root];
    } else {
      var last := path[|path| - 1];
      var rest := UpstreamPathFlows(g, root, path[..|path| - 1], Near(g, last));
      assert IsStored(g, last, x, rest[0]);
      FlowsBefore(g, x, rest);
      p := [x] + rest;
    }
  }

  lemma {:induction false} DownstreamPathFlows(g: Lineage, root: Asset, path: seq<int>, x: Asset)
    returns (p: seq<Asset>)
    requires !g.upstream && Leads(g, root, path, x)
    ensures Flows(g, p) && |p| == |path| + 1 && p[0] == root && p[|p| - 1] == x
    decreases |path|
  {
    if path == [] {
      p := [root];
    } else {
      var last := path[|path| - 1];
      var rest := DownstreamPathFlows(g, root, path[..|path| - 1], Near(g, last));
      assert IsStored(g, last, rest[|rest| - 1], x);
      FlowsAfter(g, rest, x);
      p := rest + [x];
    }
  }

  // ---- a flow is traced -----------------------------------------------------------------------------------

  lemma {:induction false} UpstreamFlowLeads(g: Lineage, p: seq<Asset>) returns (path: seq<int>)
    requires g.upstream && Flows(g, p)
    ensures |path| == |p| - 1 && Leads(g, p[|p| - 1], path, p[0])
    decreases |p|
  {
    if |p| == 1 {
      path := [];
    } else {
      var rest := p[1..];
      assert Feeds(g, p[0], p[0 + 1]);
      var i :| IsStored(g, i, p[0], p[1]);
      forall k | 0 <= k < |rest| - 1
        ensures Feeds(g, rest[k], rest[k + 1])
      {
        assert Feeds(g, p[k + 1], p[k + 1 + 1]);
      }
      var init := UpstreamFlowLeads(g, rest);
      path := init + [i];
      assert path[..|path| - 1] == init;
    }
  }

  lemma {:induction false} DownstreamFlowLeads(g: Lineage, p: seq<Asset>) returns (path: seq<int>)
    requires !g.upstream && Flows(g, p)
    ensures |path| == |p| - 1 && Leads(g, p[0], path, p[|p| - 1])
    decreases |p|
  {
    if |p| == 1 {
      path := [];
    } else {
      var n := |p| - 1;
      var rest := p[..n];
      assert Feeds(g, p[n - 1], p[n - 1 + 1]);
      var i :| IsStored(g, i, p[n - 1], p[n]);
      assert Flows(g, rest);
      var init := DownstreamFlowLeads(g, rest);
      path := init + [i];
      assert path[..|path| - 1] == init;
    }
  }

  // ---- what a trace shows -----------------------------------------------------------------------------------

  /**
   Upstream, an asset is within the distance exactly if data flows from it to the root by that many edges or
   fewer.
   */
  lemma UpstreamShowsSources(g: Lineage, root: Asset, x: Asset, d: nat)
    requires g.upstream
    ensures Within(g, root, x, d) <==> FlowsWithin(g, x, root, d)
  {
    if Within(g, root, x, d) {
      var path :| |path| <= d && Leads(g, root, path, x);
      var p := UpstreamPathFlows(g, root, path, x);
    }
    if FlowsWithin(g, x, root, d) {
      var p :| Flows(g, p) && |p| <= d + 1 && p[0] == x && p[|p| - 1] == root;
      var path := UpstreamFlowLeads(g, p);
    }
  }

  /** Downstream, exactly if data flows from the root to it. */
  lemma DownstreamShowsTargets(g: Lineage, root: Asset, x: Asset, d: nat)
    requires !g.upstream
    ensures Within(g, root, x, d) <==> FlowsWithin(g, root, x, d)
  {
    if Within(g, root, x, d) {
      var path :| |path| <= d && Leads(g, root, path, x);
      var p := DownstreamPathFlows(g, root, path, x);
    }
    if FlowsWithin(g, root, x, d) {
      var p :| Flows(g, p) && |p| <= d + 1 && p[0] == root && p[|p| - 1] == x;
      var path := DownstreamFlowLeads(g, p);
    }
  }

  lemma FlowIgnoresDirection(g: Lineage, h: Lineage, source: Asset, target: Asset, d: nat)
    requires g.edges == h.edges && g.batch == h.batch
    ensures FlowsWithin(g, source, target, d) ==> FlowsWithin(h, source, target, d)
  {
    if p :| Flows(g, p) && |p| <= d + 1 && p[0] == source && p[|p| - 1] == target {
      forall k | 0 <= k < |p| - 1
        ensures Feeds(h, p[k], p[k + 1])
      {
        assert Feeds(g, p[k], p[k + 1]);
        var i :| IsStored(g, i, p[k], p[k + 1]);
        assert IsStored(h, i, p[k], p[k + 1]);
      }
      assert Flows(h, p);
    }
  }

  /** The two directions agree: one asset is upstream of another exactly if that one is downstream of it. */
  lemma DirectionsAgree(edges: seq<Edge>, batch: Option<int>, a: Asset, b: Asset, d: nat)
    ensures Within(Lineage(edges, true, batch), a, b, d) <==> Within(Lineage(edges, false, batch), b, a, d)
  {
    var up, down := Lineage(edges, true, batch), Lineage(edges, false, batch);
    UpstreamShowsSources(up, a, b, d);
    DownstreamShowsTargets(down, b, a, d);
    FlowIgnoresDirection(up, down, b, a, d);
    FlowIgnoresDirection(down, up, b, a, d);
  }

  /** The depth asked for, but at least one level and at most twenty. */
  lemma DepthIsClamped(maxDepth: int)
    ensures 1 <= maxDepth <= 20 ==> Depth(maxDepth) == maxDepth
    ensures maxDepth <= 0 ==> Depth(maxDepth) == 1
    ensures maxDepth >= 21 ==> Depth(maxDepth) == 20
  {
  }
}

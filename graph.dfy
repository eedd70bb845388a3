/**
  The relationship graph shown for the selected meta-alerts.

  Each selected meta-alert gives a node; its groups hang below it and each
  group's alerts below the group, with a two-tier collapse for large fan-out.
  Node ids on the page are strings ("MA"+id, "G"+id, "A"+id, "<n> Groups",
  "<n> Alerts"); the five string families cannot collide for numeric ids, so
  they are a datatype here. Summary ids carry only a count, so two summaries
  with the same count are the same id, as on the page. Nodes are not
  deduplicated: the lists are exactly what was pushed, in push order.
*/
module GraphBuilder {
  import opened Wrappers
  import opened Docs

  /** A meta-alert with more groups than this collapses its groups into two summary nodes. */
  const GroupCollapseAbove: nat := 11

  /** A group with at least this many alerts collapses them into one summary node. */
  const AlertCollapseFrom: nat := 11

  datatype NodeId =
    | MA(id: Id)
    | G(id: Id)
    | A(id: Id)
    | GroupsSummary(count: int)
    | AlertsSummary(count: int)

  datatype Link = Link(source: NodeId, target: NodeId)

  /** `{nodes, links}` in push order. */
  datatype Graph = Graph(nodes: seq<NodeId>, links: seq<Link>)

  const Empty: Graph := Graph([], [])

  function Join(a: Graph, b: Graph): Graph
  {
    Graph(a.nodes + b.nodes, a.links + b.links)
  }

  /** The nodes and links one group pushes for its alert list. */
  function AlertLayer(g: NodeId, ids: seq<Id>): (r: Graph)
    ensures |r.nodes| == |r.links| && forall k :: 0 <= k < |r.links| ==> r.links[k] == Link(g, r.nodes[k])
    ensures |ids| < AlertCollapseFrom ==> |r.nodes| == |ids| && forall i :: 0 <= i < |ids| ==> r.nodes[i] == A(ids[i])
    ensures |ids| >= AlertCollapseFrom ==> r.nodes == [AlertsSummary(|ids|)]
  {
    if |ids| < AlertCollapseFrom then
      Graph(seq(|ids|, i requires 0 <= i < |ids| => A(ids[i])),
            seq(|ids|, i requires 0 <= i < |ids| => Link(g, A(ids[i]))))
    else
      Graph([AlertsSummary(|ids|)], [Link(g, AlertsSummary(|ids|))])
  }

  /** What one group of an uncollapsed meta-alert pushes; a null alert list pushes nothing below the group. */
  function GroupLayer(ma: NodeId, t: GroupTuple): (r: Graph)
    ensures |r.nodes| == |r.links| && 1 <= |r.nodes| <= AlertCollapseFrom as int
    ensures r.nodes[0] == G(t.groupId) && r.links[0] == Link(ma, G(t.groupId))
    ensures t.alertIds.None? ==> |r.nodes| == 1
  {
    var g := G(t.groupId);
    Join(Graph([g], [Link(ma, g)]), if t.alertIds.Some? then AlertLayer(g, t.alertIds.value) else Empty)
  }

  /** What the groups of an uncollapsed meta-alert push, in order. */
  function GroupsLayer(ma: NodeId, ts: seq<GroupTuple>): (r: Graph)
    ensures |r.nodes| == |r.links| <= (AlertCollapseFrom as int) * |ts|
  {
    if ts == [] then Empty else Join(GroupsLayer(ma, ts[..|ts| - 1]), GroupLayer(ma, ts[|ts| - 1]))
  }

  /**
    The `alert_count +=` accumulation over a collapsed meta-alert's groups;
    `None` when an alert list is null, where reading its length throws.
  */
  function TotalAlerts(ts: seq<GroupTuple>): (r: Option<int>)
    ensures r.Some? <==> forall i :: 0 <= i < |ts| ==> ts[i].alertIds.Some?
    ensures r.Some? ==> r.value >= 0
  {
    if ts == [] then Some(0)
    else
      var last := ts[|ts| - 1];
      match TotalAlerts(ts[..|ts| - 1])
      case None => None
      case Some(n) => if last.alertIds.None? then None else Some(n + |last.alertIds.value|)
  }

  /** What one selected meta-alert pushes; `None` when building it throws. */
  function MetaGraph(m: Meta): (r: Option<Graph>)
    ensures r.None? <==>
      m.groupIds.Some? && |m.groupIds.value| > GroupCollapseAbove as int && TotalAlerts(m.groupIds.value).None?
    ensures r.Some? ==> |r.value.nodes| >= 1 && r.value.nodes[0] == MA(m.id) && |r.value.links| == |r.value.nodes| - 1
  {
    var ma := MA(m.id);
    if m.groupIds.None? then Some(Graph([ma], []))
    else if |m.groupIds.value| > GroupCollapseAbove then
      var gs := GroupsSummary(|m.groupIds.value|);
      match TotalAlerts(m.groupIds.value)
      case None => None
      case Some(total) =>
        Some(Graph([ma, gs, AlertsSummary(total)], [Link(ma, gs), Link(gs, AlertsSummary(total))]))
    else
      Some(Join(Graph([ma], []), GroupsLayer(ma, m.groupIds.value)))
  }

  /** The graph of a meta-alert selection; `None` when building any part of it throws. */
  function GraphOf(metas: seq<Meta>): (r: Option<Graph>)
    ensures r.Some? ==> |r.value.links| == |r.value.nodes| - |metas|
  {
    if metas == [] then Some(Empty)
    else
      match (GraphOf(metas[..|metas| - 1]), MetaGraph(metas[|metas| - 1]))
      case (Some(a), Some(b)) => Some(Join(a, b))
      case _ => None
  }

  // ---------------------------------------------------------------------------
  // The builder: nested `forEach` loops pushing into `nodes` and `links`.

  /** `group_ids.forEach(gtuple => alert_count += gtuple[1].length)`. */
  method CountAlerts(ts: seq<GroupTuple>) returns (ok: bool, count: int)
    ensures ok == TotalAlerts(ts).Some?
    ensures ok ==> count == TotalAlerts(ts).value
  {
    count := 0;
    var i := 0;
    while i < |ts|
      invariant 0 <= i <= |ts|
      invariant TotalAlerts(ts[..i]) == Some(count)
    {
      assert ts[..i + 1][..i] == ts[..i];
      if ts[i].alertIds.None? {
        assert TotalAlerts(ts[..i + 1]).None?;
        TotalAlertsOfPrefix(ts, i + 1);
        return false, count;
      }
      count := count + |ts[i].alertIds.value|;
      i := i + 1;
    }
    assert ts[..i] == ts;
    ok := true;
  }

  /** A null alert list in a prefix makes the whole accumulation throw. */
  lemma {:induction false} TotalAlertsOfPrefix(ts: seq<GroupTuple>, n: nat)
    requires n <= |ts| && TotalAlerts(ts[..n]).None?
    ensures TotalAlerts(ts).None?
  {
    var i :| 0 <= i < n && ts[..n][i].alertIds.None?;
    assert ts[i].alertIds.None?;
  }

  /** The alert-level `forEach` of one group. */
  method EmitAlerts(g: NodeId, ids: seq<Id>) returns (layer: Graph)
    ensures layer == AlertLayer(g, ids)
  {
    if |ids| < AlertCollapseFrom {
      var nodes, links := [], [];
      var i := 0;
      while i < |ids|
        invariant 0 <= i <= |ids|
        invariant nodes == seq(i, k requires 0 <= k < i => A(ids[k]))
        invariant links == seq(i, k requires 0 <= k < i => Link(g, A(ids[k])))
      {
        nodes := nodes + [A(ids[i])];
        links := links + [Link(g, A(ids[i]))];
        i := i + 1;
      }
      layer := Graph(nodes, links);
    } else {
      layer := Graph([AlertsSummary(|ids|)], [Link(g, AlertsSummary(|ids|))]);
    }
  }

  /** The group-level `forEach` of an uncollapsed meta-alert. */
  method EmitGroups(ma: NodeId, ts: seq<GroupTuple>) returns (layer: Graph)
    ensures layer == GroupsLayer(ma, ts)
  {
    layer := Empty;
    var i := 0;
    while i < |ts|
      invariant 0 <= i <= |ts|
      invariant layer == GroupsLayer(ma, ts[..i])
    {
      assert ts[..i + 1][..i] == ts[..i];
      var g := G(ts[i].groupId);
      var below := Empty;
      if ts[i].alertIds.Some? {
        below := EmitAlerts(g, ts[i].alertIds.value);
      }
      layer := Join(layer, Join(Graph([g], [Link(ma, g)]), below));
      i := i + 1;
    }
    assert ts[..i] == ts;
  }

  /** The body of `metas.forEach` for one meta-alert. */
  method EmitMeta(m: Meta) returns (fragment: Option<Graph>)
    ensures fragment == MetaGraph(m)
  {
    var ma := MA(m.id);
    if m.groupIds.None? {
      return Some(Graph([ma], []));
    }
    var ts := m.groupIds.value;
    if |ts| > GroupCollapseAbove {
      var gs := GroupsSummary(|ts|);
      var ok, total := CountAlerts(ts);
      if !ok {
        return None;
      }
      fragment := Some(Graph([ma, gs, AlertsSummary(total)], [Link(ma, gs), Link(gs, AlertsSummary(total))]));
    } else {
      var groups := EmitGroups(ma, ts);
      fragment := Some(Join(Graph([ma], []), groups));
    }
  }

  /** The graph build of a meta-alert selection; `None` when it throws. */
  method BuildGraph(metas: seq<Meta>) returns (graph: Option<Graph>)
    ensures graph == GraphOf(metas)
  {
    var nodes, links := [], [];
    var i := 0;
    while i < |metas|
      invariant 0 <= i <= |metas|
      invariant GraphOf(metas[..i]) == Some(Graph(nodes, links))
    {
      assert metas[..i + 1][..i] == metas[..i];
      var fragment := EmitMeta(metas[i]);
      if fragment.None? {
        GraphOfPrefix(metas, i + 1);
        return None;
      }
      nodes, links := nodes + fragment.value.nodes, links + fragment.value.links;
      i := i + 1;
    }
    assert metas[..i] == metas;
    graph := Some(Graph(nodes, links));
  }

  /** Once a prefix of the selection throws, the whole build throws. */
  lemma {:induction false} GraphOfPrefix(metas: seq<Meta>, n: nat)
    requires n <= |metas| && GraphOf(metas[..n]).None?
    ensures GraphOf(metas).None?
    decreases |metas|
  {
    if n < |metas| {
      assert metas[..|metas| - 1][..n] == metas[..n];
      GraphOfPrefix(metas[..|metas| - 1], n);
    } else {
      assert metas[..n] == metas;
    }
  }

  // ---------------------------------------------------------------------------
  // Properties of the built graph.

  /**
    Each link of `g` is pushed together with the node it ends at (the `k`-th
    link ends at the `k`-th node) and starts at a node of `before` or at a
    node `g` pushed earlier.
  */
  ghost predicate PushedAfter(g: Graph, before: seq<NodeId>)
  {
    |g.links| == |g.nodes| &&
    forall k :: 0 <= k < |g.links| ==>
      g.links[k].target == g.nodes[k] && (g.links[k].source in before || g.links[k].source in g.nodes[..k])
  }

  /** Every link starts and ends at a node of the graph. */
  ghost predicate LinksClosed(g: Graph)
  {
    forall l :: l in g.links ==> l.source in g.nodes && l.target in g.nodes
  }

  /** Every link starts at a node pushed before the node it ends at. */
  ghost predicate LinksOrdered(g: Graph)
  {
    forall k :: 0 <= k < |g.links| ==> OrderedAt(g, k)
  }

  /** The `k`-th link starts at a node pushed before the node it ends at. */
  ghost predicate OrderedAt(g: Graph, k: nat)
    requires k < |g.links|
  {
    exists i, j :: 0 <= i < j < |g.nodes| && g.nodes[i] == g.links[k].source && g.nodes[j] == g.links[k].target
  }

  lemma JoinPushedAfter(a: Graph, b: Graph, before: seq<NodeId>)
    requires PushedAfter(a, before) && PushedAfter(b, before + a.nodes)
    ensures PushedAfter(Join(a, b), before)
  {
    var j := Join(a, b);
    forall k | 0 <= k < |j.links|
      ensures j.links[k].target == j.nodes[k] && (j.links[k].source in before || j.links[k].source in j.nodes[..k])
    {
      if k < |a.links| {
        assert j.links[k] == a.links[k] && j.nodes[k] == a.nodes[k] && j.nodes[..k] == a.nodes[..k];
      } else {
        var k' := k - |a.links|;
        assert j.links[k] == b.links[k'] && j.nodes[k] == b.nodes[k'];
        assert j.nodes[..k] == a.nodes + b.nodes[..k'];
      }
    }
  }

  lemma {:induction false} GroupsLayerPushedAfter(ma: NodeId, ts: seq<GroupTuple>, before: seq<NodeId>)
    requires ma in before
    ensures PushedAfter(GroupsLayer(ma, ts), before)
    ensures |GroupsLayer(ma, ts).nodes| <= (AlertCollapseFrom as int) * |ts|
  {
    if ts != [] {
      var init, t := ts[..|ts| - 1], ts[|ts| - 1];
      GroupsLayerPushedAfter(ma, init, before);
      var prev := GroupsLayer(ma, init);
      var before' := before + prev.nodes;
      var g := G(t.groupId);
      var head := Graph([g], [Link(ma, g)]);
      assert PushedAfter(head, before') by {
        assert head.links[0].source == ma && ma in before';
      }
      var below := if t.alertIds.Some? then AlertLayer(g, t.alertIds.value) else Empty;
      assert PushedAfter(below, before' + head.nodes) by {
        assert g in before' + head.nodes;
      }
      JoinPushedAfter(head, below, before');
      JoinPushedAfter(prev, GroupLayer(ma, t), before);
    }
  }

  /**
    One meta-alert's part of the graph starts with its `MA` node; every
    other node is pushed together with one link from a node pushed before
    it; and it has at most 1 + 11 * 11 nodes, however many groups and
    alerts the meta-alert has.
  */
  lemma MetaGraphWellFormed(m: Meta)
    requires MetaGraph(m).Some?
    ensures var g := MetaGraph(m).value;
      && |g.nodes| >= 1 && g.nodes[0] == MA(m.id)
      && PushedAfter(Graph(g.nodes[1..], g.links), [MA(m.id)])
      && |g.nodes| <= 1 + (GroupCollapseAbove as int) * (AlertCollapseFrom as int)
  {
    var g := MetaGraph(m).value;
    var ma := MA(m.id);
    if m.groupIds.Some? && |m.groupIds.value| <= GroupCollapseAbove {
      GroupsLayerPushedAfter(ma, m.groupIds.value, [ma]);
      assert g.nodes[1..] == GroupsLayer(ma, m.groupIds.value).nodes;
    } else if m.groupIds.Some? {
      var rest := Graph(g.nodes[1..], g.links);
      assert rest.links[1].source == rest.nodes[..1][0];
    }
  }

  /** The build throws exactly when building one selected meta-alert's part throws. */
  lemma {:induction false} GraphOfFailsIff(metas: seq<Meta>)
    ensures GraphOf(metas).None? <==> exists i :: 0 <= i < |metas| && MetaGraph(metas[i]).None?
  {
    if metas != [] {
      var init, m := metas[..|metas| - 1], metas[|metas| - 1];
      GraphOfFailsIff(init);
      if GraphOf(init).None? {
        var i :| 0 <= i < |init| && MetaGraph(init[i]).None?;
        assert metas[i] == init[i];
      }
      if exists i :: 0 <= i < |metas| && MetaGraph(metas[i]).None? {
        var i :| 0 <= i < |metas| && MetaGraph(metas[i]).None?;
        if i < |init| {
          assert init[i] == metas[i];
        }
      }
    }
  }

  /** Appending one meta-alert's part keeps every link between pushed nodes. */
  lemma JoinClosed(a: Graph, m: Meta)
    requires LinksClosed(a) && MetaGraph(m).Some?
    ensures LinksClosed(Join(a, MetaGraph(m).value))
  {
    var b := MetaGraph(m).value;
    MetaGraphWellFormed(m);
    var g := Join(a, b);
    forall l | l in g.links ensures l.source in g.nodes && l.target in g.nodes {
      if l in a.links {
        assert l.source in a.nodes && l.target in a.nodes;
      } else {
        assert l in b.links;
        var k :| 0 <= k < |b.links| && b.links[k] == l;
        assert b.nodes[1..][k] == l.target;
        assert l.source == MA(m.id) || l.source in b.nodes[1..][..k];
      }
    }
  }

  /** Appending one meta-alert's part keeps every link running from an earlier node to a later one. */
  lemma JoinOrdered(a: Graph, m: Meta)
    requires LinksOrdered(a) && MetaGraph(m).Some?
    ensures LinksOrdered(Join(a, MetaGraph(m).value))
  {
    MetaGraphWellFormed(m);
    RootedOrdered(MetaGraph(m).value, MA(m.id));
    JoinOrderedParts(a, MetaGraph(m).value);
  }

  lemma JoinOrderedParts(a: Graph, b: Graph)
    requires LinksOrdered(a) && LinksOrdered(b)
    ensures LinksOrdered(Join(a, b))
  {
    var g := Join(a, b);
    forall k | 0 <= k < |g.links|
      ensures OrderedAt(g, k)
    {
      if k < |a.links| {
        OrderedOld(a, b, k);
      } else {
        OrderedNew(a, b, k - |a.links|);
      }
    }
  }

  /** The `k`-th link runs from the `i`-th node to the later `j`-th node. */
  lemma OrderedBy(g: Graph, k: nat, i: nat, j: nat)
    requires k < |g.links| && i < j < |g.nodes|
    requires g.nodes[i] == g.links[k].source && g.nodes[j] == g.links[k].target
    ensures OrderedAt(g, k)
  {
  }

  /** What `PushedAfter` says about its `k`-th link. */
  lemma PushedAt(g: Graph, before: seq<NodeId>, k: nat)
    requires PushedAfter(g, before) && k < |g.links|
    ensures k < |g.nodes| && g.links[k].target == g.nodes[k]
    ensures g.links[k].source in before || exists i :: 0 <= i < k && g.nodes[i] == g.links[k].source
  {
    if g.links[k].source !in before {
      assert g.links[k].source in g.nodes[..k];
    }
  }

  /** A part that starts at `ma` and pushes every further node after its link's source has its links ordered. */
  lemma RootedOrdered(b: Graph, ma: NodeId)
    requires |b.nodes| >= 1 && b.nodes[0] == ma && PushedAfter(Graph(b.nodes[1..], b.links), [ma])
    ensures LinksOrdered(b)
  {
    var rest := Graph(b.nodes[1..], b.links);
    forall k | 0 <= k < |b.links|
      ensures OrderedAt(b, k)
    {
      PushedAt(rest, [ma], k);
      var l := b.links[k];
      assert rest.links[k] == l && b.nodes[k + 1] == rest.nodes[k];
      if l.source == ma {
        OrderedBy(b, k, 0, k + 1);
      } else {
        assert l.source !in [ma];
        var i :| 0 <= i < k && rest.nodes[i] == l.source;
        assert b.nodes[i + 1] == rest.nodes[i];
        OrderedBy(b, k, i + 1, k + 1);
      }
    }
  }

  lemma OrderedOld(a: Graph, b: Graph, k: nat)
    requires LinksOrdered(a) && k < |a.links|
    ensures k < |Join(a, b).links| && OrderedAt(Join(a, b), k)
  {
    var g := Join(a, b);
    assert OrderedAt(a, k);
    var i, j :| 0 <= i < j < |a.nodes| && a.nodes[i] == a.links[k].source && a.nodes[j] == a.links[k].target;
    assert g.links[k] == a.links[k] && g.nodes[i] == a.nodes[i] && g.nodes[j] == a.nodes[j];
    OrderedBy(g, k, i, j);
  }

  lemma OrderedNew(a: Graph, b: Graph, k: nat)
    requires LinksOrdered(b) && k < |b.links|
    ensures |a.links| + k < |Join(a, b).links| && OrderedAt(Join(a, b), |a.links| + k)
  {
    var g, n := Join(a, b), |a.nodes|;
    assert OrderedAt(b, k);
    var i, j :| 0 <= i < j < |b.nodes| && b.nodes[i] == b.links[k].source && b.nodes[j] == b.links[k].target;
    assert g.links[|a.links| + k] == b.links[k] && g.nodes[n + i] == b.nodes[i] && g.nodes[n + j] == b.nodes[j];
    OrderedBy(g, |a.links| + k, n + i, n + j);
  }

  /** In a built graph every link runs between pushed nodes, from an earlier one to a later one. */
  lemma {:induction false} GraphLinks(metas: seq<Meta>)
    requires GraphOf(metas).Some?
    ensures LinksClosed(GraphOf(metas).value) && LinksOrdered(GraphOf(metas).value)
  {
    if metas != [] {
      var init, m := metas[..|metas| - 1], metas[|metas| - 1];
      assert GraphOf(init).Some? && MetaGraph(m).Some?;
      GraphLinks(init);
      JoinClosed(GraphOf(init).value, m);
      JoinOrdered(GraphOf(init).value, m);
      assert GraphOf(metas) == Some(Join(GraphOf(init).value, MetaGraph(m).value));
    }
  }

  /**
    A built graph: every link starts at a node pushed before the node it ends at, each selected
    meta-alert has its `MA` node, there is one link per node that is not a
    meta-alert node, and the node count is bounded by the number of selected
    meta-alerts.
  */
  lemma GraphShape(metas: seq<Meta>)
    requires GraphOf(metas).Some?
    ensures var g := GraphOf(metas).value;
      && LinksClosed(g) && LinksOrdered(g)
      && (forall i :: 0 <= i < |metas| ==> MA(metas[i].id) in g.nodes)
      && |g.links| == |g.nodes| - |metas|
      && |g.nodes| <= (1 + (GroupCollapseAbove as int) * (AlertCollapseFrom as int)) * |metas|
  {
    GraphLinks(metas);
    GraphMetaNodes(metas);
    GraphSize(metas);
  }

  /** Every selected meta-alert has its `MA` node in a built graph. */
  lemma {:induction false} GraphMetaNodes(metas: seq<Meta>)
    requires GraphOf(metas).Some?
    ensures forall i :: 0 <= i < |metas| ==> MA(metas[i].id) in GraphOf(metas).value.nodes
  {
    if metas != [] {
      var init, m := metas[..|metas| - 1], metas[|metas| - 1];
      assert GraphOf(init).Some? && MetaGraph(m).Some?;
      GraphMetaNodes(init);
      var a, b := GraphOf(init).value, MetaGraph(m).value;
      var g := Join(a, b);
      assert GraphOf(metas) == Some(g);
      forall i | 0 <= i < |metas| ensures MA(metas[i].id) in g.nodes {
        if i < |init| {
          assert init[i] == metas[i] && MA(init[i].id) in a.nodes;
        } else {
          assert b.nodes[0] == MA(metas[i].id);
        }
      }
    }
  }

  /** A built graph has at most 1 + 11 * 11 nodes per selected meta-alert. */
  lemma {:induction false} GraphSize(metas: seq<Meta>)
    requires GraphOf(metas).Some?
    ensures |GraphOf(metas).value.nodes| <= (1 + (GroupCollapseAbove as int) * (AlertCollapseFrom as int)) * |metas|
  {
    if metas != [] {
      var init, m := metas[..|metas| - 1], metas[|metas| - 1];
      assert GraphOf(init).Some? && MetaGraph(m).Some?;
      GraphSize(init);
      MetaGraphWellFormed(m);
      assert GraphOf(metas) == Some(Join(GraphOf(init).value, MetaGraph(m).value));
    }
  }

  /** The graph of a meta-alert selection: when it throws, and its shape when it does not. */
  lemma GraphWellFormed(metas: seq<Meta>)
    ensures GraphOf(metas).None? <==> exists i :: 0 <= i < |metas| && MetaGraph(metas[i]).None?
    ensures GraphOf(metas).Some? ==> var g := GraphOf(metas).value;
      && LinksClosed(g) && LinksOrdered(g)
      && (forall i :: 0 <= i < |metas| ==> MA(metas[i].id) in g.nodes)
      && |g.links| == |g.nodes| - |metas|
      && |g.nodes| <= (1 + (GroupCollapseAbove as int) * (AlertCollapseFrom as int)) * |metas|
  {
    GraphOfFailsIff(metas);
    if GraphOf(metas).Some? {
      GraphShape(metas);
    }
  }

  /** A group layer whose groups all carry `k` < 11 alerts pushes 1 + `k` nodes and links per group. */
  lemma {:induction false} UniformGroupsLayerSize(ma: NodeId, ts: seq<GroupTuple>, k: nat)
    requires k < AlertCollapseFrom
    requires forall i :: 0 <= i < |ts| ==> ts[i].alertIds.Some? && |ts[i].alertIds.value| == k
    ensures |GroupsLayer(ma, ts).nodes| == |GroupsLayer(ma, ts).links| == |ts| * (1 + k)
  {
    if ts != [] {
      var init := ts[..|ts| - 1];
      UniformGroupsLayerSize(ma, init, k);
      var t := ts[|ts| - 1];
      assert t.alertIds.Some? && |t.alertIds.value| == k;
      assert |AlertLayer(G(t.groupId), t.alertIds.value).nodes| == k;
      var last := GroupLayer(ma, t);
      assert |last.nodes| == 1 + k && |last.links| == 1 + k;
      assert GroupsLayer(ma, ts) == Join(GroupsLayer(ma, init), last);
      MulStep(|init|, 1 + k);
    }
  }

  lemma MulStep(n: nat, c: nat)
    ensures (n + 1) * c == n * c + c
  {
  }

  /**
    A meta-alert with 3 groups of 5 alerts each gives 1 meta-alert node,
    3 group nodes and 15 alert nodes, and 3 + 15 links.
  */
  lemma SmallMetaExpands(m: Meta)
    requires m.groupIds.Some? && |m.groupIds.value| == 3
    requires forall i :: 0 <= i < 3 ==> m.groupIds.value[i].alertIds.Some? && |m.groupIds.value[i].alertIds.value| == 5
    ensures MetaGraph(m).Some?
    ensures |MetaGraph(m).value.nodes| == 19 && |MetaGraph(m).value.links| == 18
  {
    UniformGroupsLayerSize(MA(m.id), m.groupIds.value, 5);
  }

  /**
    A meta-alert with more than 11 groups, all with alert lists, gives its
    `MA` node, one "<n> Groups" node and one "<total> Alerts" node, and the
    two links MA -> Groups -> Alerts.
  */
  lemma ManyGroupsCollapse(m: Meta)
    requires m.groupIds.Some? && |m.groupIds.value| > GroupCollapseAbove
    requires forall i :: 0 <= i < |m.groupIds.value| ==> m.groupIds.value[i].alertIds.Some?
    ensures MetaGraph(m).Some?
    ensures var g, n, t := MetaGraph(m).value, |m.groupIds.value|, TotalAlerts(m.groupIds.value).value;
      && g.nodes == [MA(m.id), GroupsSummary(n), AlertsSummary(t)]
      && g.links == [Link(MA(m.id), GroupsSummary(n)), Link(GroupsSummary(n), AlertsSummary(t))]
  {
  }
}

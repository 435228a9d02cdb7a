/** The web app's ELK adapter: the graph handed to the ELK layered layout (one child per
    node with its size and ports, one edge per edge between ports) and the read-back of
    the positions ELK computes. The layout computation itself is not part of this model. */
module Elk {
  import opened Text
  import opened Canonical
  import ReactFlow

  // ---------------------------------------------------------------------------
  // Node sizes and ports
  // ---------------------------------------------------------------------------

  datatype Dimension = Dimension(width: nat, height: nat)

  /** `NODE_DIMENSIONS` */
  const NodeDimensions: map<string, Dimension> := map[
    "equipment" := Dimension(80, 80),
    "valve" := Dimension(60, 60),
    "instrument" := Dimension(60, 60),
    "fitting" := Dimension(40, 40)]

  /** `getNodeDimension`: the table entry, else the equipment size. */
  function NodeDimension(nodeType: string): (d: Dimension)
    ensures nodeType in NodeDimensions ==> d == NodeDimensions[nodeType]
    ensures nodeType !in NodeDimensions ==> d == NodeDimensions["equipment"]
  {
    if nodeType in NodeDimensions then NodeDimensions[nodeType] else NodeDimensions["equipment"]
  }

  /** Equipment is 80 by 80, valves and instruments 60 by 60, fittings 40 by 40, anything
      else the equipment size; every node is square and at least 40 wide. */
  lemma NodeDimensionTable(nodeType: string)
    ensures NodeDimension("equipment") == Dimension(80, 80)
    ensures NodeDimension("valve") == NodeDimension("instrument") == Dimension(60, 60)
    ensures NodeDimension("fitting") == Dimension(40, 40)
    ensures nodeType !in {"equipment", "valve", "instrument", "fitting"} ==> NodeDimension(nodeType) == Dimension(80, 80)
    ensures NodeDimension(nodeType).width == NodeDimension(nodeType).height >= 40
  {
  }

  const SideOption := "elk.port.side"

  /** A port: its id and its layout options. */
  datatype ElkPort = ElkPort(id: string, layoutOptions: map<string, string>)

  /** `SIDE_MAP` */
  const SideMap: map<string, string> := map["left" := "WEST", "right" := "EAST", "top" := "NORTH", "bottom" := "SOUTH"]

  /** `nozzleToElkPort`: the port carries the nozzle's id and one option, its side. */
  function NozzleToElkPort(nozzle: Nozzle): (p: ElkPort)
    ensures p.id == nozzle.id && p.layoutOptions.Keys == {SideOption}
  {
    ElkPort(nozzle.id, map[SideOption := if nozzle.side in SideMap then SideMap[nozzle.side] else "EAST"])
  }

  predicate IsCompassSide(s: string) {
    s in {"WEST", "EAST", "NORTH", "SOUTH"}
  }

  /** Left, right, top and bottom nozzles go on the west, east, north and south sides;
      any other side value goes east. */
  lemma NozzleSide(nozzle: Nozzle)
    ensures var side := NozzleToElkPort(nozzle).layoutOptions[SideOption];
      IsCompassSide(side) &&
      (nozzle.side == "left" ==> side == "WEST") && (nozzle.side == "right" ==> side == "EAST") &&
      (nozzle.side == "top" ==> side == "NORTH") && (nozzle.side == "bottom" ==> side == "SOUTH") &&
      (nozzle.side !in {"left", "right", "top", "bottom"} ==> side == "EAST")
  {
  }

  // ---------------------------------------------------------------------------
  // The graph
  // ---------------------------------------------------------------------------

  datatype ElkNode = ElkNode(id: string, width: nat, height: nat, layoutOptions: map<string, string>, ports: seq<ElkPort>)

  datatype ElkEdge = ElkEdge(id: string, sources: seq<string>, targets: seq<string>)

  datatype ElkGraph = ElkGraph(id: string, layoutOptions: map<string, string>, children: seq<ElkNode>, edges: seq<ElkEdge>)

  const GraphOptions: map<string, string> := map[
    "elk.algorithm" := "org.eclipse.elk.layered",
    "elk.direction" := "RIGHT",
    "elk.layered.spacing.nodeNodeBetweenLayers" := "100",
    "elk.spacing.nodeNode" := "80",
    "elk.layered.nodePlacement.strategy" := "NETWORK_SIMPLEX",
    "elk.edgeRouting" := "ORTHOGONAL"]

  const LeftSuffix := "__left"
  const RightSuffix := "__right"
  const TopSuffix := "__top"
  const BottomSuffix := "__bottom"

  /** `_defaultPorts`: one port on each side, named after the node. */
  function DefaultPorts(n: Node): (ports: seq<ElkPort>)
    ensures |ports| == 4
  {
    [ElkPort(n.id + LeftSuffix, map[SideOption := "WEST"]),
     ElkPort(n.id + RightSuffix, map[SideOption := "EAST"]),
     ElkPort(n.id + TopSuffix, map[SideOption := "NORTH"]),
     ElkPort(n.id + BottomSuffix, map[SideOption := "SOUTH"])]
  }

  function PortsOf(n: Node): seq<ElkPort> {
    if |n.nozzles| > 0 then seq(|n.nozzles|, i requires 0 <= i < |n.nozzles| => NozzleToElkPort(n.nozzles[i]))
    else DefaultPorts(n)
  }

  function ChildOf(n: Node): ElkNode {
    var dims := NodeDimension(NodeTypeValue(n.ntype));
    ElkNode(n.id, dims.width, dims.height, map["elk.portConstraints" := "FIXED_SIDE"], PortsOf(n))
  }

  /** An edge end: the port when one is set and non-empty, else the node's default port
      on the given side. */
  function EdgeEnd(port: Option<string>, node: string, suffix: string): string {
    if port.Some? && port.value != "" then port.value else node + suffix
  }

  function ElkEdgeOf(e: Edge): ElkEdge {
    ElkEdge(e.id, [EdgeEnd(e.fromPort, e.fromNode, RightSuffix)], [EdgeEnd(e.toPort, e.toNode, LeftSuffix)])
  }

  /** `buildElkGraph` */
  function BuildElkGraph(d: Diagram): (g: ElkGraph)
    ensures |g.children| == |d.nodes| && |g.edges| == |d.edges|
    ensures forall i :: 0 <= i < |d.nodes| ==> g.children[i] == ChildOf(d.nodes[i])
    ensures forall i :: 0 <= i < |d.edges| ==> g.edges[i] == ElkEdgeOf(d.edges[i])
  {
    ElkGraph("root", GraphOptions,
             seq(|d.nodes|, i requires 0 <= i < |d.nodes| => ChildOf(d.nodes[i])),
             seq(|d.edges|, i requires 0 <= i < |d.edges| => ElkEdgeOf(d.edges[i])))
  }

  /** One child per node, in order, with the node's id and its type's size; a node without
      nozzles gets the four default ports on the west, east, north and south sides, a node
      with nozzles one port per nozzle with the nozzle's id. */
  lemma ChildrenMatchNodes(d: Diagram, i: nat)
    requires i < |d.nodes|
    ensures var (c, n) := (BuildElkGraph(d).children[i], d.nodes[i]);
      c.id == n.id && Dimension(c.width, c.height) == NodeDimension(NodeTypeValue(n.ntype)) &&
      (n.nozzles == [] ==>
        |c.ports| == 4 &&
        c.ports[0] == ElkPort(n.id + "__left", map["elk.port.side" := "WEST"]) &&
        c.ports[1] == ElkPort(n.id + "__right", map["elk.port.side" := "EAST"]) &&
        c.ports[2] == ElkPort(n.id + "__top", map["elk.port.side" := "NORTH"]) &&
        c.ports[3] == ElkPort(n.id + "__bottom", map["elk.port.side" := "SOUTH"])) &&
      (n.nozzles != [] ==>
        |c.ports| == |n.nozzles| &&
        forall k :: 0 <= k < |n.nozzles| ==> c.ports[k].id == n.nozzles[k].id)
  {
  }

  /** One ELK edge per edge with the same id; its source is the `from_port` when set, else
      the source node's right port, and its target the `to_port` when set, else the target
      node's left port. */
  lemma EdgesMatchEdges(d: Diagram, i: nat)
    requires i < |d.edges|
    ensures var (g, e) := (BuildElkGraph(d).edges[i], d.edges[i]);
      g.id == e.id && |g.sources| == 1 && |g.targets| == 1 &&
      (e.fromPort.Some? && e.fromPort.value != "" ==> g.sources[0] == e.fromPort.value) &&
      (e.fromPort.None? || e.fromPort.value == "" ==> g.sources[0] == e.fromNode + "__right") &&
      (e.toPort.Some? && e.toPort.value != "" ==> g.targets[0] == e.toPort.value) &&
      (e.toPort.None? || e.toPort.value == "" ==> g.targets[0] == e.toNode + "__left")
  {
  }

  predicate HasPort(c: ElkNode, id: string) {
    exists k :: 0 <= k < |c.ports| && c.ports[k].id == id
  }

  /** An edge without ports between nodes without nozzles leaves the source node's right
      port and enters the target node's left port. */
  lemma DefaultEndsArePorts(d: Diagram, i: nat, s: nat, t: nat)
    requires i < |d.edges| && s < |d.nodes| && t < |d.nodes|
    requires d.edges[i].fromPort.None? && d.edges[i].toPort.None?
    requires d.nodes[s].id == d.edges[i].fromNode && d.nodes[t].id == d.edges[i].toNode
    requires d.nodes[s].nozzles == [] && d.nodes[t].nozzles == []
    ensures var g := BuildElkGraph(d);
      HasPort(g.children[s], g.edges[i].sources[0]) && HasPort(g.children[t], g.edges[i].targets[0])
  {
    var g := BuildElkGraph(d);
    assert g.children[s].ports[1].id == g.edges[i].sources[0];
    assert g.children[t].ports[0].id == g.edges[i].targets[0];
  }

  /** No default port is called `right-source` or `left-target`: those handle names have
      no underscore. */
  lemma HandleIsNoDefaultPort(x: string, suffix: string, handle: string)
    requires |suffix| > 0 && suffix[0] == '_'
    requires handle == "right-source" || handle == "left-target"
    ensures x + suffix != handle
  {
    assert (x + suffix)[|x|] == '_';
    if |x| < |handle| {
      assert handle[|x|] != '_';
    }
  }

  /** After a trip to the canvas and back, an edge that had no source port names the
      canvas handle `right-source` as its ELK source, which is none of the default ports of
      a node without nozzles. */
  lemma RoundTripSourceIsHandle(copy: ReactFlow.Copy, d: Diagram, i: nat, s: nat)
    requires i < |d.edges| && d.edges[i].fromPort.None?
    requires s < |d.nodes| && d.nodes[s].nozzles == []
    ensures var g := BuildElkGraph(ReactFlow.RoundTrip(copy, d));
      g.edges[i].sources == ["right-source"] && !HasPort(g.children[s], "right-source")
  {
    ReactFlow.RoundTripNormalises(copy, d);
    var r := ReactFlow.RoundTrip(copy, d);
    var c := BuildElkGraph(r).children[s];
    assert r.nodes[s].nozzles == [] && r.nodes[s].id == d.nodes[s].id;
    forall k | 0 <= k < |c.ports| ensures c.ports[k].id != "right-source" {
      var suffix := [LeftSuffix, RightSuffix, TopSuffix, BottomSuffix][k];
      assert c.ports[k].id == r.nodes[s].id + suffix;
      HandleIsNoDefaultPort(r.nodes[s].id, suffix, "right-source");
    }
  }

  // ---------------------------------------------------------------------------
  // Reading the positions back
  // ---------------------------------------------------------------------------

  /** A child of the laid-out graph: its id and the coordinates ELK assigned, if any. */
  datatype LaidChild = LaidChild(id: string, x: Option<real>, y: Option<real>)

  predicate Placed(c: LaidChild) {
    c.x.Some? && c.y.Some?
  }

  /** `posMap` after the loop: children with both coordinates, the last one per id winning. */
  function PositionMap(children: seq<LaidChild>): (m: map<string, Position>)
    ensures forall id :: id in m <==> exists k :: 0 <= k < |children| && children[k].id == id && Placed(children[k])
  {
    if children == [] then map[]
    else
      var init := children[..|children| - 1];
      var c := children[|children| - 1];
      var m := PositionMap(init);
      assert forall k :: 0 <= k < |init| ==> init[k] == children[k];
      if Placed(c) then m[c.id := Position(c.x.value, c.y.value)] else m
  }

  /** `extractPositions` as a value: each node moved to its laid-out position when it has one. */
  function Positioned(original: Diagram, children: Option<seq<LaidChild>>): Diagram {
    var m := PositionMap(if children.Some? then children.value else []);
    original.(nodes := seq(|original.nodes|, i requires 0 <= i < |original.nodes| =>
      var n := original.nodes[i];
      n.(position := if n.id in m then m[n.id] else n.position)))
  }

  /** `extractPositions`: the loop over the laid-out children, then the nodes mapped. */
  method ExtractPositions(original: Diagram, children: Option<seq<LaidChild>>) returns (r: Diagram)
    ensures r == Positioned(original, children)
  {
    var all := if children.Some? then children.value else [];
    var posMap: map<string, Position> := map[];
    for k := 0 to |all|
      invariant posMap == PositionMap(all[..k])
    {
      var q := all[..k + 1];
      assert q[..|q| - 1] == all[..k];
      var child := all[k];
      if child.x.Some? && child.y.Some? {
        posMap := posMap[child.id := Position(child.x.value, child.y.value)];
      }
    }
    assert all[..|all|] == all;
    r := original.(nodes := seq(|original.nodes|, i requires 0 <= i < |original.nodes| =>
      var n := original.nodes[i];
      n.(position := if n.id in posMap then posMap[n.id] else n.position)));
  }

  /** Only positions change: same nodes in the same order with every other field, same
      edges and same diagram fields; a node moves exactly when some laid-out child with its
      id has both coordinates. */
  lemma PositionedChangesOnlyPositions(original: Diagram, children: seq<LaidChild>, i: nat)
    requires i < |original.nodes|
    ensures var r := Positioned(original, Some(children));
      var (n, m) := (original.nodes[i], r.nodes[i]);
      |r.nodes| == |original.nodes| && r.edges == original.edges && r.id == original.id &&
      r.name == original.name && r.metadata == original.metadata &&
      m == n.(position := m.position) &&
      ((exists k :: 0 <= k < |children| && children[k].id == n.id && Placed(children[k])) || m.position == n.position)
  {
  }

  /** The last placed child with a node's id decides that node's position. */
  lemma {:induction false} LastChildWins(children: seq<LaidChild>, k: nat)
    requires k < |children| && Placed(children[k])
    requires forall j :: k < j < |children| ==> children[j].id != children[k].id || !Placed(children[j])
    ensures PositionMap(children)[children[k].id] == Position(children[k].x.value, children[k].y.value)
  {
    if k < |children| - 1 {
      var init := children[..|children| - 1];
      assert init[k] == children[k];
      LastChildWins(init, k);
    }
  }

  /** Reading the same layout back twice is reading it once. */
  lemma PositionedIdempotent(original: Diagram, children: Option<seq<LaidChild>>)
    ensures Positioned(Positioned(original, children), children) == Positioned(original, children)
  {
  }
}

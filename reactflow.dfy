/** The converters between the canonical diagram and the ReactFlow canvas: `toReactFlow`
    (identical in the web app's rendering adapters and the older frontend converters) and
    `toCanonical` (whose two copies differ only in the description fallback). Only the
    fields the converters read or write are modelled; fixed presentation constants
    (label font, marker, edge kind "smoothstep") are left out. */
module ReactFlow {
  import opened Text
  import opened Canonical

  /** Which copy of `toCanonical`: the web app's adapter or the older frontend converter. */
  datatype Copy = Web | Legacy

  /** A ReactFlow node's `data`, every key optional as on a node drawn on the canvas. */
  datatype NodeData = NodeData(
    canonicalType: Option<NodeType>,
    subtype: Option<string>,
    tag: Option<string>,
    name: Option<string>,
    properties: Option<map<string, Json>>,
    nozzles: Option<seq<Nozzle>>,
    symbolId: Option<string>,
    equipmentClass: Option<string>,
    labelText: Option<string>,
    location: Option<string>,
    description: Option<string>)

  datatype RFNode = RFNode(id: string, rtype: string, position: Position, data: Option<NodeData>)

  /** An edge's CSS stroke: colour, width and dash pattern. */
  datatype Style = Style(stroke: string, strokeWidth: Option<real>, dash: Option<string>)

  datatype EdgeData = EdgeData(
    edgeType: Option<EdgeType>,
    lineNumber: Option<string>,
    insulation: Option<string>,
    pipeSize: Option<string>,
    pipeClass: Option<string>,
    properties: Option<EdgeProperties>,
    waypoints: Option<seq<Position>>)

  datatype RFEdge = RFEdge(
    id: string,
    source: string,
    sourceHandle: Option<string>,
    target: string,
    targetHandle: Option<string>,
    labelText: Option<string>,
    style: Style,
    data: Option<EdgeData>)

  datatype Flow = Flow(nodes: seq<RFNode>, edges: seq<RFEdge>)

  /** The `meta` argument of `toCanonical`. */
  datatype Meta = Meta(id: string, name: string, projectId: Option<string>, diagramType: Option<string>)

  /** `a || b` for an optional string. */
  function OrElse(a: Option<string>, b: string): (r: string)
    ensures r == b || (a == Some(r) && r != "")
  {
    if a.Some? && a.value != "" then a.value else b
  }

  // ---------------------------------------------------------------------------
  // Canonical -> ReactFlow
  // ---------------------------------------------------------------------------

  const NodeKind := "pid"
  const SourceHandle := "right-source"
  const TargetHandle := "left-target"
  const DefaultPipeSize := "2\""
  const DefaultPipeClass := "A1B"

  /** `SUBTYPE_TO_SYMBOL[subtype] || subtype` */
  function SymbolKey(subtype: string): (k: string)
    ensures subtype != "" ==> k != ""
  {
    if subtype == "vessel" then "vessel_vertical"
    else if subtype == "indicator_controller" then "field_mounted"
    else subtype
  }

  /** `EDGE_STYLES` */
  function EdgeStyle(t: EdgeType): Style {
    match t
    case Process => Style("#000", Some(2.0), None)
    case Utility => Style("#000", Some(1.5), Some("6 3"))
    case SignalElectrical => Style("#000", Some(1.0), Some("2 2"))
    case SignalPneumatic => Style("#000", Some(1.0), Some("2 2"))
  }

  /** The dashed grey stroke drawn for signal lines. */
  const SignalStyle := Style("#888", None, Some("5,5"))

  predicate IsSignal(t: EdgeType) {
    t == SignalElectrical || t == SignalPneumatic
  }

  function NodeToRF(n: Node): RFNode {
    var key := SymbolKey(n.subtype);
    RFNode(n.id, NodeKind, n.position,
           Some(NodeData(Some(n.ntype), Some(n.subtype), Some(n.tag), n.name, Some(n.properties), Some(n.nozzles),
                         Some(key), Some(key), Some(if n.tag != "" then n.tag else n.subtype),
                         Some(GetOr(n.location, DefaultLocation)), Some(GetOr(n.description, "")))))
  }

  function EdgeToRF(e: Edge): RFEdge {
    RFEdge(e.id, e.fromNode, Some(GetOr(e.fromPort, SourceHandle)), e.toNode, Some(GetOr(e.toPort, TargetHandle)),
           if e.lineNumber.Some? && e.lineNumber.value != "" then e.lineNumber else None,
           if IsSignal(e.etype) then SignalStyle else EdgeStyle(e.etype),
           Some(EdgeData(Some(e.etype), e.lineNumber, Some(GetOr(e.insulation, DefaultInsulation)),
                         Some(GetOr(e.pipeSize, DefaultPipeSize)), Some(GetOr(e.pipeClass, DefaultPipeClass)),
                         Some(e.properties), Some(e.waypoints))))
  }

  /** `toReactFlow`: one canvas node per node and one canvas edge per edge, in order. */
  function ToReactFlow(d: Diagram): (f: Flow)
    ensures |f.nodes| == |d.nodes| && |f.edges| == |d.edges|
    ensures forall i :: 0 <= i < |d.nodes| ==> f.nodes[i] == NodeToRF(d.nodes[i])
    ensures forall i :: 0 <= i < |d.edges| ==> f.edges[i] == EdgeToRF(d.edges[i])
  {
    Flow(seq(|d.nodes|, i requires 0 <= i < |d.nodes| => NodeToRF(d.nodes[i])),
         seq(|d.edges|, i requires 0 <= i < |d.edges| => EdgeToRF(d.edges[i])))
  }

  // ---------------------------------------------------------------------------
  // ReactFlow -> canonical
  // ---------------------------------------------------------------------------

  const NoNodeData := NodeData(None, None, None, None, None, None, None, None, None, None, None)
  const NoEdgeData := EdgeData(None, None, None, None, None, None, None)
  const UnknownSubtype := "unknown"
  const LegacyDescription := "Equipment"

  function NodeFromRF(copy: Copy, n: RFNode): Node {
    var data := GetOr(n.data, NoNodeData);
    var description := match copy
      case Web => GetOr(data.description, "")
      case Legacy => OrElse(data.description, OrElse(data.equipmentClass, LegacyDescription));
    Node(n.id, GetOr(data.canonicalType, Equipment), GetOr(data.subtype, UnknownSubtype),
         OrElse(data.labelText, OrElse(data.tag, "")), data.name, Some(description), n.position,
         Some(OrElse(data.location, DefaultLocation)), GetOr(data.properties, map[]), GetOr(data.nozzles, []))
  }

  function EdgeFromRF(e: RFEdge): Edge {
    var data := GetOr(e.data, NoEdgeData);
    Edge(e.id, GetOr(data.edgeType, Process), e.source, e.sourceHandle, e.target,
         if e.targetHandle.Some? && e.targetHandle.value != "" then e.targetHandle else None,
         Some(OrElse(e.labelText, OrElse(data.lineNumber, ""))), data.pipeSize, data.pipeClass,
         Some(OrElse(data.insulation, DefaultInsulation)), GetOr(data.properties, NoEdgeProperties),
         GetOr(data.waypoints, []))
  }

  /** `toCanonical`: one node per canvas node and one edge per canvas edge, in order, in
      a diagram of schema version 1 with empty metadata. */
  function ToCanonical(copy: Copy, nodes: seq<RFNode>, edges: seq<RFEdge>, meta: Meta): (d: Diagram)
    ensures |d.nodes| == |nodes| && |d.edges| == |edges|
    ensures forall i :: 0 <= i < |nodes| ==> d.nodes[i] == NodeFromRF(copy, nodes[i])
    ensures forall i :: 0 <= i < |edges| ==> d.edges[i] == EdgeFromRF(edges[i])
    ensures d.schemaVersion == 1 && d.metadata == map[] && d.id == meta.id && d.name == meta.name
    ensures d.diagramType == GetOr(meta.diagramType, "pid") && d.projectId == meta.projectId
  {
    Diagram(1, meta.id, meta.name, GetOr(meta.diagramType, "pid"), meta.projectId,
            seq(|nodes|, i requires 0 <= i < |nodes| => NodeFromRF(copy, nodes[i])),
            seq(|edges|, i requires 0 <= i < |edges| => EdgeFromRF(edges[i])), map[])
  }

  // ---------------------------------------------------------------------------
  // Properties of each direction
  // ---------------------------------------------------------------------------

  /** A canvas node keeps the node's id and position, is drawn with the `pid` renderer,
      is labelled with the tag (the subtype when the tag is empty), and uses the same
      symbol key for its symbol and its equipment class. */
  lemma NodeToRFFields(n: Node)
    ensures var r := NodeToRF(n);
      r.id == n.id && r.position == n.position && r.rtype == "pid" &&
      r.data.Some? && (n.tag != "" ==> r.data.value.labelText == Some(n.tag)) &&
      (n.tag == "" ==> r.data.value.labelText == Some(n.subtype)) &&
      (n.tag != "" || n.subtype != "" ==> r.data.value.labelText.value != "") &&
      r.data.value.symbolId == r.data.value.equipmentClass == Some(SymbolKey(n.subtype)) &&
      (n.subtype == "vessel" ==> r.data.value.symbolId == Some("vessel_vertical")) &&
      (n.subtype == "indicator_controller" ==> r.data.value.symbolId == Some("field_mounted")) &&
      (n.subtype != "vessel" && n.subtype != "indicator_controller" ==> r.data.value.symbolId == Some(n.subtype))
  {
  }

  /** A canvas edge shows a labelText exactly when the line number is non-empty, and then it
      shows the line number. */
  lemma EdgeLabelShown(e: Edge)
    ensures EdgeToRF(e).labelText.Some? <==> e.lineNumber.Some? && e.lineNumber.value != ""
    ensures EdgeToRF(e).labelText.Some? ==> EdgeToRF(e).labelText == e.lineNumber
  {
  }

  /** Signal lines are drawn dashed grey; every other line with its own style. */
  lemma SignalEdgesDashed(e: Edge)
    ensures IsSignal(e.etype) ==> EdgeToRF(e).style == SignalStyle
    ensures !IsSignal(e.etype) ==> EdgeToRF(e).style == EdgeStyle(e.etype) && EdgeToRF(e).style.dash != Some("5,5")
  {
  }

  /** A canvas edge keeps id and endpoints; missing handles, insulation, pipe size and
      pipe class get the defaults `right-source`, `left-target`, `N`, `2"` and `A1B`. */
  lemma EdgeToRFDefaults(e: Edge)
    ensures var r := EdgeToRF(e);
      r.id == e.id && r.source == e.fromNode && r.target == e.toNode && r.data.Some? &&
      (e.fromPort.None? ==> r.sourceHandle == Some("right-source")) &&
      (e.toPort.None? ==> r.targetHandle == Some("left-target")) &&
      (e.insulation.None? ==> r.data.value.insulation == Some("N")) &&
      (e.pipeSize.None? ==> r.data.value.pipeSize == Some("2\"")) &&
      (e.pipeClass.None? ==> r.data.value.pipeClass == Some("A1B"))
  {
  }

  /** A canvas node with no data becomes an `equipment` node of subtype `unknown` with an
      empty tag, located in the field, with no properties or nozzles; its description is
      empty in the web copy and `Equipment` in the older one. */
  lemma NodeFromEmptyData(copy: Copy, n: RFNode)
    requires n.data.None?
    ensures var c := NodeFromRF(copy, n);
      c.id == n.id && c.position == n.position && c.ntype == Equipment && c.subtype == "unknown" && c.tag == "" &&
      c.location == Some("field") && c.properties == map[] && c.nozzles == [] &&
      c.description == Some(if copy == Web then "" else "Equipment")
  {
  }

  /** The tag is the labelText, else the `tag` field, else empty; an empty location becomes
      `field`; the older copy never produces an empty description. */
  lemma NodeFromRFFields(copy: Copy, n: RFNode)
    ensures var c := NodeFromRF(copy, n);
      var data := GetOr(n.data, NoNodeData);
      c.id == n.id && c.position == n.position &&
      (data.labelText.Some? && data.labelText.value != "" ==> c.tag == data.labelText.value) &&
      (data.labelText.None? || data.labelText.value == "" ==> c.tag == OrElse(data.tag, "")) &&
      c.location.Some? && c.location.value != "" &&
      (copy == Legacy ==> c.description.Some? && c.description.value != "")
  {
  }

  /** A canvas edge's labelText wins over its line-number field; the insulation is never empty;
      an empty target handle is dropped. */
  lemma EdgeFromRFFields(e: RFEdge)
    ensures var c := EdgeFromRF(e);
      var data := GetOr(e.data, NoEdgeData);
      c.id == e.id && c.fromNode == e.source && c.toNode == e.target && c.fromPort == e.sourceHandle &&
      c.etype == GetOr(data.edgeType, Process) &&
      (e.labelText.Some? && e.labelText.value != "" ==> c.lineNumber == e.labelText) &&
      c.insulation.Some? && c.insulation.value != "" &&
      (e.targetHandle == Some("") ==> c.toPort.None?)
  {
  }

  // ---------------------------------------------------------------------------
  // Round trip
  // ---------------------------------------------------------------------------

  /** The meta a diagram is saved back with. */
  function MetaOf(d: Diagram): Meta {
    Meta(d.id, d.name, d.projectId, Some(d.diagramType))
  }

  /** What a node looks like after a trip to the canvas and back: the defaults filled in. */
  function NormalNode(copy: Copy, n: Node): Node {
    var desc := GetOr(n.description, "");
    n.(tag := if n.tag != "" then n.tag else n.subtype,
       description := Some(if copy == Web || desc != "" then desc
                           else if SymbolKey(n.subtype) != "" then SymbolKey(n.subtype) else "Equipment"),
       location := Some(if n.location.Some? && n.location.value != "" then n.location.value else "field"))
  }

  /** What an edge looks like after a trip to the canvas and back: default handles become
      ports, an empty target port is dropped, and line number, pipe size, pipe class and
      insulation are filled in. */
  function NormalEdge(e: Edge): Edge {
    e.(fromPort := Some(GetOr(e.fromPort, SourceHandle)),
       toPort := if e.toPort == Some("") then None else Some(GetOr(e.toPort, TargetHandle)),
       lineNumber := Some(GetOr(e.lineNumber, "")),
       pipeSize := Some(GetOr(e.pipeSize, DefaultPipeSize)),
       pipeClass := Some(GetOr(e.pipeClass, DefaultPipeClass)),
       insulation := Some(if e.insulation.Some? && e.insulation.value != "" then e.insulation.value else "N"))
  }

  function RoundTrip(copy: Copy, d: Diagram): Diagram {
    var f := ToReactFlow(d);
    ToCanonical(copy, f.nodes, f.edges, MetaOf(d))
  }

  lemma NodeRoundTrip(copy: Copy, n: Node)
    ensures NodeFromRF(copy, NodeToRF(n)) == NormalNode(copy, n)
  {
  }

  lemma EdgeRoundTrip(e: Edge)
    ensures EdgeFromRF(EdgeToRF(e)) == NormalEdge(e)
  {
  }

  /** Saving what the canvas shows gives the diagram back with the defaults filled in. */
  lemma RoundTripNormalises(copy: Copy, d: Diagram)
    ensures var r := RoundTrip(copy, d);
      r.id == d.id && r.name == d.name && r.diagramType == d.diagramType && r.projectId == d.projectId &&
      r.schemaVersion == 1 && r.metadata == map[] &&
      |r.nodes| == |d.nodes| && |r.edges| == |d.edges| &&
      (forall i :: 0 <= i < |d.nodes| ==> r.nodes[i] == NormalNode(copy, d.nodes[i])) &&
      (forall i :: 0 <= i < |d.edges| ==> r.edges[i] == NormalEdge(d.edges[i]))
  {
    forall i | 0 <= i < |d.nodes| ensures RoundTrip(copy, d).nodes[i] == NormalNode(copy, d.nodes[i]) {
      NodeRoundTrip(copy, d.nodes[i]);
    }
    forall i | 0 <= i < |d.edges| ensures RoundTrip(copy, d).edges[i] == NormalEdge(d.edges[i]) {
      EdgeRoundTrip(d.edges[i]);
    }
  }

  /** The round trip keeps node ids, types, subtypes, positions, names, non-empty tags and
      descriptions, and edge ids, endpoints, types and line numbers that were set. */
  lemma RoundTripKeeps(copy: Copy, d: Diagram)
    ensures var r := RoundTrip(copy, d);
      |r.nodes| == |d.nodes| && |r.edges| == |d.edges| &&
      (forall i :: 0 <= i < |d.nodes| ==>
        var (a, b) := (d.nodes[i], r.nodes[i]);
        b.id == a.id && b.ntype == a.ntype && b.subtype == a.subtype && b.position == a.position &&
        b.name == a.name && b.properties == a.properties && b.nozzles == a.nozzles &&
        (a.tag != "" ==> b.tag == a.tag) &&
        (a.description.Some? && a.description.value != "" ==> b.description == a.description) &&
        (copy == Web && a.description.Some? ==> b.description == a.description)) &&
      (forall i :: 0 <= i < |d.edges| ==>
        var (a, b) := (d.edges[i], r.edges[i]);
        b.id == a.id && b.fromNode == a.fromNode && b.toNode == a.toNode && b.etype == a.etype &&
        b.properties == a.properties && b.waypoints == a.waypoints &&
        (a.lineNumber.Some? ==> b.lineNumber == a.lineNumber))
  {
    RoundTripNormalises(copy, d);
  }

  /** A diagram with no empty target port is a fixed point after one round trip: a second
      trip changes nothing. */
  lemma RoundTripStable(copy: Copy, d: Diagram)
    requires forall i :: 0 <= i < |d.edges| ==> d.edges[i].toPort != Some("")
    ensures RoundTrip(copy, RoundTrip(copy, d)) == RoundTrip(copy, d)
  {
    var r := RoundTrip(copy, d);
    RoundTripNormalises(copy, d);
    RoundTripNormalises(copy, r);
    var rr := RoundTrip(copy, r);
    forall i | 0 <= i < |r.nodes| ensures rr.nodes[i] == r.nodes[i] {
      assert NormalNode(copy, NormalNode(copy, d.nodes[i])) == NormalNode(copy, d.nodes[i]);
    }
    forall i | 0 <= i < |r.edges| ensures rr.edges[i] == r.edges[i] {
      assert NormalEdge(NormalEdge(d.edges[i])) == NormalEdge(d.edges[i]);
    }
  }

  /** An empty target port is dropped by the first trip and becomes `left-target` on the
      second, so without the requirement above a second trip can still change the edge. */
  lemma EmptyTargetPortSettlesLate(e: Edge)
    requires e.toPort == Some("")
    ensures NormalEdge(e).toPort.None?
    ensures NormalEdge(NormalEdge(e)).toPort == Some("left-target")
  {
  }
}

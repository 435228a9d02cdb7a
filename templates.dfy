/** The standard diagram templates: `generate_template` of the domain template
    service and of the earlier backend generator. Both append the nodes of a
    template one by one (each tagged with the next sequential tag of its prefix),
    then its edges (each with a literal or the next line number), then give every
    node without a description a default one; the earlier generator also runs its
    layout over the result. */
module Templates {
  import opened Text
  import opened Canonical
  import Tags

  /** `Service` is apps/api's template_service.py; `Legacy` is backend's generator.py. */
  datatype Flavour = Service | Legacy

  const Kinds: seq<string> := ["simple_pump_loop", "heat_exchange_unit", "reactor_system", "distillation_basic"]

  const EquipmentDescriptions: map<string, string> := map[
    "storage_tank" := "Storage Tank",
    "tank" := "Storage Tank",
    "centrifugal_pump" := "Centrifugal Pump",
    "vessel_vertical" := "Vertical Vessel",
    "vessel_horizontal" := "Horizontal Vessel",
    "vessel" := "Storage Vessel",
    "heat_exchanger" := "Heat Exchanger",
    "reactor" := "Reactor",
    "distillation_column" := "Distillation Column",
    "column" := "Distillation Column",
    "control_valve" := "Control Valve",
    "gate_valve" := "Gate Valve",
    "check_valve" := "Check Valve",
    "relief_valve" := "Relief/Safety Valve",
    "safety_valve" := "Relief/Safety Valve",
    "indicator_controller" := "Indicator Controller"
  ]

  /** Replacing one character by another keeps the length. */
  lemma {:induction false} ReplaceCharLength(s: string, a: char, b: char)
    ensures |ReplaceAll(s, [a], [b])| == |s|
  {
    if |s| >= 1 {
      ReplaceCharLength(s[1..], a, b);
    }
  }

  /** `EQUIPMENT_DESCRIPTIONS.get(subtype, subtype.replace("_", " ").title())` */
  function DefaultDescription(subtype: string): (r: string)
    ensures subtype != "" ==> r != ""
  {
    if subtype in EquipmentDescriptions then EquipmentDescriptions[subtype]
    else
      ReplaceCharLength(subtype, '_', ' ');
      Title(ReplaceAll(subtype, "_", " "))
  }

  /** `if not node.description: node.description = ...` */
  function Describe(n: Node): (r: Node)
    ensures r.description.Some?
    ensures n.subtype != "" ==> r.description.value != ""
    ensures n.description.Some? && n.description.value != "" ==> r == n
    ensures r == n.(description := r.description)
  {
    if n.description.None? || n.description.value == "" then n.(description := Some(DefaultDescription(n.subtype)))
    else n
  }

  // ---------------------------------------------------------------------------
  // The templates, as the lists of nodes and edges the source appends
  // ---------------------------------------------------------------------------

  /** A node to append: `CanonicalNode(type, subtype, tag=<next tag of prefix>, description, position)`. */
  datatype NodePart = NodePart(ntype: NodeType, subtype: string, prefix: string, description: Option<string>, position: Position)

  /** How an edge's line number is written: `2"-P-{n}-A1B` literally, or `_next_line_number`. */
  datatype LineRule = Numbered(n: nat) | Next(size: string, fluid: string)

  /** An edge to append, between the nodes at two positions of the node list. */
  datatype EdgePart = EdgePart(etype: EdgeType, from: nat, to: nat, line: LineRule)

  datatype Blueprint = Blueprint(nodes: seq<NodePart>, edges: seq<EdgePart>)

  predicate EdgesWithin(parts: seq<EdgePart>, count: nat) {
    forall j :: 0 <= j < |parts| ==> parts[j].from < count && parts[j].to < count
  }

  predicate WellFormed(bp: Blueprint) {
    EdgesWithin(bp.edges, |bp.nodes|)
  }

  function Part(ntype: NodeType, subtype: string, prefix: string, description: Option<string>, x: real, y: real): NodePart {
    NodePart(ntype, subtype, prefix, description, Position(x, y))
  }

  function ProcessPart(from: nat, to: nat): EdgePart {
    EdgePart(Process, from, to, Next("2\"", "P"))
  }

  function SignalPart(from: nat, to: nat): EdgePart {
    EdgePart(SignalElectrical, from, to, Next("2\"", "S"))
  }

  const PumpLoop := Blueprint(
    [Part(Equipment, "tank", "TK", None, 100.0, 200.0),
     Part(Valve, "gate_valve", "XV", None, 350.0, 200.0),
     Part(Equipment, "centrifugal_pump", "P", None, 600.0, 200.0),
     Part(Valve, "check_valve", "XV", None, 850.0, 200.0),
     Part(Valve, "gate_valve", "XV", None, 1100.0, 200.0),
     Part(Equipment, "vessel", "V", None, 1350.0, 200.0)],
    [EdgePart(Process, 0, 1, Numbered(101)),
     EdgePart(Process, 1, 2, Numbered(102)),
     EdgePart(Process, 2, 3, Numbered(103)),
     EdgePart(Process, 3, 4, Numbered(104)),
     EdgePart(Process, 4, 5, Numbered(105))])

  const HeatExchangeUnit := Blueprint(
    [Part(Equipment, "tank", "TK", Some("Storage Tank"), 100.0, 200.0),
     Part(Equipment, "centrifugal_pump", "P", Some("Centrifugal Pump"), 350.0, 200.0),
     Part(Equipment, "heat_exchanger", "HE", Some("Heat Exchanger"), 600.0, 200.0),
     Part(Valve, "control_valve", "TV", Some("Control Valve"), 850.0, 200.0),
     Part(Instrument, "indicator_controller", "TIC", Some("Temperature Controller"), 850.0, 50.0)],
    [ProcessPart(0, 1), ProcessPart(1, 2), ProcessPart(2, 3),
     SignalPart(4, 3)])

  const ReactorSystem := Blueprint(
    [Part(Equipment, "tank", "TK", Some("Storage Tank A"), 100.0, 100.0),
     Part(Equipment, "tank", "TK", Some("Storage Tank B"), 100.0, 300.0),
     Part(Equipment, "centrifugal_pump", "P", Some("Feed Pump A"), 350.0, 100.0),
     Part(Equipment, "centrifugal_pump", "P", Some("Feed Pump B"), 350.0, 300.0),
     Part(Equipment, "reactor", "R", Some("Chemical Reactor"), 600.0, 200.0),
     Part(Valve, "safety_valve", "PRV", Some("Pressure Relief"), 600.0, 50.0),
     Part(Instrument, "indicator_controller", "LIC", Some("Level Controller"), 850.0, 200.0)],
    [ProcessPart(0, 2), ProcessPart(2, 4), ProcessPart(1, 3), ProcessPart(3, 4), ProcessPart(4, 5),
     SignalPart(6, 4)])

  const DistillationBasic := Blueprint(
    [Part(Equipment, "tank", "TK", Some("Feed Tank"), 100.0, 300.0),
     Part(Equipment, "centrifugal_pump", "P", None, 350.0, 300.0),
     Part(Equipment, "heat_exchanger", "HE", None, 600.0, 300.0),
     Part(Equipment, "column", "COL", None, 850.0, 300.0),
     Part(Equipment, "heat_exchanger", "HE", None, 850.0, 100.0),
     Part(Equipment, "tank", "TK", None, 1100.0, 100.0),
     Part(Equipment, "centrifugal_pump", "P", None, 1100.0, 300.0)],
    [ProcessPart(0, 1), ProcessPart(1, 2), ProcessPart(2, 3),
     EdgePart(Process, 3, 4, Next("4\"", "R")),
     EdgePart(Process, 4, 5, Next("4\"", "R")),
     EdgePart(Process, 5, 6, Next("4\"", "R")),
     EdgePart(Process, 6, 3, Next("4\"", "R"))])

  /** The template of a type, or None where the source raises ValueError. */
  function BlueprintOf(kind: string): (r: Option<Blueprint>)
    ensures r.None? <==> kind !in Kinds
    ensures r.Some? ==> WellFormed(r.value)
    ensures r.Some? ==> forall k :: 0 <= k < |r.value.nodes| ==> r.value.nodes[k].subtype in EquipmentDescriptions
  {
    if kind == "simple_pump_loop" then Some(PumpLoop)
    else if kind == "heat_exchange_unit" then Some(HeatExchangeUnit)
    else if kind == "reactor_system" then Some(ReactorSystem)
    else if kind == "distillation_basic" then Some(DistillationBasic)
    else None
  }

  // ---------------------------------------------------------------------------
  // Building a template
  // ---------------------------------------------------------------------------

  /** The k-th `uuid4()` drawn while the template is built: the diagram's id is the
      0th, then one per node and one per edge in creation order. */
  function Drawn(k: nat): (id: string)
    ensures |id| == k + 1
  {
    seq(k + 1, _ => '#')
  }

  /** `DiagramCanonical(name=f"Generated {template_type.replace('_', ' ').title()}")` */
  function EmptyTemplate(kind: string): Diagram {
    Diagram(1, Drawn(0), "Generated " + Title(ReplaceAll(kind, "_", " ")), "pid", None, [], [], map[])
  }

  /** The node appended after `nodes`, tagged with the next tag of its prefix. */
  function PlacedNode(nodes: seq<Node>, p: NodePart): Node {
    NewNode(Drawn(1 + |nodes|), p.ntype, p.subtype, Tags.SequentialTag(nodes, p.prefix), p.position).(description := p.description)
  }

  /** The node list after appending every part in order, each node built by
      `place` from the nodes appended before it. */
  function PlaceAll(parts: seq<NodePart>, place: (seq<Node>, NodePart) -> Node): (nodes: seq<Node>)
    ensures |nodes| == |parts|
  {
    if parts == [] then []
    else
      var init := PlaceAll(parts[..|parts| - 1], place);
      init + [place(init, parts[|parts| - 1])]
  }

  /** The node list of a template: every part appended in order. */
  function PlaceNodes(parts: seq<NodePart>): seq<Node> {
    PlaceAll(parts, PlacedNode)
  }

  function LineText(edges: seq<Edge>, rule: LineRule): string {
    match rule
    case Numbered(n) => "2\"-P-" + NatToString(n) + "-A1B"
    case Next(size, fluid) => Tags.NextLineNumber(edges, fluid, size, "A1B")
  }

  /** The edge appended after `edges`, joining the nodes at the part's two positions. */
  function PlacedEdge(nodes: seq<Node>, edges: seq<Edge>, p: EdgePart): Edge
    requires p.from < |nodes| && p.to < |nodes|
  {
    NewEdge(Drawn(1 + |nodes| + |edges|), p.etype, nodes[p.from].id, nodes[p.to].id, Some(LineText(edges, p.line)))
  }

  /** The edge list after appending every part in order. */
  function PlaceEdges(nodes: seq<Node>, parts: seq<EdgePart>): (edges: seq<Edge>)
    requires EdgesWithin(parts, |nodes|)
    ensures |edges| == |parts|
  {
    if parts == [] then []
    else
      var init := PlaceEdges(nodes, parts[..|parts| - 1]);
      init + [PlacedEdge(nodes, init, parts[|parts| - 1])]
  }

  function DescribeAll(nodes: seq<Node>): (r: seq<Node>) {
    seq(|nodes|, i requires 0 <= i < |nodes| => Describe(nodes[i]))
  }

  /** The template before any layout: nodes, then edges, then descriptions. */
  function Build(kind: string, bp: Blueprint): Diagram
    requires WellFormed(bp)
  {
    var nodes := PlaceNodes(bp.nodes);
    EmptyTemplate(kind).(nodes := DescribeAll(nodes), edges := PlaceEdges(nodes, bp.edges))
  }

  /** `generate_template(template_type)`: None where the source raises ValueError;
      the earlier generator passes its result through its layout (`engine`). */
  function TemplateOf(fl: Flavour, kind: string, engine: Diagram -> Diagram): Option<Diagram> {
    match BlueprintOf(kind)
    case None => None
    case Some(bp) =>
      var d := Build(kind, bp);
      Some(if fl == Legacy then engine(d) else d)
  }

  // ---------------------------------------------------------------------------
  // generate_template, step by step
  // ---------------------------------------------------------------------------

  method AppendNode(d: Diagram, p: NodePart) returns (r: Diagram)
    ensures r == d.(nodes := d.nodes + [PlacedNode(d.nodes, p)])
  {
    var tag := Tags.GenerateSequentialTag(d.nodes, p.prefix);
    var node := NewNode(Drawn(1 + |d.nodes|), p.ntype, p.subtype, tag, p.position).(description := p.description);
    r := d.(nodes := d.nodes + [node]);
  }

  method AppendEdge(d: Diagram, p: EdgePart) returns (r: Diagram)
    requires p.from < |d.nodes| && p.to < |d.nodes|
    ensures r == d.(edges := d.edges + [PlacedEdge(d.nodes, d.edges, p)])
  {
    var line;
    match p.line {
      case Numbered(n) =>
        line := "2\"-P-" + NatToString(n) + "-A1B";
      case Next(size, fluid) =>
        line := Tags.ComputeNextLineNumber(d.edges, fluid, size, "A1B");
    }
    var edge := NewEdge(Drawn(1 + |d.nodes| + |d.edges|), p.etype, d.nodes[p.from].id, d.nodes[p.to].id, Some(line));
    r := d.(edges := d.edges + [edge]);
  }

  /** The node appends of a template. */
  method AppendNodes(d: Diagram, parts: seq<NodePart>) returns (r: Diagram)
    requires d.nodes == []
    ensures r == d.(nodes := PlaceNodes(parts))
  {
    r := d;
    for i := 0 to |parts|
      invariant r == d.(nodes := PlaceNodes(parts[..i]))
    {
      assert parts[..i + 1][..i] == parts[..i];
      r := AppendNode(r, parts[i]);
    }
    assert parts[..|parts|] == parts;
  }

  /** The edge appends of a template. */
  method AppendEdges(d: Diagram, parts: seq<EdgePart>) returns (r: Diagram)
    requires d.edges == [] && EdgesWithin(parts, |d.nodes|)
    ensures r == d.(edges := PlaceEdges(d.nodes, parts))
  {
    r := d;
    for j := 0 to |parts|
      invariant r == d.(edges := PlaceEdges(d.nodes, parts[..j]))
    {
      assert parts[..j + 1][..j] == parts[..j];
      r := AppendEdge(r, parts[j]);
    }
    assert parts[..|parts|] == parts;
  }

  /** The final loop giving every node without a description its default one, in place. */
  method DescribeNodes(d: Diagram) returns (r: Diagram)
    ensures r == d.(nodes := DescribeAll(d.nodes))
  {
    r := d;
    for i := 0 to |d.nodes|
      invariant |r.nodes| == |d.nodes|
      invariant forall k :: 0 <= k < i ==> r.nodes[k] == Describe(d.nodes[k])
      invariant forall k :: i <= k < |d.nodes| ==> r.nodes[k] == d.nodes[k]
      invariant r == d.(nodes := r.nodes)
    {
      var node := r.nodes[i];
      if node.description.None? || node.description.value == "" {
        node := node.(description := Some(DefaultDescription(node.subtype)));
        r := r.(nodes := r.nodes[i := node]);
      }
    }
    assert r.nodes == DescribeAll(d.nodes);
  }

  method GenerateTemplate(fl: Flavour, kind: string, engine: Diagram -> Diagram) returns (r: Option<Diagram>)
    ensures r == TemplateOf(fl, kind, engine)
  {
    var diagram := EmptyTemplate(kind);
    var bp := BlueprintOf(kind);
    if bp.None? {
      return None;
    }
    diagram := AppendNodes(diagram, bp.value.nodes);
    diagram := AppendEdges(diagram, bp.value.edges);
    diagram := DescribeNodes(diagram);
    if fl == Legacy {
      diagram := engine(diagram);
    }
    r := Some(diagram);
  }

  // ---------------------------------------------------------------------------
  // Properties of the templates
  // ---------------------------------------------------------------------------

  /** Nodes appended later do not change those appended earlier. */
  lemma {:induction false} PlaceAllPrefix(parts: seq<NodePart>, place: (seq<Node>, NodePart) -> Node, k: nat)
    requires k <= |parts|
    ensures PlaceAll(parts, place)[..k] == PlaceAll(parts[..k], place)
  {
    if k < |parts| {
      var init := parts[..|parts| - 1];
      assert PlaceAll(parts, place)[..|parts| - 1] == PlaceAll(init, place);
      PlaceAllPrefix(init, place, k);
      assert init[..k] == parts[..k];
    } else {
      assert parts[..k] == parts;
    }
  }

  /** Node k is built after the nodes before it, from the k-th part. */
  lemma PlaceAllAt(parts: seq<NodePart>, place: (seq<Node>, NodePart) -> Node, k: nat)
    requires k < |parts|
    ensures PlaceAll(parts, place)[k] == place(PlaceAll(parts[..k], place), parts[k])
  {
    var q := parts[..k + 1];
    var before := PlaceAll(parts[..k], place);
    PlaceAllPrefix(parts, place, k + 1);
    assert q[..|q| - 1] == parts[..k] && q[|q| - 1] == parts[k];
    assert PlaceAll(q, place) == before + [place(before, parts[k])];
    calc {
      PlaceAll(parts, place)[k];
      PlaceAll(parts, place)[..k + 1][k];
      PlaceAll(q, place)[k];
    }
  }

  lemma {:induction false} PlaceEdgesPrefix(nodes: seq<Node>, parts: seq<EdgePart>, j: nat)
    requires EdgesWithin(parts, |nodes|) && j <= |parts|
    ensures EdgesWithin(parts[..j], |nodes|)
    ensures PlaceEdges(nodes, parts)[..j] == PlaceEdges(nodes, parts[..j])
  {
    if j < |parts| {
      var init := parts[..|parts| - 1];
      assert PlaceEdges(nodes, parts)[..|parts| - 1] == PlaceEdges(nodes, init);
      PlaceEdgesPrefix(nodes, init, j);
      assert init[..j] == parts[..j];
    } else {
      assert parts[..j] == parts;
    }
  }

  /** Edge j is built after the edges before it, from the j-th part. */
  lemma PlaceEdgesAt(nodes: seq<Node>, parts: seq<EdgePart>, j: nat)
    requires EdgesWithin(parts, |nodes|) && j < |parts|
    ensures EdgesWithin(parts[..j], |nodes|)
    ensures PlaceEdges(nodes, parts)[j] == PlacedEdge(nodes, PlaceEdges(nodes, parts[..j]), parts[j])
  {
    PlaceEdgesPrefix(nodes, parts, j + 1);
    PlaceEdgesPrefix(nodes, parts, j);
    var q := parts[..j + 1];
    assert q[..|q| - 1] == parts[..j];
    assert PlaceEdges(nodes, parts)[j] == PlaceEdges(nodes, q)[j];
  }

  /** Node k of a template: the k-th part's type, subtype and position, the (k+1)-th
      drawn id, the next tag of its prefix after the nodes before it, and its given
      description or else the default one. */
  lemma BuildNode(kind: string, bp: Blueprint, k: nat)
    requires WellFormed(bp) && k < |bp.nodes|
    ensures var n := Build(kind, bp).nodes[k];
      var p := bp.nodes[k];
      n.id == Drawn(1 + k) && n.ntype == p.ntype && n.subtype == p.subtype && n.position == p.position &&
      n.location == Some(DefaultLocation) &&
      n.tag == Tags.SequentialTag(PlaceNodes(bp.nodes[..k]), p.prefix) &&
      n.description == Some(if p.description.Some? && p.description.value != "" then p.description.value
                            else DefaultDescription(p.subtype))
  {
    PlaceAllAt(bp.nodes, PlacedNode, k);
  }

  /** Edge j of a template: the j-th part's type, joining the ids of the part's two
      nodes, with the next drawn id and the line number its rule gives. */
  lemma BuildEdge(kind: string, bp: Blueprint, j: nat)
    requires WellFormed(bp) && j < |bp.edges|
    ensures bp.edges[j].from < |Build(kind, bp).nodes| && bp.edges[j].to < |Build(kind, bp).nodes|
    ensures var d := Build(kind, bp);
      var e := d.edges[j];
      var p := bp.edges[j];
      e.id == Drawn(1 + |bp.nodes| + j) && e.etype == p.etype &&
      e.fromNode == d.nodes[p.from].id && e.toNode == d.nodes[p.to].id &&
      e.insulation == Some(DefaultInsulation) &&
      e.lineNumber == Some(LineText(PlaceEdges(PlaceNodes(bp.nodes), bp.edges[..j]), p.line))
  {
    PlaceEdgesAt(PlaceNodes(bp.nodes), bp.edges, j);
  }

  /** Every edge of a template joins two nodes of the same template. */
  lemma TemplateEdgesJoinNodes(kind: string, bp: Blueprint)
    requires WellFormed(bp)
    ensures var d := Build(kind, bp);
      forall j :: 0 <= j < |d.edges| ==> HasNode(d.nodes, d.edges[j].fromNode) && HasNode(d.nodes, d.edges[j].toNode)
  {
    var d := Build(kind, bp);
    forall j | 0 <= j < |d.edges|
      ensures HasNode(d.nodes, d.edges[j].fromNode) && HasNode(d.nodes, d.edges[j].toNode)
    {
      BuildEdge(kind, bp, j);
    }
  }

  /** No two nodes of a template share a tag. */
  lemma TemplateTagsDistinct(kind: string, bp: Blueprint)
    requires WellFormed(bp)
    ensures var d := Build(kind, bp);
      forall i, j :: 0 <= i < j < |d.nodes| ==> d.nodes[i].tag != d.nodes[j].tag
  {
    var d := Build(kind, bp);
    forall i, j | 0 <= i < j < |d.nodes| ensures d.nodes[i].tag != d.nodes[j].tag {
      var before := PlaceNodes(bp.nodes[..j]);
      BuildNode(kind, bp, i);
      BuildNode(kind, bp, j);
      PlaceAllPrefix(bp.nodes, PlacedNode, j);
      PlaceAllAt(bp.nodes, PlacedNode, i);
      assert before[i] == PlaceNodes(bp.nodes)[i];
      Tags.SequentialTagNotTaken(before, bp.nodes[j].prefix, i);
    }
  }

  /** How many of the parts carry the prefix. */
  function PrefixCount(parts: seq<NodePart>, prefix: string): nat {
    if parts == [] then 0
    else PrefixCount(parts[..|parts| - 1], prefix) + (if parts[|parts| - 1].prefix == prefix then 1 else 0)
  }

  /** After the first `k` parts are placed, the next number of a dash-free
      prefix is 101 plus the number of those parts with that prefix: each
      prefix counts up from 101 on its own. Stated for any `place` that tags
      a node with its prefix and the number `num` gives, where `num` starts
      at 101, moves on by one past the node carrying it and ignores tags of
      other prefixes. */
  lemma {:induction false} PlacedNumberCount(parts: seq<NodePart>, place: (seq<Node>, NodePart) -> Node,
                                             num: (seq<Node>, string) -> int, k: nat, prefix: string)
    requires k <= |parts| && '-' !in prefix
    requires forall i :: 0 <= i < |parts| ==> '-' !in parts[i].prefix
    requires forall nodes, p: NodePart :: num(nodes, p.prefix) >= 0 && place(nodes, p).tag == p.prefix + "-" + NatToString(num(nodes, p.prefix))
    requires forall pre :: num([], pre) == 101
    requires forall nodes, n: Node, pre :: num(nodes, pre) >= 0 && n.tag == pre + "-" + NatToString(num(nodes, pre)) ==>
               num(nodes + [n], pre) == num(nodes, pre) + 1
    requires forall nodes, n: Node, pre :: !StartsWith(n.tag, pre + "-") ==> num(nodes + [n], pre) == num(nodes, pre)
    ensures num(PlaceAll(parts[..k], place), prefix) == 101 + PrefixCount(parts[..k], prefix)
    decreases k
  {
    if k == 0 {
      assert parts[..0] == [];
    } else {
      var p := parts[k - 1];
      var before := parts[..k - 1];
      var init := PlaceAll(before, place);
      PlacedNumberCount(parts, place, num, k - 1, prefix);
      assert parts[..k][..k - 1] == before;
      assert PlaceAll(parts[..k], place) == init + [place(init, p)];
      var n := place(init, p);
      if p.prefix != prefix {
        Tags.PrefixesApart(prefix, p.prefix, NatToString(num(init, p.prefix)));
      }
    }
  }

  /** The number `generate_sequential_tag` puts after a prefix. */
  function NextNumber(nodes: seq<Node>, prefix: string): int {
    Tags.RunningMax(Tags.TagNumbers(nodes, prefix)) + 1
  }

  /** Tagging nodes with `NextNumber` meets what `PlacedNumberCount` asks of `num`. */
  lemma NextNumberSteps()
    ensures forall nodes, p: NodePart :: NextNumber(nodes, p.prefix) >= 0 &&
              PlacedNode(nodes, p).tag == p.prefix + "-" + NatToString(NextNumber(nodes, p.prefix))
    ensures forall pre :: NextNumber([], pre) == 101
    ensures forall nodes, n: Node, pre :: NextNumber(nodes, pre) >= 0 && n.tag == pre + "-" + NatToString(NextNumber(nodes, pre)) ==>
              NextNumber(nodes + [n], pre) == NextNumber(nodes, pre) + 1
    ensures forall nodes, n: Node, pre :: !StartsWith(n.tag, pre + "-") ==> NextNumber(nodes + [n], pre) == NextNumber(nodes, pre)
  {
    forall nodes: seq<Node>, n: Node, pre: string | NextNumber(nodes, pre) >= 0 && n.tag == pre + "-" + NatToString(NextNumber(nodes, pre))
      ensures NextNumber(nodes + [n], pre) == NextNumber(nodes, pre) + 1
    {
      Tags.SequentialTagNext(nodes, n, pre);
    }
    forall nodes: seq<Node>, n: Node, pre: string | !StartsWith(n.tag, pre + "-")
      ensures NextNumber(nodes + [n], pre) == NextNumber(nodes, pre)
    {
      Tags.UnparsableTagIgnored(nodes, n, pre);
    }
  }

  /** Node k of a template with dash-free prefixes is tagged with its prefix
      and 101 plus the number of earlier nodes of that prefix. */
  lemma TemplateTag(kind: string, bp: Blueprint, k: nat)
    requires WellFormed(bp) && k < |bp.nodes|
    requires forall i :: 0 <= i < |bp.nodes| ==> '-' !in bp.nodes[i].prefix
    ensures Build(kind, bp).nodes[k].tag ==
            bp.nodes[k].prefix + "-" + NatToString(101 + PrefixCount(bp.nodes[..k], bp.nodes[k].prefix))
  {
    NextNumberSteps();
    PlacedNumberCount(bp.nodes, PlacedNode, NextNumber, k, bp.nodes[k].prefix);
    BuildNode(kind, bp, k);
  }

  /** All ids of a template differ: the diagram's, every node's and every edge's. */
  lemma TemplateIdsDistinct(kind: string, bp: Blueprint)
    requires WellFormed(bp)
    ensures var d := Build(kind, bp);
      (forall i, j :: 0 <= i < j < |d.nodes| ==> d.nodes[i].id != d.nodes[j].id) &&
      (forall i, j :: 0 <= i < j < |d.edges| ==> d.edges[i].id != d.edges[j].id) &&
      (forall i, j :: 0 <= i < |d.nodes| && 0 <= j < |d.edges| ==> d.nodes[i].id != d.edges[j].id) &&
      (forall i :: 0 <= i < |d.nodes| ==> d.nodes[i].id != d.id) &&
      (forall j :: 0 <= j < |d.edges| ==> d.edges[j].id != d.id)
  {
    var d := Build(kind, bp);
    forall i | 0 <= i < |d.nodes| ensures |d.nodes[i].id| == 2 + i {
      BuildNode(kind, bp, i);
    }
    forall j | 0 <= j < |d.edges| ensures |d.edges[j].id| == 2 + |d.nodes| + j {
      BuildEdge(kind, bp, j);
    }
  }

  /** Every edge takes the next line number, with a size and fluid free of dashes. */
  predicate NextRun(parts: seq<EdgePart>) {
    forall j :: 0 <= j < |parts| ==>
      parts[j].line.Next? && '-' !in parts[j].line.size && '-' !in parts[j].line.fluid
  }

  lemma NextRunPrefix(parts: seq<EdgePart>, j: nat)
    requires NextRun(parts) && j <= |parts|
    ensures NextRun(parts[..j])
  {
    assert forall i :: 0 <= i < j ==> parts[..j][i] == parts[i];
  }

  /** The generated line numbers of a run of `_next_line_number` edges count up from 101. */
  lemma {:induction false} NextRunSeq(nodes: seq<Node>, parts: seq<EdgePart>)
    requires EdgesWithin(parts, |nodes|) && NextRun(parts)
    ensures Tags.NextSeq(PlaceEdges(nodes, parts)) == 101 + |parts|
  {
    if parts == [] {
      Tags.NextSeqExceeds([]);
    } else {
      var init := parts[..|parts| - 1];
      var last := parts[|parts| - 1];
      NextRunPrefix(parts, |parts| - 1);
      NextRunSeq(nodes, init);
      Tags.NextSeqAfter(PlaceEdges(nodes, init), PlacedEdge(nodes, PlaceEdges(nodes, init), last),
                        last.line.fluid, last.line.size, "A1B");
    }
  }

  /** Edge j of such a run carries `{size}-{fluid}-{101 + j:03d}-A1B`. */
  lemma NextRunLine(nodes: seq<Node>, parts: seq<EdgePart>, j: nat)
    requires EdgesWithin(parts, |nodes|) && NextRun(parts) && j < |parts|
    ensures PlaceEdges(nodes, parts)[j].lineNumber ==
      Some(parts[j].line.size + "-" + parts[j].line.fluid + "-" + Pad3(101 + j) + "-" + "A1B")
  {
    PlaceEdgesAt(nodes, parts, j);
    NextRunPrefix(parts, j);
    NextRunSeq(nodes, parts[..j]);
  }

  /** Every node of a template ends with a non-empty description: its own when it was
      given one, the default for its subtype otherwise. */
  lemma TemplateDescribed(kind: string, bp: Blueprint)
    requires WellFormed(bp)
    requires forall k :: 0 <= k < |bp.nodes| ==> bp.nodes[k].subtype != ""
    ensures var d := Build(kind, bp);
      forall k :: 0 <= k < |d.nodes| ==> d.nodes[k].description.Some? && d.nodes[k].description.value != ""
  {
    var d := Build(kind, bp);
    forall k | 0 <= k < |d.nodes| ensures d.nodes[k].description.Some? && d.nodes[k].description.value != "" {
      BuildNode(kind, bp, k);
    }
  }

  /** The line numbers of a diagram's edges, in order. */
  function Lines(d: Diagram): (r: seq<Option<string>>)
    ensures |r| == |d.edges|
  {
    seq(|d.edges|, j requires 0 <= j < |d.edges| => d.edges[j].lineNumber)
  }

  /** A chain of literally numbered process lines: edge j joins node j to node j + 1. */
  predicate NumberedChain(parts: seq<EdgePart>) {
    forall j :: 0 <= j < |parts| ==> parts[j] == EdgePart(Process, j, j + 1, Numbered(101 + j))
  }

  lemma PumpLoopIsChain()
    ensures NumberedChain(PumpLoop.edges)
  {
  }

  lemma ChainEdges(kind: string, bp: Blueprint, lines: seq<Option<string>>)
    requires WellFormed(bp) && NumberedChain(bp.edges) && |lines| == |bp.edges|
    requires forall j :: 0 <= j < |lines| ==> Some("2\"-P-" + NatToString(101 + j) + "-A1B") == lines[j]
    ensures var d := Build(kind, bp);
      |d.edges| == |bp.edges| && Lines(d) == lines &&
      forall j :: 0 <= j < |d.edges| ==>
        d.edges[j].etype == Process && d.edges[j].fromNode == d.nodes[j].id && d.edges[j].toNode == d.nodes[j + 1].id
  {
    var d := Build(kind, bp);
    forall j | 0 <= j < |d.edges|
      ensures d.edges[j].etype == Process && d.edges[j].fromNode == d.nodes[j].id && d.edges[j].toNode == d.nodes[j + 1].id
      ensures d.edges[j].lineNumber == lines[j]
    {
      BuildEdge(kind, bp, j);
    }
  }

  /** The decimal texts of the line sequence numbers the templates use. */
  lemma Decimals()
    ensures NatToString(101) == "101" && NatToString(102) == "102" && NatToString(103) == "103"
    ensures NatToString(104) == "104" && NatToString(105) == "105" && NatToString(106) == "106"
    ensures NatToString(107) == "107"
  {
  }

  lemma PumpLoopLines()
    ensures forall j :: 0 <= j < 5 ==>
      Some("2\"-P-" + NatToString(101 + j) + "-A1B") ==
      [Some("2\"-P-101-A1B"), Some("2\"-P-102-A1B"), Some("2\"-P-103-A1B"), Some("2\"-P-104-A1B"), Some("2\"-P-105-A1B")][j]
  {
    Decimals();
    assert "2\"-P-" + "101" + "-A1B" == "2\"-P-101-A1B";
    assert "2\"-P-" + "102" + "-A1B" == "2\"-P-102-A1B";
    assert "2\"-P-" + "103" + "-A1B" == "2\"-P-103-A1B";
    assert "2\"-P-" + "104" + "-A1B" == "2\"-P-104-A1B";
    assert "2\"-P-" + "105" + "-A1B" == "2\"-P-105-A1B";
  }

  /** A known template without layout is the built blueprint. */
  lemma ServiceTemplate(kind: string, engine: Diagram -> Diagram)
    requires kind in Kinds
    ensures TemplateOf(Service, kind, engine) == Some(Build(kind, BlueprintOf(kind).value))
  {
  }

  lemma PrefixCountNext(parts: seq<NodePart>, k: nat, prefix: string)
    requires k < |parts|
    ensures PrefixCount(parts[..k + 1], prefix) == PrefixCount(parts[..k], prefix) + (if parts[k].prefix == prefix then 1 else 0)
  {
    assert parts[..k + 1][..k] == parts[..k];
  }

  /** Node k's tag, given the number its prefix has reached and the text that makes. */
  lemma TemplateTagIs(kind: string, bp: Blueprint, k: nat, n: nat, tag: string)
    requires WellFormed(bp) && k < |bp.nodes|
    requires forall i :: 0 <= i < |bp.nodes| ==> '-' !in bp.nodes[i].prefix
    requires 101 + PrefixCount(bp.nodes[..k], bp.nodes[k].prefix) == n
    requires bp.nodes[k].prefix + "-" + NatToString(n) == tag
    ensures Build(kind, bp).nodes[k].tag == tag
  {
    TemplateTag(kind, bp, k);
  }

  /** The pump loop's prefixes, all free of dashes, and how many earlier parts
      share each part's prefix. */
  lemma PumpLoopCounts(bp: Blueprint)
    requires bp == PumpLoop
    ensures WellFormed(bp) && |bp.nodes| == 6
    ensures forall i :: 0 <= i < |bp.nodes| ==> '-' !in bp.nodes[i].prefix
    ensures bp.nodes[0].prefix == "TK" && bp.nodes[1].prefix == "XV" && bp.nodes[2].prefix == "P"
    ensures bp.nodes[3].prefix == "XV" && bp.nodes[4].prefix == "XV" && bp.nodes[5].prefix == "V"
    ensures PrefixCount(bp.nodes[..0], "TK") == 0 && PrefixCount(bp.nodes[..1], "XV") == 0
    ensures PrefixCount(bp.nodes[..2], "P") == 0 && PrefixCount(bp.nodes[..3], "XV") == 1
    ensures PrefixCount(bp.nodes[..4], "XV") == 2 && PrefixCount(bp.nodes[..5], "V") == 0
  {
    var parts := bp.nodes;
    assert parts[..0] == [];
    PrefixCountNext(parts, 0, "XV");
    PrefixCountNext(parts, 0, "P");
    PrefixCountNext(parts, 1, "P");
    PrefixCountNext(parts, 1, "XV");
    PrefixCountNext(parts, 2, "XV");
    PrefixCountNext(parts, 3, "XV");
    PrefixCountNext(parts, 0, "V");
    PrefixCountNext(parts, 1, "V");
    PrefixCountNext(parts, 2, "V");
    PrefixCountNext(parts, 3, "V");
    PrefixCountNext(parts, 4, "V");
  }

  lemma PumpLoopTagTexts()
    ensures "TK" + "-" + NatToString(101) == "TK-101" && "XV" + "-" + NatToString(101) == "XV-101"
    ensures "P" + "-" + NatToString(101) == "P-101" && "XV" + "-" + NatToString(102) == "XV-102"
    ensures "XV" + "-" + NatToString(103) == "XV-103" && "V" + "-" + NatToString(101) == "V-101"
  {
    Decimals();
  }

  /** A six-node template with the pump loop's prefixes and counts is tagged
      TK-101, XV-101, P-101, XV-102, XV-103, V-101. */
  lemma PumpLoopTags(kind: string, bp: Blueprint)
    requires WellFormed(bp) && |bp.nodes| == 6
    requires forall i :: 0 <= i < |bp.nodes| ==> '-' !in bp.nodes[i].prefix
    requires bp.nodes[0].prefix == "TK" && bp.nodes[1].prefix == "XV" && bp.nodes[2].prefix == "P"
    requires bp.nodes[3].prefix == "XV" && bp.nodes[4].prefix == "XV" && bp.nodes[5].prefix == "V"
    requires PrefixCount(bp.nodes[..0], "TK") == 0 && PrefixCount(bp.nodes[..1], "XV") == 0
    requires PrefixCount(bp.nodes[..2], "P") == 0 && PrefixCount(bp.nodes[..3], "XV") == 1
    requires PrefixCount(bp.nodes[..4], "XV") == 2 && PrefixCount(bp.nodes[..5], "V") == 0
    ensures var d := Build(kind, bp);
      d.nodes[0].tag == "TK-101" && d.nodes[1].tag == "XV-101" && d.nodes[2].tag == "P-101" &&
      d.nodes[3].tag == "XV-102" && d.nodes[4].tag == "XV-103" && d.nodes[5].tag == "V-101"
  {
    PumpLoopTagTexts();
    TemplateTagIs(kind, bp, 0, 101, "TK-101");
    TemplateTagIs(kind, bp, 1, 101, "XV-101");
    TemplateTagIs(kind, bp, 2, 101, "P-101");
    TemplateTagIs(kind, bp, 3, 102, "XV-102");
    TemplateTagIs(kind, bp, 4, 103, "XV-103");
    TemplateTagIs(kind, bp, 5, 101, "V-101");
  }

  /** `simple_pump_loop`: six nodes left to right on y = 200 from the tank at x = 100,
      tagged TK-101, XV-101, P-101, XV-102, XV-103, V-101 and chained by five
      process lines `2"-P-101-A1B` to `2"-P-105-A1B`. */
  lemma PumpLoopTemplate(kind: string, engine: Diagram -> Diagram)
    requires kind == "simple_pump_loop"
    ensures TemplateOf(Service, kind, engine).Some?
    ensures var d := TemplateOf(Service, kind, engine).value;
      |d.nodes| == 6 && |d.edges| == 5 &&
      d.nodes[0].subtype == "tank" && d.nodes[0].position == Position(100.0, 200.0) &&
      d.nodes[5].subtype == "vessel" && d.nodes[5].position == Position(1350.0, 200.0) &&
      (forall j :: 0 <= j < 5 ==>
         d.edges[j].etype == Process && d.edges[j].fromNode == d.nodes[j].id && d.edges[j].toNode == d.nodes[j + 1].id) &&
      Lines(d) == [Some("2\"-P-101-A1B"), Some("2\"-P-102-A1B"), Some("2\"-P-103-A1B"),
                   Some("2\"-P-104-A1B"), Some("2\"-P-105-A1B")]
    ensures var d := TemplateOf(Service, kind, engine).value;
      d.nodes[0].tag == "TK-101" && d.nodes[1].tag == "XV-101" && d.nodes[2].tag == "P-101" &&
      d.nodes[3].tag == "XV-102" && d.nodes[4].tag == "XV-103" && d.nodes[5].tag == "V-101"
  {
    var bp := BlueprintOf(kind).value;
    ServiceTemplate(kind, engine);
    PumpLoopCounts(bp);
    PumpLoopTags(kind, bp);
    BuildNode(kind, bp, 0);
    BuildNode(kind, bp, 5);
    PumpLoopIsChain();
    PumpLoopLines();
    ChainEdges(kind, bp, [Some("2\"-P-101-A1B"), Some("2\"-P-102-A1B"), Some("2\"-P-103-A1B"),
                          Some("2\"-P-104-A1B"), Some("2\"-P-105-A1B")]);
  }

  /** With every edge taking the next line number, edge j carries sequence number 101 + j. */
  lemma NextRunLines(kind: string, bp: Blueprint, lines: seq<Option<string>>)
    requires WellFormed(bp) && NextRun(bp.edges) && |lines| == |bp.edges|
    requires forall j :: 0 <= j < |lines| ==>
      Some(bp.edges[j].line.size + "-" + bp.edges[j].line.fluid + "-" + Pad3(101 + j) + "-" + "A1B") == lines[j]
    ensures Lines(Build(kind, bp)) == lines
  {
    var d := Build(kind, bp);
    forall j | 0 <= j < |d.edges| ensures d.edges[j].lineNumber == lines[j] {
      NextRunLine(PlaceNodes(bp.nodes), bp.edges, j);
    }
  }

  lemma HeatExchangeLines()
    ensures NextRun(HeatExchangeUnit.edges) && |HeatExchangeUnit.edges| == 4
    ensures forall j :: 0 <= j < 4 ==>
      Some(HeatExchangeUnit.edges[j].line.size + "-" + HeatExchangeUnit.edges[j].line.fluid + "-" + Pad3(101 + j) + "-" + "A1B") ==
      [Some("2\"-P-101-A1B"), Some("2\"-P-102-A1B"), Some("2\"-P-103-A1B"), Some("2\"-S-104-A1B")][j]
  {
    Decimals();
    assert "2\"" + "-" + "P" + "-" + "101" + "-" + "A1B" == "2\"-P-101-A1B";
    assert "2\"" + "-" + "P" + "-" + "102" + "-" + "A1B" == "2\"-P-102-A1B";
    assert "2\"" + "-" + "P" + "-" + "103" + "-" + "A1B" == "2\"-P-103-A1B";
    assert "2\"" + "-" + "S" + "-" + "104" + "-" + "A1B" == "2\"-S-104-A1B";
  }

  lemma ReactorLines()
    ensures NextRun(ReactorSystem.edges) && |ReactorSystem.edges| == 6
    ensures forall j :: 0 <= j < 6 ==>
      Some(ReactorSystem.edges[j].line.size + "-" + ReactorSystem.edges[j].line.fluid + "-" + Pad3(101 + j) + "-" + "A1B") ==
      [Some("2\"-P-101-A1B"), Some("2\"-P-102-A1B"), Some("2\"-P-103-A1B"), Some("2\"-P-104-A1B"), Some("2\"-P-105-A1B"), Some("2\"-S-106-A1B")][j]
  {
    Decimals();
    assert "2\"" + "-" + "P" + "-" + "101" + "-" + "A1B" == "2\"-P-101-A1B";
    assert "2\"" + "-" + "P" + "-" + "102" + "-" + "A1B" == "2\"-P-102-A1B";
    assert "2\"" + "-" + "P" + "-" + "103" + "-" + "A1B" == "2\"-P-103-A1B";
    assert "2\"" + "-" + "P" + "-" + "104" + "-" + "A1B" == "2\"-P-104-A1B";
    assert "2\"" + "-" + "P" + "-" + "105" + "-" + "A1B" == "2\"-P-105-A1B";
    assert "2\"" + "-" + "S" + "-" + "106" + "-" + "A1B" == "2\"-S-106-A1B";
  }

  lemma DistillationLines()
    ensures NextRun(DistillationBasic.edges) && |DistillationBasic.edges| == 7
    ensures forall j :: 0 <= j < 7 ==>
      Some(DistillationBasic.edges[j].line.size + "-" + DistillationBasic.edges[j].line.fluid + "-" + Pad3(101 + j) + "-" + "A1B") ==
      [Some("2\"-P-101-A1B"), Some("2\"-P-102-A1B"), Some("2\"-P-103-A1B"), Some("4\"-R-104-A1B"), Some("4\"-R-105-A1B"), Some("4\"-R-106-A1B"), Some("4\"-R-107-A1B")][j]
  {
    Decimals();
    assert "2\"" + "-" + "P" + "-" + "101" + "-" + "A1B" == "2\"-P-101-A1B";
    assert "2\"" + "-" + "P" + "-" + "102" + "-" + "A1B" == "2\"-P-102-A1B";
    assert "2\"" + "-" + "P" + "-" + "103" + "-" + "A1B" == "2\"-P-103-A1B";
    assert "4\"" + "-" + "R" + "-" + "104" + "-" + "A1B" == "4\"-R-104-A1B";
    assert "4\"" + "-" + "R" + "-" + "105" + "-" + "A1B" == "4\"-R-105-A1B";
    assert "4\"" + "-" + "R" + "-" + "106" + "-" + "A1B" == "4\"-R-106-A1B";
    assert "4\"" + "-" + "R" + "-" + "107" + "-" + "A1B" == "4\"-R-107-A1B";
  }

  /** `heat_exchange_unit`: process lines 101 to 103, then the signal line `2"-S-104-A1B`
      from the temperature controller to the control valve. */
  lemma HeatExchangeTemplate(kind: string, engine: Diagram -> Diagram)
    requires kind == "heat_exchange_unit"
    ensures TemplateOf(Service, kind, engine).Some?
    ensures var d := TemplateOf(Service, kind, engine).value;
      |d.nodes| == 5 && |d.edges| == 4 &&
      Lines(d) == [Some("2\"-P-101-A1B"), Some("2\"-P-102-A1B"), Some("2\"-P-103-A1B"), Some("2\"-S-104-A1B")] &&
      d.nodes[4].ntype == Instrument && d.nodes[4].subtype == "indicator_controller" &&
      d.nodes[3].ntype == Valve && d.nodes[3].subtype == "control_valve" &&
      d.edges[3].etype == SignalElectrical && d.edges[3].fromNode == d.nodes[4].id && d.edges[3].toNode == d.nodes[3].id
  {
    var bp := BlueprintOf(kind).value;
    ServiceTemplate(kind, engine);
    HeatExchangeLines();
    NextRunLines(kind, bp, [Some("2\"-P-101-A1B"), Some("2\"-P-102-A1B"), Some("2\"-P-103-A1B"), Some("2\"-S-104-A1B")]);
    BuildNode(kind, bp, 3);
    BuildNode(kind, bp, 4);
    BuildEdge(kind, bp, 3);
  }

  /** `reactor_system`: process lines 101 to 105, then the signal line `2"-S-106-A1B`. */
  lemma ReactorTemplate(kind: string, engine: Diagram -> Diagram)
    requires kind == "reactor_system"
    ensures TemplateOf(Service, kind, engine).Some?
    ensures var d := TemplateOf(Service, kind, engine).value;
      |d.nodes| == 7 && |d.edges| == 6 &&
      Lines(d) == [Some("2\"-P-101-A1B"), Some("2\"-P-102-A1B"), Some("2\"-P-103-A1B"), Some("2\"-P-104-A1B"), Some("2\"-P-105-A1B"), Some("2\"-S-106-A1B")]
  {
    var bp := BlueprintOf(kind).value;
    ServiceTemplate(kind, engine);
    ReactorLines();
    NextRunLines(kind, bp, [Some("2\"-P-101-A1B"), Some("2\"-P-102-A1B"), Some("2\"-P-103-A1B"), Some("2\"-P-104-A1B"), Some("2\"-P-105-A1B"), Some("2\"-S-106-A1B")]);
  }

  /** The level controller drives the reactor by an electrical signal. */
  lemma ReactorControlLoop(kind: string, engine: Diagram -> Diagram)
    requires kind == "reactor_system"
    ensures TemplateOf(Service, kind, engine).Some?
    ensures var d := TemplateOf(Service, kind, engine).value;
      |d.nodes| == 7 && |d.edges| == 6 &&
      d.nodes[6].subtype == "indicator_controller" && d.nodes[4].subtype == "reactor" &&
      d.edges[5].etype == SignalElectrical && d.edges[5].fromNode == d.nodes[6].id && d.edges[5].toNode == d.nodes[4].id
  {
    var bp := BlueprintOf(kind).value;
    ServiceTemplate(kind, engine);
    BuildNode(kind, bp, 4);
    BuildNode(kind, bp, 6);
    BuildEdge(kind, bp, 5);
  }

  /** `distillation_basic`: feed lines 101 to 103, then the reflux loop column, condenser,
      drum, pump and back to the column on `4"-R-104-A1B` to `4"-R-107-A1B`. */
  lemma DistillationTemplate(kind: string, engine: Diagram -> Diagram)
    requires kind == "distillation_basic"
    ensures TemplateOf(Service, kind, engine).Some?
    ensures var d := TemplateOf(Service, kind, engine).value;
      |d.nodes| == 7 && |d.edges| == 7 &&
      Lines(d) == [Some("2\"-P-101-A1B"), Some("2\"-P-102-A1B"), Some("2\"-P-103-A1B"), Some("4\"-R-104-A1B"), Some("4\"-R-105-A1B"), Some("4\"-R-106-A1B"), Some("4\"-R-107-A1B")] &&
      d.nodes[3].subtype == "column" &&
      d.edges[3].fromNode == d.nodes[3].id && d.edges[6].toNode == d.nodes[3].id &&
      d.edges[3].toNode == d.edges[4].fromNode && d.edges[4].toNode == d.edges[5].fromNode &&
      d.edges[5].toNode == d.edges[6].fromNode
  {
    var bp := BlueprintOf(kind).value;
    ServiceTemplate(kind, engine);
    DistillationLines();
    NextRunLines(kind, bp, [Some("2\"-P-101-A1B"), Some("2\"-P-102-A1B"), Some("2\"-P-103-A1B"), Some("4\"-R-104-A1B"), Some("4\"-R-105-A1B"), Some("4\"-R-106-A1B"), Some("4\"-R-107-A1B")]);
    BuildNode(kind, bp, 3);
    BuildEdge(kind, bp, 3);
    BuildEdge(kind, bp, 4);
    BuildEdge(kind, bp, 5);
    BuildEdge(kind, bp, 6);
  }
}

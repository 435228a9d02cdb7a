/** Automatic repair of a diagram from a list of violations: for each violation
    the service adds the missing instrument, valve or safety valve, splits or
    rewires edges, or records the violation as needing manual work; it repeats
    with re-validation at most three times and lays the diagram out at the end.
    The current service and the earlier generator module share this logic and
    differ only where `Flavour` says. */
module Repair {
  import opened Text
  import Seqs
  import opened Canonical
  import opened Rules
  import Tags
  import Layout

  /** `domain/services/repair_service.py` (Current) or `services/generator.py` (Legacy). */
  datatype Flavour = Current | Legacy

  const MaxIterations: nat := 3

  /** `_find_free_position`'s default step between probed x positions. */
  const DefaultStep: real := 250.0

  /** `NODE_Y_OFFSET`: how far above its anchor a new node of a subtype goes.
      The earlier module lacks the `safety_valve` entry but adds it, with the
      `relief_valve` value, before its only use. */
  const YOffsets: map<string, real> := map[
    "relief_valve" := -200.0, "safety_valve" := -200.0, "control_valve" := -200.0,
    "temperature_indicator_controller" := -150.0, "level_indicator_controller" := -150.0,
    "flow_indicator_controller" := -150.0, "pressure_indicator_controller" := -150.0]

  /** `NODE_Y_OFFSET.get(subtype, DEFAULT_Y_OFFSET)` */
  function YOffset(subtype: string): real {
    if subtype in YOffsets then YOffsets[subtype] else 0.0
  }

  /** The offsets the repairs look up. The instrument's subtype is not a key, so a
      new instrument goes on its node's row. */
  lemma OffsetsUsed()
    ensures YOffset("indicator_controller") == 0.0
    ensures YOffset("check_valve") == 0.0 && YOffset("gate_valve") == 0.0
    ensures YOffset("safety_valve") == -200.0 && YOffset("control_valve") == -200.0
  {
  }

  // ---------------------------------------------------------------------------
  // _find_free_position
  // ---------------------------------------------------------------------------

  type Point = (real, real)

  /** The positions of the nodes, as a set of points. */
  function Occupied(nodes: seq<Node>): (occ: set<Point>)
    ensures forall i :: 0 <= i < |nodes| ==> (nodes[i].position.x, nodes[i].position.y) in occ
  {
    if nodes == [] then {}
    else
      var last := nodes[|nodes| - 1];
      Occupied(nodes[..|nodes| - 1]) + {(last.position.x, last.position.y)}
  }

  /** The taken points on row `y` that a walk from `x` in the direction of `step` can still meet. */
  function Ahead(occ: set<Point>, x: real, y: real, step: real): set<Point> {
    set p | p in occ && p.1 == y && (if step > 0.0 then p.0 >= x else p.0 <= x)
  }

  lemma AheadShrinks(occ: set<Point>, x: real, y: real, step: real)
    requires step != 0.0
    requires (x, y) in occ
    ensures |Ahead(occ, x + step, y, step)| < |Ahead(occ, x, y, step)|
  {
    assert (x, y) !in Ahead(occ, x + step, y, step);
    Layout.SubsetCount(Ahead(occ, x + step, y, step), Ahead(occ, x, y, step));
  }

  /** The `k`-th x position probed from `x`. */
  function Probe(x: real, step: real, k: nat): real {
    x + (k as real) * step
  }

  /** Probing from the next x is probing one step further from `x`. */
  lemma ProbeShift(x: real, step: real, k: nat)
    ensures Probe(x + step, step, k) == Probe(x, step, k + 1)
  {
    assert ((k + 1) as real) * step == (k as real) * step + step;
  }

  /** The x the walk from `x` stops at: the first probed x whose point on row `y` is free.
      The walk does not end for a zero step when `(x, y)` is taken. */
  function FreeX(occ: set<Point>, x: real, y: real, step: real): (r: real)
    requires step != 0.0
    ensures step > 0.0 ==> r >= x
    ensures step < 0.0 ==> r <= x
    decreases |Ahead(occ, x, y, step)|
  {
    if (x, y) in occ then
      AheadShrinks(occ, x, y, step);
      FreeX(occ, x + step, y, step)
    else x
  }

  /** The walk returns the first free probe: `base_x + k·step` for the least such `k`. */
  lemma {:induction false} FreeXFirstFree(occ: set<Point>, x: real, y: real, step: real)
    requires step != 0.0
    ensures (FreeX(occ, x, y, step), y) !in occ
    ensures exists k: nat :: FreeX(occ, x, y, step) == Probe(x, step, k) &&
                             forall j: nat :: j < k ==> (Probe(x, step, j), y) in occ
    decreases |Ahead(occ, x, y, step)|
  {
    if (x, y) in occ {
      AheadShrinks(occ, x, y, step);
      var x1 := x + step;
      FreeXFirstFree(occ, x1, y, step);
      var k: nat :| FreeX(occ, x1, y, step) == Probe(x1, step, k) &&
                    forall j: nat :: j < k ==> (Probe(x1, step, j), y) in occ;
      ProbeShift(x, step, k);
      forall j: nat | j < k + 1 ensures (Probe(x, step, j), y) in occ {
        if j > 0 {
          ProbeShift(x, step, j - 1);
        }
      }
    } else {
      assert FreeX(occ, x, y, step) == Probe(x, step, 0);
    }
  }

  /** `_find_free_position(nodes, base_x, base_y, step)` */
  function FreePos(nodes: seq<Node>, x: real, y: real, step: real): Position
    requires step != 0.0
  {
    Position(FreeX(Occupied(nodes), x, y, step), y)
  }

  // ---------------------------------------------------------------------------
  // Building blocks
  // ---------------------------------------------------------------------------

  /** Every id in use. */
  function Ids(d: Diagram): seq<string> {
    NodeIds(d.nodes) + EdgeIds(d.edges)
  }

  /** A fresh id (`uuid4()`): used by no node, no edge and no object built but not yet added. */
  function NewId(d: Diagram, pending: seq<string>): (r: string)
    ensures r !in pending
    ensures forall i :: 0 <= i < |d.nodes| ==> d.nodes[i].id != r
    ensures forall i :: 0 <= i < |d.edges| ==> d.edges[i].id != r
  {
    var r := FreshId(Ids(d) + pending);
    assert forall i :: 0 <= i < |d.nodes| ==> (Ids(d) + pending)[i] == d.nodes[i].id;
    assert forall i :: 0 <= i < |d.edges| ==> (Ids(d) + pending)[|d.nodes| + i] == d.edges[i].id;
    r
  }

  function AddNode(d: Diagram, n: Node): Diagram {
    d.(nodes := d.nodes + [n])
  }

  function AddEdge(d: Diagram, e: Edge): Diagram {
    d.(edges := d.edges + [e])
  }

  /** A new node with a description. */
  function Described(id: string, ntype: NodeType, subtype: string, tag: string, description: string, position: Position): Node {
    NewNode(id, ntype, subtype, tag, position).(description := Some(description))
  }

  /** `_next_line_number(edges)` with the default fluid, size and class. */
  function ProcessLine(edges: seq<Edge>): Option<string> {
    Some(Tags.NextLineNumber(edges, "P", "2\"", "A1B"))
  }

  /** The instrument prefix for the equipment it measures. */
  function InstrumentPrefix(subtype: string): string {
    if subtype == "pump" || subtype == "centrifugal_pump" then "FIC"
    else if subtype == "vessel" || subtype == "tank" then "LIC"
    else if subtype == "heat_exchanger" then "TIC"
    else "IC"
  }

  /** The first edge with this id. */
  function EdgeIndex(edges: seq<Edge>, id: string): (r: Option<nat>)
    ensures r.Some? ==> r.value < |edges| && edges[r.value].id == id
    ensures r.Some? ==> forall j :: 0 <= j < r.value ==> edges[j].id != id
    ensures r.None? ==> forall j :: 0 <= j < |edges| ==> edges[j].id != id
  {
    if edges == [] then None
    else if edges[0].id == id then Some(0)
    else
      match EdgeIndex(edges[1..], id)
      case Some(k) => Some(k + 1)
      case None => None
  }

  /** The source of the first edge entering `id`. */
  function FirstSource(edges: seq<Edge>, id: string): Option<string> {
    var into := EdgesTo(edges, id);
    if into == [] then None else Some(into[0].fromNode)
  }

  /** The target of the first edge leaving `id`. */
  function FirstTarget(edges: seq<Edge>, id: string): Option<string> {
    var out := EdgesFrom(edges, id);
    if out == [] then None else Some(out[0].toNode)
  }

  /** Every edge entering `from` enters `to` instead. */
  function RedirectTargets(edges: seq<Edge>, from: string, to: string): (r: seq<Edge>)
    ensures |r| == |edges|
  {
    seq(|edges|, i requires 0 <= i < |edges| =>
      if edges[i].toNode == from then edges[i].(toNode := to) else edges[i])
  }

  /** Every edge leaving `from` leaves `to` instead. */
  function RedirectSources(edges: seq<Edge>, from: string, to: string): (r: seq<Edge>)
    ensures |r| == |edges|
  {
    seq(|edges|, i requires 0 <= i < |edges| =>
      if edges[i].fromNode == from then edges[i].(fromNode := to) else edges[i])
  }

  /** Equipment other than the node itself. */
  predicate Candidate(o: Node, node: Node) {
    o.id != node.id && o.ntype == Equipment
  }

  /** The squared distance between two positions; it orders pairs as the distance does. */
  function Dist2(a: Position, b: Position): real {
    (a.x - b.x) * (a.x - b.x) + (a.y - b.y) * (a.y - b.y)
  }

  /** The nearest other equipment node, the first one on a tie. */
  function Nearest(nodes: seq<Node>, node: Node): Option<Node> {
    if nodes == [] then None
    else
      var best := Nearest(nodes[..|nodes| - 1], node);
      var o := nodes[|nodes| - 1];
      if Candidate(o, node) && (best.None? || Dist2(o.position, node.position) < Dist2(best.value.position, node.position))
      then Some(o) else best
  }

  // ---------------------------------------------------------------------------
  // One violation
  // ---------------------------------------------------------------------------

  /** The `action` of an entry for a repair that was made. */
  datatype Action = AddedInstrument | AddedValve | AddedPsv | AddedBypass | AddedValves | ConnectedIsolatedNode

  /** One entry of `repairs_applied`: a repair made, or a violation left for manual
      work (`unrepairable`), naming its rule. The text of `description` is not modelled. */
  datatype Entry =
    | Applied(action: Action, nodeId: Option<string>, edgeId: Option<string>,
              newNodeId: Option<string>, targetId: Option<string>)
    | Unrepairable(ruleCode: string)

  /** The entries a repair records. */
  type AppliedEntry = e: Entry | e.Applied? witness Applied(AddedValve, None, None, None, None)

  function Recorded(action: Action, nodeId: string, newNodeId: string): AppliedEntry {
    Applied(action, Some(nodeId), None, Some(newNodeId), None)
  }

  function ValveOnEdge(edgeId: string, valveId: string): AppliedEntry {
    Applied(AddedValve, None, Some(edgeId), Some(valveId), None)
  }

  function ValvesAround(nodeId: string): AppliedEntry {
    Applied(AddedValves, Some(nodeId), None, None, None)
  }

  function Connected(nodeId: string, targetId: string): AppliedEntry {
    Applied(ConnectedIsolatedNode, Some(nodeId), None, None, Some(targetId))
  }

  /** What handling one violation does. */
  datatype Outcome =
    | Repaired(d: Diagram, entries: seq<AppliedEntry>)  // changed the diagram, then `continue`
    | Dropped                                           // `continue` without a change or an entry
    | Unfixable                                         // reaches `unfixable.append(v)`

  function IsUnrepairable(e: Entry): bool {
    e.Unrepairable?
  }

  /** `missing_instrument`: an indicator controller tagged by what it measures, wired to the node. */
  function AddInstrument(d: Diagram, node: Node): (r: Outcome)
  {
    var tag := Tags.SequentialTag(d.nodes, InstrumentPrefix(node.subtype));
    var inst := NewNode(NewId(d, []), Instrument, "indicator_controller", tag,
                        FreePos(d.nodes, node.position.x, node.position.y + YOffset("indicator_controller"), DefaultStep));
    var d1 := AddNode(d, inst);
    var signal := NewEdge(NewId(d1, []), SignalElectrical, inst.id, node.id, Some("S-" + tag));
    Repaired(AddEdge(d1, signal), [Recorded(AddedInstrument, node.id, inst.id)])
  }

  /** `missing_valve`: a gate valve near the midpoint of edge `k`, which now ends at
      the valve, and a new edge of the same type from the valve to the old target. */
  function SplitEdge(d: Diagram, k: nat, src: Node, tgt: Node): (r: Outcome)
    requires k < |d.edges|
  {
    var edge := d.edges[k];
    var tag := Tags.SequentialTag(d.nodes, "XV");
    var vx := src.position.x + (tgt.position.x - src.position.x) / 2.0;
    var vy := src.position.y + (tgt.position.y - src.position.y) / 2.0;
    var valve := NewNode(NewId(d, []), Valve, "gate_valve", tag, FreePos(d.nodes, vx, vy, DefaultStep));
    var d1 := AddNode(d, valve);
    var rest := NewEdge(NewId(d1, []), edge.etype, valve.id, edge.toNode, ProcessLine(d.edges));
    Repaired(d1.(edges := Rewire(d.edges, k, valve.id, rest)),
             [ValveOnEdge(edge.id, valve.id)])
  }

  /** Edge `k` ends at `valve` instead, and `rest` is appended. */
  function Rewire(edges: seq<Edge>, k: nat, valve: string, rest: Edge): (r: seq<Edge>)
    requires k < |edges|
    ensures |r| == |edges| + 1 && r[|edges|] == rest && r[k] == edges[k].(toNode := valve)
    ensures forall j :: 0 <= j < |edges| && j != k ==> r[j] == edges[j]
  {
    edges[k := edges[k].(toNode := valve)] + [rest]
  }

  /** VAL-EQP-001: a check valve right of the pump, fed by the pump. */
  function AddCheckValve(d: Diagram, pump: Node): (r: Outcome)
  {
    var p := pump.position;
    var cv := Described(NewId(d, []), Valve, "check_valve", Tags.SequentialTag(d.nodes, "CV"), "Check Valve",
                        FreePos(d.nodes, p.x + 250.0, p.y + YOffset("check_valve"), DefaultStep));
    var d1 := AddNode(d, cv);
    var d2 := AddEdge(d1, NewEdge(NewId(d1, []), Process, pump.id, cv.id, ProcessLine(d1.edges)));
    Repaired(d2, [Recorded(AddedValve, pump.id, cv.id)])
  }

  /** VAL-EQP-002's suction block valve, searching leftwards from 250 left of the pump. */
  function SuctionValve(d: Diagram, pump: Node): Node {
    var p := pump.position;
    Described(NewId(d, []), Valve, "gate_valve", Tags.SequentialTag(d.nodes, "XV"), "Suction Block Valve",
              FreePos(d.nodes, p.x - 250.0, p.y + YOffset("gate_valve"), -250.0))
  }

  /** The line from the suction valve into the pump, added after the valve. */
  function SuctionLine(d: Diagram, pump: Node): Edge {
    var d1 := AddNode(d, SuctionValve(d, pump));
    NewEdge(NewId(d1, []), Process, SuctionValve(d, pump).id, pump.id, ProcessLine(d1.edges))
  }

  /** The diagram once the suction valve and its line are in. */
  function WithSuction(d: Diagram, pump: Node): Diagram {
    d.(nodes := d.nodes + [SuctionValve(d, pump)], edges := d.edges + [SuctionLine(d, pump)])
  }

  /** VAL-EQP-002's discharge block valve, tagged and placed after the suction valve is in. */
  function DischargeValve(d: Diagram, pump: Node): Node {
    var p := pump.position;
    var d2 := WithSuction(d, pump);
    Described(NewId(d2, []), Valve, "gate_valve", Tags.SequentialTag(d2.nodes, "XV"), "Discharge Block Valve",
              FreePos(d2.nodes, p.x + 500.0, p.y + YOffset("gate_valve"), DefaultStep))
  }

  /** The line from the pump into the discharge valve. */
  function DischargeLine(d: Diagram, pump: Node): Edge {
    var d3 := AddNode(WithSuction(d, pump), DischargeValve(d, pump));
    NewEdge(NewId(d3, []), Process, pump.id, DischargeValve(d, pump).id, ProcessLine(d3.edges))
  }

  /** VAL-EQP-002: a suction block valve feeding the pump and a discharge block
      valve fed by it. */
  function AddBlockValves(d: Diagram, pump: Node): (r: Outcome)
  {
    Repaired(d.(nodes := d.nodes + [SuctionValve(d, pump), DischargeValve(d, pump)],
                edges := d.edges + [SuctionLine(d, pump), DischargeLine(d, pump)]),
             [Recorded(AddedValve, pump.id, SuctionValve(d, pump).id)])
  }

  /** VAL-EQP-003: a pressure safety valve above the vessel, fed by it. */
  function AddSafetyValve(d: Diagram, vessel: Node): (r: Outcome)
  {
    var p := vessel.position;
    var psv := Described(NewId(d, []), Valve, "safety_valve", Tags.SequentialTag(d.nodes, "PSV"), "Pressure Safety Valve",
                         FreePos(d.nodes, p.x, p.y + YOffset("safety_valve"), DefaultStep));
    var d1 := AddNode(d, psv);
    var d2 := AddEdge(d1, NewEdge(NewId(d1, []), Process, vessel.id, psv.id, ProcessLine(d1.edges)));
    Repaired(d2, [Recorded(AddedPsv, vessel.id, psv.id)])
  }

  /** VAL-EQP-005: a bypass control valve above the pump, piped from the pump's
      first upstream to its first downstream neighbour when both exist. Only the
      current service records an entry. */
  function AddBypass(fl: Flavour, d: Diagram, pump: Node): (r: Outcome)
  {
    var p := pump.position;
    var cv := Described(NewId(d, []), Valve, "control_valve", Tags.SequentialTag(d.nodes, "FCV"), "Bypass Control Valve",
                        FreePos(d.nodes, p.x, p.y + YOffset("control_valve"), DefaultStep));
    var d1 := AddNode(d, cv);
    var up := FirstSource(d1.edges, pump.id);
    var down := FirstTarget(d1.edges, pump.id);
    var lines :=
      if up.Some? && up.value != "" && down.Some? && down.value != "" then
        var e1 := NewEdge(NewId(d1, []), Process, up.value, cv.id, ProcessLine(d1.edges));
        var d2 := AddEdge(d1, e1);
        [e1, NewEdge(NewId(d2, []), Process, cv.id, down.value, ProcessLine(d2.edges))]
      else [];
    Repaired(d1.(edges := d1.edges + lines), if fl == Current then [Recorded(AddedBypass, pump.id, cv.id)] else [])
  }

  /** The two gate valves VAL-EQP-009 puts around `target`. Both are built, and
      tagged, before either is added. */
  function InletValve(d: Diagram, target: Node): Node {
    var t := target.position;
    Described(NewId(d, [target.id]), Valve, "gate_valve", Tags.SequentialTag(d.nodes, "XV"), "Gate Valve",
              FreePos(d.nodes, t.x - 250.0, t.y, DefaultStep))
  }

  function OutletValve(d: Diagram, target: Node): Node {
    var t := target.position;
    Described(NewId(d, [target.id, InletValve(d, target).id]), Valve, "gate_valve", Tags.SequentialTag(d.nodes, "XV"), "Gate Valve",
              FreePos(d.nodes, t.x + 250.0, t.y, DefaultStep))
  }

  /** VAL-EQP-009's rewiring of the edges around `t`: everything that entered `t`
      enters `xin`, a process line `id1` runs from `xin` to `t`, then everything that
      left `t` leaves `xout`, and a process line `id2` runs from `t` to `xout`. */
  function Isolate(edges: seq<Edge>, t: string, xin: string, xout: string, id1: string, id2: string): (r: seq<Edge>)
    requires xin != t && xout != t
    ensures |r| == |edges| + 2
    ensures r[|edges|] == NewEdge(id1, Process, xin, t, ProcessLine(RedirectTargets(edges, t, xin)))
    ensures r[|edges| + 1].id == id2 && r[|edges| + 1].etype == Process
    ensures r[|edges| + 1].fromNode == t && r[|edges| + 1].toNode == xout
    ensures r[|edges| + 1].insulation == Some(DefaultInsulation)
    ensures forall j :: 0 <= j < |edges| ==>
              r[j] == edges[j].(toNode := if edges[j].toNode == t then xin else edges[j].toNode,
                                fromNode := if edges[j].fromNode == t then xout else edges[j].fromNode)
  {
    var edges1 := RedirectTargets(edges, t, xin);
    var e1 := NewEdge(id1, Process, xin, t, ProcessLine(edges1));
    var edges2 := RedirectSources(edges1 + [e1], t, xout);
    edges2 + [NewEdge(id2, Process, t, xout, ProcessLine(edges2))]
  }

  /** VAL-EQP-009: block valves on both sides of the target, which afterwards has
      exactly one edge in and one edge out. */
  function AddIsolationValves(d: Diagram, target: Node): (r: Outcome)
  {
    var xin := InletValve(d, target);
    var xout := OutletValve(d, target);
    var id1 := NewId(d, [xin.id, xout.id]);
    var id2 := NewId(d, [xin.id, xout.id, id1]);
    Repaired(d.(nodes := d.nodes + [xin, xout], edges := Isolate(d.edges, target.id, xin.id, xout.id, id1, id2)),
             [ValvesAround(target.id)])
  }

  /** `isolated_node`: a process edge from the node to its nearest equipment. */
  function ConnectIsolated(d: Diagram, node: Node, nearest: Node): (r: Outcome)
  {
    var e := NewEdge(NewId(d, []), Process, node.id, nearest.id, ProcessLine(d.edges));
    Repaired(AddEdge(d, e), [Connected(node.id, nearest.id)])
  }

  /** A truthy id: present and non-empty. */
  predicate Given(id: Option<string>) {
    id.Some? && id.value != ""
  }

  /** `diagram.node_by_id(getattr(v, 'node_id', None))` */
  function NodeFor(nodes: seq<Node>, id: Option<string>): Option<Node> {
    match id
    case None => None
    case Some(s) => NodeById(nodes, s)
  }

  /** The rule codes whose repair is skipped silently when their node is missing. */
  const NodeRepairCodes: set<string> := {"VAL-EQP-001", "VAL-EQP-002", "VAL-EQP-003", "VAL-EQP-005", "VAL-EQP-009"}

  /** The rule codes a repair exists for. */
  const KnownCodes: set<string> := NodeRepairCodes + {"missing_instrument", "missing_valve", "isolated_node"}

  /** The body of the loop over `remaining_violations`. A violation is dropped only
      when it names a node repair and no node has its id; a violation of an unknown
      rule is unfixable, one of a node repair never is. */
  function RepairOne(fl: Flavour, d: Diagram, v: Violation): (r: Outcome)
    ensures r == Dropped <==> v.ruleCode in NodeRepairCodes && NodeFor(d.nodes, v.nodeId).None?
    ensures v.ruleCode !in KnownCodes ==> r == Unfixable
    ensures v.ruleCode in NodeRepairCodes ==> r != Unfixable
  {
    if v.ruleCode == "missing_instrument" && Given(v.nodeId) then
      match NodeById(d.nodes, v.nodeId.value)
      case Some(node) => AddInstrument(d, node)
      case None => Unfixable
    else if v.ruleCode == "missing_valve" && Given(v.edgeId) then
      match EdgeIndex(d.edges, v.edgeId.value)
      case None => Unfixable
      case Some(k) =>
        match (NodeById(d.nodes, d.edges[k].fromNode), NodeById(d.nodes, d.edges[k].toNode))
        case (Some(src), Some(tgt)) => SplitEdge(d, k, src, tgt)
        case _ => Unfixable
    else if v.ruleCode in NodeRepairCodes then
      match NodeFor(d.nodes, v.nodeId)
      case None => Dropped
      case Some(n) => RepairNode(fl, d, v.ruleCode, n)
    else if v.ruleCode == "isolated_node" && Given(v.nodeId) then
      match NodeById(d.nodes, v.nodeId.value)
      case None => Unfixable
      case Some(node) =>
        match Nearest(d.nodes, node)
        case None => Unfixable
        case Some(o) => ConnectIsolated(d, node, o)
    else Unfixable
  }

  /** The repairs of the VAL-EQP rules, once their node is found. */
  function RepairNode(fl: Flavour, d: Diagram, code: string, n: Node): (r: Outcome)
    ensures r.Repaired?
  {
    if code == "VAL-EQP-001" then AddCheckValve(d, n)
    else if code == "VAL-EQP-002" then AddBlockValves(d, n)
    else if code == "VAL-EQP-003" then AddSafetyValve(d, n)
    else if code == "VAL-EQP-005" then AddBypass(fl, d, n)
    else AddIsolationValves(d, n)
  }

  // ---------------------------------------------------------------------------
  // Passes
  // ---------------------------------------------------------------------------


  function UnrepairableEntry(v: Violation): Entry {
    Unrepairable(v.ruleCode)
  }

  datatype PassResult = PassResult(d: Diagram, entries: seq<Entry>, unfixable: seq<Violation>)

  /** One pass over the violations, in order. Every violation left open is one of
      them, and each has exactly one unrepairable entry. */
  function RepairPass(fl: Flavour, d: Diagram, vs: seq<Violation>): (r: PassResult)
    ensures forall x :: x in r.unfixable ==> x in vs
    ensures Seqs.Count(r.entries, IsUnrepairable) == |r.unfixable|
  {
    if vs == [] then PassResult(d, [], [])
    else
      var r := RepairPass(fl, d, vs[..|vs| - 1]);
      var v := vs[|vs| - 1];
      match RepairOne(fl, r.d, v)
      case Repaired(d1, es) =>
        Seqs.CountAppend(r.entries, es, IsUnrepairable);
        assert forall i :: 0 <= i < |es| ==> es[i].Applied?;
        PassResult(d1, r.entries + es, r.unfixable)
      case Dropped => r
      case Unfixable =>
        Seqs.CountAppend(r.entries, [UnrepairableEntry(v)], IsUnrepairable);
        PassResult(r.d, r.entries + [UnrepairableEntry(v)], r.unfixable + [v])
  }

  /** Re-validation after a pass: the validator over the rules, or None when `rules` is None. */
  type Revalidator = Option<Diagram -> Report>

  datatype Result = Result(d: Diagram, repairs: seq<Entry>, remaining: seq<Violation>, passes: nat)

  /** The passes from pass number `passes` on: they never exceed the limit, only add
      entries, and stop with violations open only at the limit or without re-validation. */
  function Rounds(fl: Flavour, d: Diagram, vs: seq<Violation>, revalidate: Revalidator, repairs: seq<Entry>, passes: nat): (r: Result)
    requires passes <= MaxIterations
    ensures passes <= r.passes <= MaxIterations
    ensures repairs <= r.repairs
    ensures r.remaining != [] ==> r.passes == MaxIterations || revalidate.None?
    decreases MaxIterations - passes
  {
    if passes == MaxIterations || vs == [] then Result(d, repairs, vs, passes)
    else
      var r := RepairPass(fl, d, vs);
      match revalidate
      case None => Result(r.d, repairs + r.entries, r.unfixable, passes + 1)
      case Some(validate) =>
        var report := validate(r.d);
        if report.passed then Result(r.d, repairs + r.entries, [], passes + 1)
        else Rounds(fl, r.d, report.violations, revalidate, repairs + r.entries, passes + 1)
  }

  /** `auto_repair`: the diagram after repair and layout, the entries recorded, the
      violations still open, and how many passes ran. */
  function AutoRepairOf(fl: Flavour, d: Diagram, vs: seq<Violation>, revalidate: Revalidator, engine: Diagram -> Diagram): Result {
    var r := Rounds(fl, d, vs, revalidate, [], 0);
    r.(d := engine(r.d))
  }

  // ---------------------------------------------------------------------------
  // Properties of the repairs
  // ---------------------------------------------------------------------------

  /** Node `i` is the nearest other equipment, strictly nearer than every earlier candidate. */
  predicate NearestAt(nodes: seq<Node>, node: Node, i: nat)
    requires i < |nodes|
  {
    Candidate(nodes[i], node) &&
    (forall j :: 0 <= j < |nodes| && Candidate(nodes[j], node) ==>
       Dist2(nodes[i].position, node.position) <= Dist2(nodes[j].position, node.position)) &&
    (forall j :: 0 <= j < i && Candidate(nodes[j], node) ==>
       Dist2(nodes[i].position, node.position) < Dist2(nodes[j].position, node.position))
  }

  /** The search finds nothing exactly when there is no other equipment; otherwise it
      finds the nearest one, the first of several at the same distance. */
  lemma {:induction false} NearestIsClosest(nodes: seq<Node>, node: Node)
    ensures Nearest(nodes, node).None? <==> forall i :: 0 <= i < |nodes| ==> !Candidate(nodes[i], node)
    ensures Nearest(nodes, node).Some? ==>
              exists i :: 0 <= i < |nodes| && nodes[i] == Nearest(nodes, node).value && NearestAt(nodes, node, i)
  {
    if nodes != [] {
      var last := |nodes| - 1;
      var init := nodes[..last];
      var o := nodes[last];
      NearestIsClosest(init, node);
      assert forall j :: 0 <= j < |init| ==> init[j] == nodes[j];
      var best := Nearest(init, node);
      var dO := Dist2(o.position, node.position);
      if Candidate(o, node) && (best.None? || dO < Dist2(best.value.position, node.position)) {
        if best.Some? {
          var b :| 0 <= b < |init| && init[b] == best.value && NearestAt(init, node, b);
          assert forall j :: 0 <= j < last && Candidate(nodes[j], node) ==>
                   dO < Dist2(nodes[j].position, node.position) by {
            forall j | 0 <= j < last && Candidate(nodes[j], node)
              ensures dO < Dist2(nodes[j].position, node.position)
            {
              assert Candidate(init[j], node);
            }
          }
        } else {
          assert forall j :: 0 <= j < last ==> !Candidate(nodes[j], node) by {
            forall j | 0 <= j < last ensures !Candidate(nodes[j], node) {
              assert init[j] == nodes[j];
            }
          }
        }
        assert NearestAt(nodes, node, last);
      } else if best.Some? {
        var b :| 0 <= b < |init| && init[b] == best.value && NearestAt(init, node, b);
        assert NearestAt(nodes, node, b);
      } else {
        assert forall i :: 0 <= i < |nodes| ==> !Candidate(nodes[i], node) by {
          forall i | 0 <= i < |nodes| ensures !Candidate(nodes[i], node) {
            if i < last { assert init[i] == nodes[i]; }
          }
        }
      }
    }
  }

  /** No node carries the tag. */
  predicate TagFree(nodes: seq<Node>, tag: string) {
    forall i :: 0 <= i < |nodes| ==> nodes[i].tag != tag
  }

  lemma SequentialTagFree(nodes: seq<Node>, prefix: string)
    ensures TagFree(nodes, Tags.SequentialTag(nodes, prefix))
    ensures Tags.TagNumber(Tags.SequentialTag(nodes, prefix), prefix).Some?
  {
    Tags.SequentialTagIsNew(nodes, prefix);
    forall i | 0 <= i < |nodes| ensures nodes[i].tag != Tags.SequentialTag(nodes, prefix) {
      Tags.SequentialTagNotTaken(nodes, prefix, i);
    }
  }

  /** A process line number no edge carries. */
  lemma ProcessLineFree(edges: seq<Edge>)
    ensures forall i :: 0 <= i < |edges| ==> edges[i].lineNumber != ProcessLine(edges)
  {
    Tags.NextLineNumberIsNew(edges, "P", "2\"", "A1B");
  }

  /** `missing_instrument` appends one instrument and one signal line and keeps
      everything else: the instrument has a new id, stands in the field and carries
      a new tag of the prefix for what it measures; the signal line runs from it to
      the node and is numbered after the tag. The instrument goes on the node's row. */
  lemma AddInstrumentShape(d: Diagram, node: Node)
    ensures AddInstrument(d, node).Repaired?
    ensures var r := AddInstrument(d, node).d;
      |r.nodes| == |d.nodes| + 1 && r.nodes[..|d.nodes|] == d.nodes &&
      |r.edges| == |d.edges| + 1 && r.edges[..|d.edges|] == d.edges &&
      var inst := r.nodes[|d.nodes|];
      var e := r.edges[|d.edges|];
      inst.ntype == Instrument && inst.subtype == "indicator_controller" && inst.location == Some("field") &&
      (forall i :: 0 <= i < |d.nodes| ==> d.nodes[i].id != inst.id) &&
      TagFree(d.nodes, inst.tag) && Tags.TagNumber(inst.tag, InstrumentPrefix(node.subtype)).Some? &&
      e.etype == SignalElectrical && e.fromNode == inst.id && e.toNode == node.id &&
      e.lineNumber == Some("S-" + inst.tag) &&
      inst.position.y == node.position.y && inst.position.x >= node.position.x &&
      AddInstrument(d, node).entries == [Recorded(AddedInstrument, node.id, inst.id)]
  {
    OffsetsUsed();
    SequentialTagFree(d.nodes, InstrumentPrefix(node.subtype));
  }

  /** `missing_valve` adds one gate valve, with a new id and a new tag, after the
      existing nodes. */
  lemma SplitEdgeValve(d: Diagram, k: nat, src: Node, tgt: Node)
    requires k < |d.edges|
    ensures SplitEdge(d, k, src, tgt).Repaired?
    ensures var r := SplitEdge(d, k, src, tgt).d;
      |r.nodes| == |d.nodes| + 1 && r.nodes[..|d.nodes|] == d.nodes &&
      var valve := r.nodes[|d.nodes|];
      valve.ntype == Valve && valve.subtype == "gate_valve" && TagFree(d.nodes, valve.tag) &&
      (forall i :: 0 <= i < |d.nodes| ==> d.nodes[i].id != valve.id) &&
      SplitEdge(d, k, src, tgt).entries == [ValveOnEdge(d.edges[k].id, valve.id)]
  {
    SequentialTagFree(d.nodes, "XV");
  }

  /** `missing_valve` puts the valve into edge `k`: the edge keeps its id and source
      but now ends at the valve, a new edge of the same type with a new line number
      runs from the valve to the old target, and every other edge is kept. */
  lemma SplitEdgeRewires(d: Diagram, k: nat, src: Node, tgt: Node)
    requires k < |d.edges|
    ensures SplitEdge(d, k, src, tgt).Repaired?
    ensures var r := SplitEdge(d, k, src, tgt).d;
      var split := d.edges[k];
      |r.nodes| == |d.nodes| + 1 && |r.edges| == |d.edges| + 1 &&
      (forall j :: 0 <= j < |d.edges| && j != k ==> r.edges[j] == d.edges[j]) &&
      var valve := r.nodes[|d.nodes|].id;
      var rest := r.edges[|d.edges|];
      r.edges[k] == split.(toNode := valve) &&
      rest.etype == split.etype && rest.fromNode == valve && rest.toNode == split.toNode &&
      rest.id != split.id && (forall j :: 0 <= j < |d.edges| ==> d.edges[j].lineNumber != rest.lineNumber)
  {
    ProcessLineFree(d.edges);
  }

  /** VAL-EQP-009 appends two gate valves with new ids; both carry the same tag,
      which no earlier node carries. */
  lemma IsolationValvesNodes(d: Diagram, target: Node)
    requires target in d.nodes
    ensures AddIsolationValves(d, target).Repaired?
    ensures var r := AddIsolationValves(d, target).d;
      |r.nodes| == |d.nodes| + 2 && r.nodes[..|d.nodes|] == d.nodes &&
      var xin := r.nodes[|d.nodes|];
      var xout := r.nodes[|d.nodes| + 1];
      xin.subtype == "gate_valve" && xout.subtype == "gate_valve" &&
      xin.id != xout.id && xin.id != target.id && xout.id != target.id &&
      (forall i :: 0 <= i < |d.nodes| ==> d.nodes[i].id != xin.id && d.nodes[i].id != xout.id) &&
      xin.tag == xout.tag && TagFree(d.nodes, xin.tag)
  {
    SequentialTagFree(d.nodes, "XV");
    var i :| 0 <= i < |d.nodes| && d.nodes[i] == target;
  }

  /** Edges that avoid `t`, then one edge into `t`, then one edge out of it. */
  lemma SingleInOut(rest: seq<Edge>, a: Edge, b: Edge, t: string)
    requires forall j :: 0 <= j < |rest| ==> rest[j].toNode != t && rest[j].fromNode != t
    requires a.toNode == t && a.fromNode != t && b.fromNode == t && b.toNode != t
    ensures EdgesTo(rest + [a] + [b], t) == [a] && EdgesFrom(rest + [a] + [b], t) == [b]
  {
    var into := (e: Edge) => e.toNode == t;
    var out := (e: Edge) => e.fromNode == t;
    FilterLastTwo(rest, a, b, into);
    FilterLastTwo(rest, a, b, out);
  }

  /** Filtering a list whose front has no match keeps only the matches among its last two. */
  lemma FilterLastTwo<T(!new)>(rest: seq<T>, x: T, y: T, p: T -> bool)
    requires forall j :: 0 <= j < |rest| ==> !p(rest[j])
    ensures Seqs.Filter(rest + [x] + [y], p) == (if p(x) then [x] else []) + (if p(y) then [y] else [])
  {
    Seqs.FilterAppend(rest + [x], [y], p);
    Seqs.FilterAppend(rest, [x], p);
    Seqs.FilterNone(rest, p);
    Seqs.FilterOne(x, p);
    Seqs.FilterOne(y, p);
    assert Seqs.Filter(rest + [x], p) == (if p(x) then [x] else []);
  }

  /** After the rewiring `t` has exactly one edge in, the new line from `xin`, and
      exactly one edge out, the new line to `xout`. */
  lemma IsolateWiring(edges: seq<Edge>, t: string, xin: string, xout: string, id1: string, id2: string)
    requires xin != t && xout != t
    ensures var r := Isolate(edges, t, xin, xout, id1, id2);
      EdgesTo(r, t) == [r[|edges|]] && EdgesFrom(r, t) == [r[|edges| + 1]]
  {
    var r := Isolate(edges, t, xin, xout, id1, id2);
    var rest := r[..|edges|];
    assert r == rest + [r[|edges|]] + [r[|edges| + 1]];
    assert forall j :: 0 <= j < |rest| ==> rest[j].toNode != t && rest[j].fromNode != t by {
      forall j | 0 <= j < |rest| ensures rest[j].toNode != t && rest[j].fromNode != t {
        assert rest[j] == r[j];
      }
    }
    SingleInOut(rest, r[|edges|], r[|edges| + 1], t);
  }

  /** VAL-EQP-009 leaves the target with exactly one edge in, a process line from the
      inlet valve, and exactly one edge out, a process line to the outlet valve. */
  lemma IsolationValvesWiring(d: Diagram, target: Node)
    ensures AddIsolationValves(d, target).Repaired?
    ensures var r := AddIsolationValves(d, target).d;
      |r.nodes| == |d.nodes| + 2 && |r.edges| == |d.edges| + 2 &&
      var into := r.edges[|d.edges|];
      var out := r.edges[|d.edges| + 1];
      EdgesTo(r.edges, target.id) == [into] && EdgesFrom(r.edges, target.id) == [out] &&
      into.fromNode == r.nodes[|d.nodes|].id && out.toNode == r.nodes[|d.nodes| + 1].id &&
      into.etype == Process && out.etype == Process &&
      into.insulation == Some("N") && out.insulation == Some("N")
  {
    var xin := InletValve(d, target).id;
    var xout := OutletValve(d, target).id;
    var id1 := NewId(d, [xin, xout]);
    var id2 := NewId(d, [xin, xout, id1]);
    IsolateWiring(d.edges, target.id, xin, xout, id1, id2);
  }

  /** No node has the id. */
  predicate IdFree(nodes: seq<Node>, id: string) {
    forall i :: 0 <= i < |nodes| ==> nodes[i].id != id
  }

  /** No edge carries the line number. */
  predicate LineFree(edges: seq<Edge>, line: Option<string>) {
    forall i :: 0 <= i < |edges| ==> edges[i].lineNumber != line
  }

  /** `r` is `d` with one valve of `subtype` appended, whose id and tag are new,
      fed by a new process line from `from`. */
  predicate FedValve(d: Diagram, r: Diagram, from: string, subtype: string) {
    |r.nodes| == |d.nodes| + 1 && r.nodes[..|d.nodes|] == d.nodes &&
    |r.edges| == |d.edges| + 1 && r.edges[..|d.edges|] == d.edges &&
    var n := r.nodes[|d.nodes|];
    var e := r.edges[|d.edges|];
    n.ntype == Valve && n.subtype == subtype && IdFree(d.nodes, n.id) && TagFree(d.nodes, n.tag) &&
    e.etype == Process && e.fromNode == from && e.toNode == n.id && LineFree(d.edges, e.lineNumber)
  }

  /** VAL-EQP-001 adds a check valve fed by the pump, at the pump's height and at
      least 250 to its right. */
  lemma CheckValveShape(d: Diagram, pump: Node)
    ensures AddCheckValve(d, pump).Repaired?
    ensures var r := AddCheckValve(d, pump).d;
      FedValve(d, r, pump.id, "check_valve") &&
      r.nodes[|d.nodes|].position.y == pump.position.y &&
      r.nodes[|d.nodes|].position.x >= pump.position.x + 250.0 &&
      AddCheckValve(d, pump).entries == [Recorded(AddedValve, pump.id, r.nodes[|d.nodes|].id)]
  {
    OffsetsUsed();
    SequentialTagFree(d.nodes, "CV");
    ProcessLineFree(d.edges);
  }

  /** VAL-EQP-003 adds a safety valve fed by the vessel, 200 above it and not left of it. */
  lemma SafetyValveShape(d: Diagram, vessel: Node)
    ensures AddSafetyValve(d, vessel).Repaired?
    ensures var r := AddSafetyValve(d, vessel).d;
      FedValve(d, r, vessel.id, "safety_valve") &&
      r.nodes[|d.nodes|].position.y == vessel.position.y - 200.0 &&
      r.nodes[|d.nodes|].position.x >= vessel.position.x &&
      AddSafetyValve(d, vessel).entries == [Recorded(AddedPsv, vessel.id, r.nodes[|d.nodes|].id)]
  {
    OffsetsUsed();
    SequentialTagFree(d.nodes, "PSV");
    ProcessLineFree(d.edges);
  }

  /** VAL-EQP-002 adds two gate valves with new ids. */
  lemma BlockValvesNodes(d: Diagram, pump: Node)
    ensures AddBlockValves(d, pump).Repaired?
    ensures var r := AddBlockValves(d, pump).d;
      |r.nodes| == |d.nodes| + 2 && r.nodes[..|d.nodes|] == d.nodes &&
      var gvIn := r.nodes[|d.nodes|];
      var gvOut := r.nodes[|d.nodes| + 1];
      gvIn.subtype == "gate_valve" && gvOut.subtype == "gate_valve" &&
      gvIn.id != gvOut.id && IdFree(d.nodes, gvIn.id) && IdFree(d.nodes, gvOut.id) &&
      AddBlockValves(d, pump).entries == [Recorded(AddedValve, pump.id, gvIn.id)]
  {
    assert DischargeValve(d, pump).id == NewId(WithSuction(d, pump), []);
    assert WithSuction(d, pump).nodes[|d.nodes|] == SuctionValve(d, pump);
    NewIdAfter(d, SuctionValve(d, pump), SuctionLine(d, pump));
  }

  /** An id fresh after a node and an edge are added was fresh before. */
  lemma NewIdAfter(d: Diagram, n: Node, e: Edge)
    ensures IdFree(d.nodes, NewId(d.(nodes := d.nodes + [n], edges := d.edges + [e]), []))
  {
    var d2 := d.(nodes := d.nodes + [n], edges := d.edges + [e]);
    assert forall i :: 0 <= i < |d.nodes| ==> d2.nodes[i] == d.nodes[i];
  }


  /** The two VAL-EQP-002 valves get different new tags: the second tag is generated
      after the first valve is added. */
  lemma BlockValvesTags(d: Diagram, pump: Node)
    ensures var gvIn := SuctionValve(d, pump);
      var gvOut := DischargeValve(d, pump);
      TagFree(d.nodes, gvIn.tag) && TagFree(d.nodes, gvOut.tag) && gvIn.tag != gvOut.tag
  {
    var gvIn := SuctionValve(d, pump);
    SequentialTagFree(d.nodes, "XV");
    SequentialTagFree(d.nodes + [gvIn], "XV");
    assert WithSuction(d, pump).nodes == d.nodes + [gvIn];
    TagFreePrefix(d.nodes, gvIn, DischargeValve(d, pump).tag);
  }

  lemma TagFreePrefix(nodes: seq<Node>, n: Node, tag: string)
    requires TagFree(nodes + [n], tag)
    ensures TagFree(nodes, tag) && n.tag != tag
  {
    assert (nodes + [n])[|nodes|] == n;
    assert forall i :: 0 <= i < |nodes| ==> (nodes + [n])[i] == nodes[i];
  }


  /** VAL-EQP-002 pipes the suction valve, at least 250 left of the pump, into the
      pump, and the pump into the discharge valve, at least 500 right of it. */
  lemma BlockValvesEdges(d: Diagram, pump: Node)
    ensures AddBlockValves(d, pump).Repaired?
    ensures var r := AddBlockValves(d, pump).d;
      |r.nodes| == |d.nodes| + 2 && |r.edges| == |d.edges| + 2 && r.edges[..|d.edges|] == d.edges &&
      var gvIn := r.nodes[|d.nodes|];
      var gvOut := r.nodes[|d.nodes| + 1];
      var suction := r.edges[|d.edges|];
      var discharge := r.edges[|d.edges| + 1];
      suction.fromNode == gvIn.id && suction.toNode == pump.id && suction.etype == Process &&
      discharge.fromNode == pump.id && discharge.toNode == gvOut.id && discharge.etype == Process &&
      gvIn.position.x <= pump.position.x - 250.0 && gvOut.position.x >= pump.position.x + 500.0
  {
    OffsetsUsed();
  }

  /** VAL-EQP-005 adds a bypass control valve above the pump; when the pump has a
      non-empty first upstream and first downstream neighbour, a process line runs
      from the upstream one to the valve and one from the valve to the downstream one,
      and otherwise the valve stays unconnected. Both flavours change the diagram
      alike; only the current one records an entry. */
  lemma BypassShape(fl: Flavour, d: Diagram, pump: Node)
    ensures AddBypass(fl, d, pump).Repaired?
    ensures AddBypass(fl, d, pump).d == AddBypass(Current, d, pump).d
    ensures |AddBypass(fl, d, pump).entries| == if fl == Current then 1 else 0
    ensures var r := AddBypass(fl, d, pump).d;
      var up := FirstSource(d.edges, pump.id);
      var down := FirstTarget(d.edges, pump.id);
      |r.nodes| == |d.nodes| + 1 && r.nodes[..|d.nodes|] == d.nodes && r.edges[..|d.edges|] == d.edges &&
      var cv := r.nodes[|d.nodes|];
      cv.subtype == "control_valve" && TagFree(d.nodes, cv.tag) && cv.position.y == pump.position.y - 200.0 &&
      if Given(up) && Given(down) then
        |r.edges| == |d.edges| + 2 &&
        r.edges[|d.edges|].fromNode == up.value && r.edges[|d.edges|].toNode == cv.id &&
        r.edges[|d.edges| + 1].fromNode == cv.id && r.edges[|d.edges| + 1].toNode == down.value
      else |r.edges| == |d.edges|
  {
    OffsetsUsed();
    SequentialTagFree(d.nodes, "FCV");
  }

  /** `isolated_node` adds one process line from the node to the equipment it is
      nearest to, with a line number no edge carries. */
  lemma ConnectIsolatedShape(d: Diagram, node: Node, nearest: Node)
    ensures ConnectIsolated(d, node, nearest).Repaired?
    ensures var r := ConnectIsolated(d, node, nearest).d;
      r.nodes == d.nodes && |r.edges| == |d.edges| + 1 && r.edges[..|d.edges|] == d.edges &&
      var e := r.edges[|d.edges|];
      e.etype == Process && e.fromNode == node.id && e.toNode == nearest.id && LineFree(d.edges, e.lineNumber)
  {
    ProcessLineFree(d.edges);
  }

  /** Without violations nothing is repaired and the diagram is only laid out. */
  lemma AutoRepairNoViolations(fl: Flavour, d: Diagram, revalidate: Revalidator, engine: Diagram -> Diagram)
    ensures AutoRepairOf(fl, d, [], revalidate, engine) == Result(engine(d), [], [], 0)
  {
  }

  /** Without rules to re-validate against exactly one pass runs; what it could not
      fix stays open. */
  lemma AutoRepairWithoutRules(fl: Flavour, d: Diagram, vs: seq<Violation>, engine: Diagram -> Diagram)
    requires vs != []
    ensures var r := AutoRepairOf(fl, d, vs, None, engine);
      var pass := RepairPass(fl, d, vs);
      r == Result(engine(pass.d), pass.entries, pass.unfixable, 1)
  {
  }

  /** When the first pass leaves a diagram that re-validates clean, the repair stops
      after it with nothing open. */
  lemma AutoRepairStopsWhenClean(fl: Flavour, d: Diagram, vs: seq<Violation>, validate: Diagram -> Report, engine: Diagram -> Diagram)
    requires vs != [] && validate(RepairPass(fl, d, vs).d).passed
    ensures var r := AutoRepairOf(fl, d, vs, Some(validate), engine);
      r.passes == 1 && r.remaining == [] && r.repairs == RepairPass(fl, d, vs).entries
  {
  }

  /** At most three passes run, and violations stay open only after the third pass or
      without re-validation. */
  lemma AutoRepairBounded(fl: Flavour, d: Diagram, vs: seq<Violation>, revalidate: Revalidator, engine: Diagram -> Diagram)
    ensures var r := AutoRepairOf(fl, d, vs, revalidate, engine);
      r.passes <= MaxIterations && (r.remaining != [] ==> r.passes == MaxIterations || revalidate.None?)
  {
  }

  // ---------------------------------------------------------------------------
  // The loops
  // ---------------------------------------------------------------------------

  /** `_find_free_position`: collect the taken points, then step `x` until its
      point on row `y` is free. */
  method FindFreePosition(nodes: seq<Node>, x: real, y: real, step: real) returns (pos: Position)
    requires step != 0.0
    ensures pos == FreePos(nodes, x, y, step)
  {
    var occupied: set<Point> := {};
    for i := 0 to |nodes|
      invariant occupied == Occupied(nodes[..i])
    {
      assert nodes[..i + 1][..i] == nodes[..i];
      occupied := occupied + {(nodes[i].position.x, nodes[i].position.y)};
    }
    assert nodes[..|nodes|] == nodes;
    var cx := x;
    while (cx, y) in occupied
      invariant FreeX(occupied, cx, y, step) == FreeX(occupied, x, y, step)
      decreases |Ahead(occupied, cx, y, step)|
    {
      AheadShrinks(occupied, cx, y, step);
      cx := cx + step;
    }
    pos := Position(cx, y);
  }

  /** The nearest-equipment loop of `isolated_node`; `None` stands for the initial
      infinite distance. */
  method FindNearest(nodes: seq<Node>, node: Node) returns (nearest: Option<Node>)
    ensures nearest == Nearest(nodes, node)
  {
    nearest := None;
    var minDist: real := 0.0;
    for i := 0 to |nodes|
      invariant nearest == Nearest(nodes[..i], node)
      invariant nearest.Some? ==> minDist == Dist2(nearest.value.position, node.position)
    {
      assert nodes[..i + 1][..i] == nodes[..i];
      var other := nodes[i];
      if other.id != node.id && other.ntype == Equipment {
        var dist := Dist2(other.position, node.position);
        if nearest.None? || dist < minDist {
          minDist := dist;
          nearest := Some(other);
        }
      }
    }
    assert nodes[..|nodes|] == nodes;
  }

  /** `for e in diagram.edges: if e.to_node == from: e.to_node = to` */
  method RetargetEdges(edges: seq<Edge>, from: string, to: string) returns (r: seq<Edge>)
    ensures r == RedirectTargets(edges, from, to)
  {
    r := edges;
    for i := 0 to |edges|
      invariant |r| == |edges|
      invariant forall j :: 0 <= j < i ==> r[j] == RedirectTargets(edges, from, to)[j]
      invariant forall j :: i <= j < |edges| ==> r[j] == edges[j]
    {
      if r[i].toNode == from {
        r := r[i := r[i].(toNode := to)];
      }
    }
  }

  /** `for e in diagram.edges: if e.from_node == from: e.from_node = to` */
  method ResourceEdges(edges: seq<Edge>, from: string, to: string) returns (r: seq<Edge>)
    ensures r == RedirectSources(edges, from, to)
  {
    r := edges;
    for i := 0 to |edges|
      invariant |r| == |edges|
      invariant forall j :: 0 <= j < i ==> r[j] == RedirectSources(edges, from, to)[j]
      invariant forall j :: i <= j < |edges| ==> r[j] == edges[j]
    {
      if r[i].fromNode == from {
        r := r[i := r[i].(fromNode := to)];
      }
    }
  }

  /** One pass of the loop over `remaining_violations`. */
  method RunPass(fl: Flavour, d0: Diagram, vs: seq<Violation>) returns (d: Diagram, current: seq<Entry>, unfixable: seq<Violation>)
    ensures PassResult(d, current, unfixable) == RepairPass(fl, d0, vs)
  {
    d, current, unfixable := d0, [], [];
    for i := 0 to |vs|
      invariant PassResult(d, current, unfixable) == RepairPass(fl, d0, vs[..i])
    {
      assert vs[..i + 1][..i] == vs[..i];
      var v := vs[i];
      var outcome := RepairOne(fl, d, v);
      match outcome {
        case Repaired(d1, es) =>
          d := d1;
          current := current + es;
        case Dropped =>
        case Unfixable =>
          unfixable := unfixable + [v];
          current := current + [UnrepairableEntry(v)];
      }
    }
    assert vs[..|vs|] == vs;
  }

  /** One iteration of `auto_repair`'s loop: a pass, then re-validation when there are
      rules; `stop` reports the `break`. */
  method Round(fl: Flavour, d0: Diagram, vs: seq<Violation>, revalidate: Revalidator, repairs0: seq<Entry>, passes0: nat)
    returns (d: Diagram, repairs: seq<Entry>, remaining: seq<Violation>, passes: nat, stop: bool)
    requires passes0 < MaxIterations && vs != []
    ensures passes == passes0 + 1
    ensures stop ==> Rounds(fl, d0, vs, revalidate, repairs0, passes0) == Result(d, repairs, remaining, passes)
    ensures !stop ==> Rounds(fl, d0, vs, revalidate, repairs0, passes0) == Rounds(fl, d, remaining, revalidate, repairs, passes)
  {
    var current, unfixable;
    d, current, unfixable := RunPass(fl, d0, vs);
    repairs := repairs0 + current;
    passes := passes0 + 1;
    match revalidate {
      case None =>
        remaining, stop := unfixable, true;
      case Some(validate) =>
        var report := validate(d);
        if report.passed {
          remaining, stop := [], true;
        } else {
          remaining, stop := report.violations, false;
        }
    }
  }

  /** `auto_repair`: at most three passes, each followed by re-validation when there
      are rules, then the layout engine once. */
  method AutoRepair(fl: Flavour, diagram: Diagram, violations: seq<Violation>, revalidate: Revalidator,
                    engine: Diagram -> Diagram)
    returns (d: Diagram, repairsApplied: seq<Entry>, remaining: seq<Violation>, passes: nat)
    ensures Result(d, repairsApplied, remaining, passes) == AutoRepairOf(fl, diagram, violations, revalidate, engine)
  {
    d, repairsApplied, remaining, passes := diagram, [], violations, 0;
    ghost var rounds := Rounds(fl, diagram, violations, revalidate, [], 0);
    while passes < MaxIterations && remaining != []
      invariant passes <= MaxIterations
      invariant Rounds(fl, d, remaining, revalidate, repairsApplied, passes) == rounds
      decreases MaxIterations - passes
    {
      var stop;
      d, repairsApplied, remaining, passes, stop := Round(fl, d, remaining, revalidate, repairsApplied, passes);
      if stop {
        break;
      }
    }
    d := engine(d);
  }
}

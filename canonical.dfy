/** The canonical diagram: nodes (equipment, valves, instruments, fittings),
    edges between node ids, and the read-only graph queries that every other
    component uses (node lookup by id, edges out of and into a node, one-hop
    downstream and upstream neighbours). */
module Canonical {
  import opened Text
  import Seqs

  datatype NodeType = Equipment | Valve | Instrument | Fitting

  datatype EdgeType = Process | Utility | SignalElectrical | SignalPneumatic

  /** The enum's string value (`NodeType.value`). */
  function NodeTypeValue(t: NodeType): string {
    match t
    case Equipment => "equipment"
    case Valve => "valve"
    case Instrument => "instrument"
    case Fitting => "fitting"
  }

  /** The enum's string value (`EdgeType.value`). */
  function EdgeTypeValue(t: EdgeType): string {
    match t
    case Process => "process"
    case Utility => "utility"
    case SignalElectrical => "signal_electrical"
    case SignalPneumatic => "signal_pneumatic"
  }

  /** Reading an enum value back gives the enum member. */
  function NodeTypeOf(s: string): (r: Option<NodeType>)
    ensures r.Some? ==> NodeTypeValue(r.value) == s
    ensures forall t :: NodeTypeValue(t) == s ==> r == Some(t)
  {
    if s == "equipment" then Some(Equipment)
    else if s == "valve" then Some(Valve)
    else if s == "instrument" then Some(Instrument)
    else if s == "fitting" then Some(Fitting)
    else None
  }

  function EdgeTypeOf(s: string): (r: Option<EdgeType>)
    ensures r.Some? ==> EdgeTypeValue(r.value) == s
    ensures forall t :: EdgeTypeValue(t) == s ==> r == Some(t)
  {
    if s == "process" then Some(Process)
    else if s == "utility" then Some(Utility)
    else if s == "signal_electrical" then Some(SignalElectrical)
    else if s == "signal_pneumatic" then Some(SignalPneumatic)
    else None
  }

  /** Coordinates are floats in the source; the model uses exact reals. */
  datatype Position = Position(x: real, y: real)

  datatype Nozzle = Nozzle(id: string, labelText: string, side: string, offset: real)

  datatype EdgeProperties = EdgeProperties(
    size: Option<string>, spec: Option<string>, insulation: Option<string>,
    fluid: Option<string>, temperature: Option<string>, pressure: Option<string>)

  const NoEdgeProperties := EdgeProperties(None, None, None, None, None, None)

  /** A JSON value, for free-form node properties and metadata. */
  datatype Json =
    | JNull
    | JBool(b: bool)
    | JNum(n: real)
    | JStr(s: string)
    | JList(items: seq<Json>)
    | JObject(fields: map<string, Json>)

  /** Python truthiness of a decoded JSON value. */
  predicate Truthy(j: Json) {
    match j
    case JNull => false
    case JBool(b) => b
    case JNum(n) => n != 0.0
    case JStr(s) => s != ""
    case JList(items) => items != []
    case JObject(fields) => |fields| > 0
  }

  /** The number a scalar compares as: Python's `bool` is a subclass of `int`,
      so `True` counts as 1 and `False` as 0. */
  function NumberOf(j: Json): (r: Option<real>)
    ensures r.Some? <==> j.JBool? || j.JNum?
    ensures j.JNum? ==> r == Some(j.n)
    ensures j.JBool? ==> r == Some(if j.b then 1.0 else 0.0)
  {
    match j
    case JBool(b) => Some(if b then 1.0 else 0.0)
    case JNum(n) => Some(n)
    case _ => None
  }

  /** Python's `==` on decoded JSON values: booleans equal the numbers 1 and 0,
      and lists and dicts compare element by element. */
  predicate PyEq(a: Json, b: Json)
    decreases a
  {
    match a
    case JNull => b == JNull
    case JBool(_) => NumberOf(b).Some? && NumberOf(a) == NumberOf(b)
    case JNum(_) => NumberOf(b).Some? && NumberOf(a) == NumberOf(b)
    case JStr(s) => b == JStr(s)
    case JList(xs) =>
      b.JList? && |xs| == |b.items| && forall i :: 0 <= i < |xs| ==> PyEq(xs[i], b.items[i])
    case JObject(f) =>
      b.JObject? && f.Keys == b.fields.Keys && forall k :: k in f ==> PyEq(f[k], b.fields[k])
  }

  /** Every value equals itself. */
  lemma {:induction false} PyEqReflexive(a: Json)
    ensures PyEq(a, a)
    decreases a
  {
    match a
    case JList(xs) =>
      forall i | 0 <= i < |xs| ensures PyEq(xs[i], xs[i]) { PyEqReflexive(xs[i]); }
    case JObject(f) =>
      forall k | k in f ensures PyEq(f[k], f[k]) { PyEqReflexive(f[k]); }
    case _ =>
  }

  /** The comparison does not depend on the order of its operands. */
  lemma {:induction false} PyEqSymmetric(a: Json, b: Json)
    requires PyEq(a, b)
    ensures PyEq(b, a)
    decreases a
  {
    match a
    case JList(xs) =>
      forall i | 0 <= i < |xs| ensures PyEq(b.items[i], xs[i]) { PyEqSymmetric(xs[i], b.items[i]); }
    case JObject(f) =>
      forall k | k in b.fields ensures PyEq(b.fields[k], f[k]) { PyEqSymmetric(f[k], b.fields[k]); }
    case _ =>
  }

  /** Values that are not booleans or numbers compare equal exactly when they
      are the same value at the top level. */
  lemma PyEqScalars(a: Json, b: Json)
    requires a.JNull? || a.JStr?
    ensures PyEq(a, b) <==> a == b
  {
  }

  /** `True == 1` and `False == 0`, but `True != 2`. */
  lemma PyEqBoolNumber(b: bool, n: real)
    ensures PyEq(JBool(b), JNum(n)) <==> n == (if b then 1.0 else 0.0)
  {
  }

  datatype Node = Node(
    id: string,
    ntype: NodeType,
    subtype: string,
    tag: string,
    name: Option<string>,
    description: Option<string>,
    position: Position,
    location: Option<string>,
    properties: map<string, Json>,
    nozzles: seq<Nozzle>)

  datatype Edge = Edge(
    id: string,
    etype: EdgeType,
    fromNode: string,
    fromPort: Option<string>,
    toNode: string,
    toPort: Option<string>,
    lineNumber: Option<string>,
    pipeSize: Option<string>,
    pipeClass: Option<string>,
    insulation: Option<string>,
    properties: EdgeProperties,
    waypoints: seq<Position>)

  datatype Diagram = Diagram(
    schemaVersion: int,
    id: string,
    name: string,
    diagramType: string,
    projectId: Option<string>,
    nodes: seq<Node>,
    edges: seq<Edge>,
    metadata: map<string, Json>)

  // ---------------------------------------------------------------------------
  // Field defaults
  // ---------------------------------------------------------------------------

  const DefaultLocation := "field"
  const DefaultEdgeType := Process
  const DefaultInsulation := "N"

  /** A node built with only its required fields given. */
  function NewNode(id: string, ntype: NodeType, subtype: string, tag: string, position: Position): (n: Node)
    ensures n.location == Some(DefaultLocation)
    ensures n.name.None? && n.description.None?
    ensures n.properties == map[] && n.nozzles == []
  {
    Node(id, ntype, subtype, tag, None, None, position, Some(DefaultLocation), map[], [])
  }

  /** An edge built with only its endpoints, type and line number given. */
  function NewEdge(id: string, etype: EdgeType, fromNode: string, toNode: string, lineNumber: Option<string>): (e: Edge)
    ensures e.insulation == Some(DefaultInsulation)
    ensures e.fromPort.None? && e.toPort.None? && e.pipeSize.None? && e.pipeClass.None?
    ensures e.properties == NoEdgeProperties && e.waypoints == []
  {
    Edge(id, etype, fromNode, None, toNode, None, lineNumber, None, None, Some(DefaultInsulation), NoEdgeProperties, [])
  }

  // ---------------------------------------------------------------------------
  // Fresh identifiers (the source draws uuid4 / randomUUID values)
  // ---------------------------------------------------------------------------

  function MaxLength(ss: seq<string>): (m: nat)
    ensures forall s :: s in ss ==> |s| <= m
  {
    if ss == [] then 0
    else
      var rest := MaxLength(ss[1..]);
      assert forall s :: s in ss ==> s == ss[0] || s in ss[1..];
      if |ss[0]| > rest then |ss[0]| else rest
  }

  /** An identifier that differs from every identifier already taken. */
  function FreshId(taken: seq<string>): (r: string)
    ensures r !in taken
    ensures |r| > 0
  {
    seq(MaxLength(taken) + 1, _ => '#')
  }

  function NodeIds(nodes: seq<Node>): (ids: seq<string>)
    ensures |ids| == |nodes|
    ensures forall i :: 0 <= i < |nodes| ==> ids[i] == nodes[i].id
  {
    seq(|nodes|, i requires 0 <= i < |nodes| => nodes[i].id)
  }

  function EdgeIds(edges: seq<Edge>): (ids: seq<string>)
    ensures |ids| == |edges|
    ensures forall i :: 0 <= i < |edges| ==> ids[i] == edges[i].id
  {
    seq(|edges|, i requires 0 <= i < |edges| => edges[i].id)
  }

  // ---------------------------------------------------------------------------
  // Graph queries
  // ---------------------------------------------------------------------------

  predicate HasNode(nodes: seq<Node>, id: string) {
    exists i :: 0 <= i < |nodes| && nodes[i].id == id
  }

  /** The first index at or after `from` holding a node with this id. */
  function FirstNodeIndex(nodes: seq<Node>, id: string, from: nat): (r: Option<nat>)
    requires from <= |nodes|
    ensures r.Some? ==> from <= r.value < |nodes| && nodes[r.value].id == id
    ensures r.Some? ==> forall j :: from <= j < r.value ==> nodes[j].id != id
    ensures r.None? ==> forall j :: from <= j < |nodes| ==> nodes[j].id != id
    decreases |nodes| - from
  {
    if from == |nodes| then None
    else if nodes[from].id == id then Some(from)
    else FirstNodeIndex(nodes, id, from + 1)
  }

  /** `node_by_id`: the first node with the id, or None when there is none. */
  function NodeById(nodes: seq<Node>, id: string): (r: Option<Node>)
    ensures r.None? <==> !HasNode(nodes, id)
    ensures r.Some? ==> r.value.id == id
    ensures r.Some? ==> exists i :: 0 <= i < |nodes| && nodes[i] == r.value
                                   && forall j :: 0 <= j < i ==> nodes[j].id != id
  {
    match FirstNodeIndex(nodes, id, 0)
    case Some(i) => Some(nodes[i])
    case None => None
  }

  /** `edges_from`: the edges leaving a node, in list order. */
  function EdgesFrom(edges: seq<Edge>, id: string): (r: seq<Edge>)
    ensures forall e :: e in r <==> e in edges && e.fromNode == id
  {
    Seqs.Filter(edges, (e: Edge) => e.fromNode == id)
  }

  /** `edges_to`: the edges entering a node, in list order. */
  function EdgesTo(edges: seq<Edge>, id: string): (r: seq<Edge>)
    ensures forall e :: e in r <==> e in edges && e.toNode == id
  {
    Seqs.Filter(edges, (e: Edge) => e.toNode == id)
  }

  /** Both edge queries keep the list order: appending edges appends to the answer. */
  lemma EdgeQueriesAppend(a: seq<Edge>, b: seq<Edge>, id: string)
    ensures EdgesFrom(a + b, id) == EdgesFrom(a, id) + EdgesFrom(b, id)
    ensures EdgesTo(a + b, id) == EdgesTo(a, id) + EdgesTo(b, id)
  {
    Seqs.FilterAppend(a, b, (e: Edge) => e.fromNode == id);
    Seqs.FilterAppend(a, b, (e: Edge) => e.toNode == id);
  }

  /** `downstream_nodes`: for each edge leaving the node, its target when that exists. */
  function DownstreamNodes(nodes: seq<Node>, edges: seq<Edge>, id: string): (r: seq<Node>)
    ensures |r| <= |EdgesFrom(edges, id)|
    ensures |r| == |EdgesFrom(edges, id)| <==>
            forall i :: 0 <= i < |EdgesFrom(edges, id)| ==> HasNode(nodes, EdgesFrom(edges, id)[i].toNode)
    ensures forall n :: n in r ==> n in nodes && exists e :: e in edges && e.fromNode == id && e.toNode == n.id
  {
    Seqs.MapSome(EdgesFrom(edges, id), (e: Edge) => NodeById(nodes, e.toNode))
  }

  /** `upstream_nodes`: for each edge entering the node, its source when that exists. */
  function UpstreamNodes(nodes: seq<Node>, edges: seq<Edge>, id: string): (r: seq<Node>)
    ensures |r| <= |EdgesTo(edges, id)|
    ensures |r| == |EdgesTo(edges, id)| <==>
            forall i :: 0 <= i < |EdgesTo(edges, id)| ==> HasNode(nodes, EdgesTo(edges, id)[i].fromNode)
    ensures forall n :: n in r ==> n in nodes && exists e :: e in edges && e.toNode == id && e.fromNode == n.id
  {
    Seqs.MapSome(EdgesTo(edges, id), (e: Edge) => NodeById(nodes, e.fromNode))
  }
}

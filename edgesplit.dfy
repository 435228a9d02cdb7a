/** `apply_repairs` of the earlier backend: each `insert_node_on_edge` request splits
    an edge of a copy of the diagram by a new node at the midpoint of its ends. The
    diagram's nodes and edges are plain dictionaries here; the code reads and writes
    only the keys modelled below. */
module EdgeSplit {
  import opened Text

  datatype Point = Point(x: real, y: real)

  /** A node dictionary: `id`, and the optional `type`, `subtype`, `tag` and `position`. */
  datatype RawNode = RawNode(id: string, ntype: Option<string>, subtype: Option<string>, tag: Option<string>, position: Option<Point>)

  /** An edge dictionary: `id`, `from_node`, `to_node` and the optional `type`. The keys
      `id`, `from_node` and `to_node` are always present here (a missing one is a `KeyError`
      in the code, not modelled). */
  datatype RawEdge = RawEdge(id: string, fromNode: string, toNode: string, etype: Option<string>)

  /** A request's `payload`; an absent payload is the one with neither key. */
  datatype Payload = Payload(ntype: Option<string>, subtype: Option<string>)

  datatype Request = Request(action: Option<string>, targetId: Option<string>, payload: Payload)

  const InsertNodeOnEdge := "insert_node_on_edge"
  const DefaultNodeType := "valve"
  const DefaultSubtype := "check_valve"
  const DefaultEdgeType := "process"

  // ---------------------------------------------------------------------------
  // The lookup maps and list removal
  // ---------------------------------------------------------------------------

  /** `{n['id']: n for n in nodes}`: the last node with an id wins. */
  function NodeMap(nodes: seq<RawNode>): (m: map<string, RawNode>)
    ensures forall k :: k in m ==> m[k].id == k && m[k] in nodes
    ensures forall i :: 0 <= i < |nodes| ==> nodes[i].id in m
  {
    if nodes == [] then map[]
    else
      var init := nodes[..|nodes| - 1];
      var m := NodeMap(init);
      assert forall i :: 0 <= i < |init| ==> init[i] == nodes[i];
      m[nodes[|nodes| - 1].id := nodes[|nodes| - 1]]
  }

  /** `{e['id']: e for e in edges}`: the last edge with an id wins. */
  function EdgeMap(edges: seq<RawEdge>): (m: map<string, RawEdge>)
    ensures forall k :: k in m ==> m[k].id == k && m[k] in edges
    ensures forall i :: 0 <= i < |edges| ==> edges[i].id in m
  {
    if edges == [] then map[]
    else
      var init := edges[..|edges| - 1];
      var m := EdgeMap(init);
      assert forall i :: 0 <= i < |init| ==> init[i] == edges[i];
      m[edges[|edges| - 1].id := edges[|edges| - 1]]
  }

  /** `list.remove(x)`: drops the first element equal to `x`. */
  function RemoveFirst(s: seq<RawEdge>, x: RawEdge): (r: seq<RawEdge>)
    ensures x in s ==> |r| == |s| - 1 && multiset(r) == multiset(s) - multiset{x}
    ensures x !in s ==> r == s
  {
    if s == [] then []
    else if s[0] == x then
      assert s == [s[0]] + s[1..];
      s[1..]
    else
      assert s == [s[0]] + s[1..];
      [s[0]] + RemoveFirst(s[1..], x)
  }

  /** Removing one element keeps every other. */
  lemma KeepsOthers(s: seq<RawEdge>, x: RawEdge, y: RawEdge)
    requires y in s && y != x
    ensures y in RemoveFirst(s, x)
  {
    if x in s {
      assert multiset(RemoveFirst(s, x))[y] == multiset(s)[y];
    }
  }

  // ---------------------------------------------------------------------------
  // One request
  // ---------------------------------------------------------------------------

  /** The diagram's lists and the two lookup maps as the loop updates them; `drawn`
      counts the `uuid4()` values drawn so far. */
  datatype State = State(nodes: seq<RawNode>, edges: seq<RawEdge>, nodeMap: map<string, RawNode>,
                         edgeMap: map<string, RawEdge>, drawn: nat)

  /** The maps hold, under each id, an element with that id; every edge in the edge
      map is still in the edge list. */
  predicate Consistent(st: State) {
    (forall k :: k in st.nodeMap ==> st.nodeMap[k].id == k) &&
    (forall k :: k in st.edgeMap ==> st.edgeMap[k].id == k && st.edgeMap[k] in st.edges)
  }

  function Start(nodes: seq<RawNode>, edges: seq<RawEdge>): State {
    State(nodes, edges, NodeMap(nodes), EdgeMap(edges), 0)
  }

  /** `src_node.get("position", {"x": 0, "y": 0})` */
  function PositionOf(n: RawNode): Point {
    GetOr(n.position, Point(0.0, 0.0))
  }

  function Midpoint(a: Point, b: Point): (m: Point)
    ensures m.x - a.x == b.x - m.x && m.y - a.y == b.y - m.y
  {
    Point((a.x + b.x) / 2.0, (a.y + b.y) / 2.0)
  }

  /** `s[:k]` */
  function Head(s: string, k: nat): (r: string)
    ensures |r| <= k && r <= s
  {
    if |s| <= k then s else s[..k]
  }

  /** The node put on the edge: draws the uuids for its id and its tag. */
  function NewNode(st: State, src: RawNode, dst: RawNode, payload: Payload, draw: nat -> string): RawNode {
    var subtype := GetOr(payload.subtype, DefaultSubtype);
    RawNode("node-" + draw(st.drawn), Some(GetOr(payload.ntype, DefaultNodeType)), Some(subtype),
            Some(Upper(Head(subtype, 2)) + "-" + Head(draw(st.drawn + 1), 4)),
            Some(Midpoint(PositionOf(src), PositionOf(dst))))
  }

  /** The edge `src -> new` (`second` false) or `new -> dst` (`second` true), with the old
      edge's type. */
  function NewEdge(st: State, gone: RawEdge, nodeId: string, second: bool, draw: nat -> string): RawEdge {
    var etype := Some(GetOr(gone.etype, DefaultEdgeType));
    if second then RawEdge("edge-" + draw(st.drawn + 3), nodeId, gone.toNode, etype)
    else RawEdge("edge-" + draw(st.drawn + 2), gone.fromNode, nodeId, etype)
  }

  /** The request applies: it inserts on an edge in the map whose two ends are in the map. */
  predicate Applies(st: State, req: Request) {
    req.action == Some(InsertNodeOnEdge) && req.targetId.Some? && req.targetId.value in st.edgeMap &&
    st.edgeMap[req.targetId.value].fromNode in st.nodeMap && st.edgeMap[req.targetId.value].toNode in st.nodeMap
  }

  /** One iteration of the loop over `repairs`. */
  function Step(st: State, req: Request, draw: nat -> string): State {
    if !Applies(st, req) then st
    else
      var t := req.targetId.value;
      var gone := st.edgeMap[t];
      var n := NewNode(st, st.nodeMap[gone.fromNode], st.nodeMap[gone.toNode], req.payload, draw);
      var e1 := NewEdge(st, gone, n.id, false, draw);
      var e2 := NewEdge(st, gone, n.id, true, draw);
      State(st.nodes + [n], RemoveFirst(st.edges + [e1, e2], gone), st.nodeMap[n.id := n],
            st.edgeMap[e1.id := e1][e2.id := e2] - {t}, st.drawn + 4)
  }

  /** The loop over `repairs`. */
  function Steps(st: State, reqs: seq<Request>, draw: nat -> string): State {
    if reqs == [] then st else Step(Steps(st, reqs[..|reqs| - 1], draw), reqs[|reqs| - 1], draw)
  }

  // ---------------------------------------------------------------------------
  // Properties of a request
  // ---------------------------------------------------------------------------

  /** A request that is not an insertion, names no edge in the map, or names an edge
      whose ends are not both in the map changes nothing. */
  lemma SkippedRequest(st: State, req: Request, draw: nat -> string)
    requires req.action != Some(InsertNodeOnEdge) || req.targetId.None? || req.targetId.value !in st.edgeMap ||
             st.edgeMap[req.targetId.value].fromNode !in st.nodeMap || st.edgeMap[req.targetId.value].toNode !in st.nodeMap
    ensures Step(st, req, draw) == st
  {
  }

  /** A split replaces the old edge by two edges through one new node: one node more and,
      net, one edge more; the new edges carry the old edge's type (default `process`);
      the new node's type and subtype default to `valve` and `check_valve` and it sits at
      the midpoint of the ends (a missing position counting as the origin). */
  lemma SplitShape(st: State, req: Request, draw: nat -> string)
    requires Consistent(st) && Applies(st, req)
    ensures var r := Step(st, req, draw);
      var gone := st.edgeMap[req.targetId.value];
      var n := r.nodes[|st.nodes|];
      |r.nodes| == |st.nodes| + 1 && r.nodes[..|st.nodes|] == st.nodes &&
      |r.edges| == |st.edges| + 1 &&
      n.ntype == Some(GetOr(req.payload.ntype, DefaultNodeType)) &&
      n.subtype == Some(GetOr(req.payload.subtype, DefaultSubtype)) &&
      n.position == Some(Midpoint(PositionOf(st.nodeMap[gone.fromNode]), PositionOf(st.nodeMap[gone.toNode]))) &&
      exists e1, e2 ::
        multiset(r.edges) == multiset(st.edges) - multiset{gone} + multiset{e1, e2} &&
        e1.fromNode == gone.fromNode && e1.toNode == n.id && e2.fromNode == n.id && e2.toNode == gone.toNode &&
        e1.etype == e2.etype == Some(GetOr(gone.etype, DefaultEdgeType))
  {
    var t := req.targetId.value;
    var gone := st.edgeMap[t];
    var n := NewNode(st, st.nodeMap[gone.fromNode], st.nodeMap[gone.toNode], req.payload, draw);
    var e1 := NewEdge(st, gone, n.id, false, draw);
    var e2 := NewEdge(st, gone, n.id, true, draw);
    var grown := st.edges + [e1, e2];
    assert gone in grown;
    assert multiset(grown) == multiset(st.edges) + multiset{e1, e2};
    assert (st.nodes + [n])[..|st.nodes|] == st.nodes;
  }

  /** After a split the old edge's id can no longer be targeted, the new node and the
      two new edges can be looked up by their ids (unless an id happens to be the gone
      one), and every other entry of the maps is kept. */
  lemma SplitUpdatesMaps(st: State, req: Request, draw: nat -> string)
    requires Applies(st, req)
    ensures var r := Step(st, req, draw);
      var t := req.targetId.value;
      var gone := st.edgeMap[t];
      var n := r.nodes[|st.nodes|];
      var e1 := NewEdge(st, gone, n.id, false, draw);
      var e2 := NewEdge(st, gone, n.id, true, draw);
      |r.nodes| == |st.nodes| + 1 &&
      t !in r.edgeMap && n.id in r.nodeMap && r.nodeMap[n.id] == n &&
      (e2.id != t ==> e2.id in r.edgeMap && r.edgeMap[e2.id] == e2) &&
      (e1.id != t && e1.id != e2.id ==> e1.id in r.edgeMap && r.edgeMap[e1.id] == e1) &&
      (forall k :: k in st.nodeMap && k != n.id ==> k in r.nodeMap && r.nodeMap[k] == st.nodeMap[k]) &&
      (forall k :: k in st.edgeMap && k != t && k != e1.id && k != e2.id ==> k in r.edgeMap && r.edgeMap[k] == st.edgeMap[k])
  {
  }

  /** Splitting keeps the maps consistent with the lists. */
  lemma StepConsistent(st: State, req: Request, draw: nat -> string)
    requires Consistent(st)
    ensures Consistent(Step(st, req, draw))
  {
    if Applies(st, req) {
      var t := req.targetId.value;
      var gone := st.edgeMap[t];
      var n := NewNode(st, st.nodeMap[gone.fromNode], st.nodeMap[gone.toNode], req.payload, draw);
      var e1 := NewEdge(st, gone, n.id, false, draw);
      var e2 := NewEdge(st, gone, n.id, true, draw);
      var grown := st.edges + [e1, e2];
      var r := Step(st, req, draw);
      forall k | k in r.edgeMap ensures r.edgeMap[k].id == k && r.edgeMap[k] in r.edges {
        var e := r.edgeMap[k];
        assert e in grown;
        assert e.id != gone.id;
        KeepsOthers(grown, gone, e);
      }
    }
  }

  // ---------------------------------------------------------------------------
  // The whole loop
  // ---------------------------------------------------------------------------

  lemma StartConsistent(nodes: seq<RawNode>, edges: seq<RawEdge>)
    ensures Consistent(Start(nodes, edges))
  {
  }

  /** Every prefix of the loop keeps the maps consistent, and the node and edge lists
      grow by the same count: the number of splits. */
  lemma {:induction false} StepsGrow(nodes: seq<RawNode>, edges: seq<RawEdge>, reqs: seq<Request>, draw: nat -> string)
    ensures var r := Steps(Start(nodes, edges), reqs, draw);
      Consistent(r) && |r.nodes| >= |nodes| && |r.nodes| - |nodes| == |r.edges| - |edges| &&
      r.nodes[..|nodes|] == nodes
  {
    if reqs == [] {
      StartConsistent(nodes, edges);
    } else {
      var init := reqs[..|reqs| - 1];
      StepsGrow(nodes, edges, init, draw);
      var st := Steps(Start(nodes, edges), init, draw);
      StepConsistent(st, reqs[|reqs| - 1], draw);
      if Applies(st, reqs[|reqs| - 1]) {
        SplitShape(st, reqs[|reqs| - 1], draw);
        var r := Step(st, reqs[|reqs| - 1], draw);
        assert r.nodes[..|nodes|] == r.nodes[..|st.nodes|][..|nodes|];
      }
    }
  }

  // ---------------------------------------------------------------------------
  // The loop as written: a copy of the diagram updated in place
  // ---------------------------------------------------------------------------

  /** The first index holding `x`, or `|s|`; removing there is `list.remove(x)`. */
  lemma {:induction false} RemoveFirstAt(s: seq<RawEdge>, x: RawEdge, i: nat)
    requires i <= |s| && x !in s[..i] && (i < |s| ==> s[i] == x)
    ensures RemoveFirst(s, x) == if i < |s| then s[..i] + s[i + 1..] else s
  {
    if i == |s| {
      assert s[..i] == s;
    } else if i > 0 {
      var t := s[1..];
      assert s[0] == s[..i][0] && s[0] != x;
      assert t[..i - 1] == s[1..i] && s[..i] == [s[0]] + t[..i - 1];
      RemoveFirstAt(t, x, i - 1);
      assert s[i + 1..] == t[i..];
    }
  }

  /** `if x in s: s.remove(x)` */
  method RemoveEdge(s: seq<RawEdge>, x: RawEdge) returns (r: seq<RawEdge>)
    ensures r == RemoveFirst(s, x)
  {
    var i := 0;
    while i < |s| && s[i] != x
      invariant i <= |s| && x !in s[..i]
    {
      assert s[..i + 1] == s[..i] + [s[i]];
      i := i + 1;
    }
    RemoveFirstAt(s, x, i);
    r := if i < |s| then s[..i] + s[i + 1..] else s;
  }

  /** `{n['id']: n for n in nodes}` */
  method BuildNodeMap(nodes: seq<RawNode>) returns (m: map<string, RawNode>)
    ensures m == NodeMap(nodes)
  {
    m := map[];
    for i := 0 to |nodes|
      invariant m == NodeMap(nodes[..i])
    {
      var q := nodes[..i + 1];
      assert q[..|q| - 1] == nodes[..i];
      m := m[nodes[i].id := nodes[i]];
    }
    assert nodes[..|nodes|] == nodes;
  }

  /** `{e['id']: e for e in edges}` */
  method BuildEdgeMap(edges: seq<RawEdge>) returns (m: map<string, RawEdge>)
    ensures m == EdgeMap(edges)
  {
    m := map[];
    for i := 0 to |edges|
      invariant m == EdgeMap(edges[..i])
    {
      var q := edges[..i + 1];
      assert q[..|q| - 1] == edges[..i];
      m := m[edges[i].id := edges[i]];
    }
    assert edges[..|edges|] == edges;
  }

  /** The backend's `DiagramCanonical`: a schema version, optional metadata, and the
      node, edge and signal-line dictionaries. */
  class CanonicalDiagram {
    var schemaVersion: int
    var metadata: Option<map<string, string>>
    var nodes: seq<RawNode>
    var edges: seq<RawEdge>
    var signalLines: seq<map<string, string>>

    constructor (schemaVersion: int, metadata: Option<map<string, string>>, nodes: seq<RawNode>,
                 edges: seq<RawEdge>, signalLines: seq<map<string, string>>)
      ensures this.schemaVersion == schemaVersion && this.metadata == metadata && this.nodes == nodes
      ensures this.edges == edges && this.signalLines == signalLines
    {
      this.schemaVersion := schemaVersion;
      this.metadata := metadata;
      this.nodes := nodes;
      this.edges := edges;
      this.signalLines := signalLines;
    }

    /** `max_model_copy`: a new diagram with the same contents. */
    method Copy() returns (r: CanonicalDiagram)
      ensures fresh(r)
      ensures r.schemaVersion == schemaVersion && r.metadata == metadata && r.nodes == nodes
      ensures r.edges == edges && r.signalLines == signalLines
    {
      r := new CanonicalDiagram(schemaVersion, metadata, nodes, edges, signalLines);
    }

    /** One `insert_node_on_edge` request against this diagram and the lookup maps. */
    method Split(nodeMap: map<string, RawNode>, edgeMap: map<string, RawEdge>, drawn: nat,
                 req: Request, draw: nat -> string)
      returns (nodeMap': map<string, RawNode>, edgeMap': map<string, RawEdge>, drawn': nat)
      modifies this
      ensures State(nodes, edges, nodeMap', edgeMap', drawn') ==
              Step(State(old(nodes), old(edges), nodeMap, edgeMap, drawn), req, draw)
      ensures schemaVersion == old(schemaVersion) && metadata == old(metadata) && signalLines == old(signalLines)
    {
      var st := State(nodes, edges, nodeMap, edgeMap, drawn);
      nodeMap', edgeMap', drawn' := nodeMap, edgeMap, drawn;
      if Applies(st, req) {
        var t := req.targetId.value;
        var gone := edgeMap[t];
        var n := NewNode(st, nodeMap[gone.fromNode], nodeMap[gone.toNode], req.payload, draw);
        var e1 := NewEdge(st, gone, n.id, false, draw);
        var e2 := NewEdge(st, gone, n.id, true, draw);
        var remaining := RemoveEdge(edges + [e1, e2], gone);
        nodes := nodes + [n];
        edges := remaining;
        nodeMap' := nodeMap[n.id := n];
        edgeMap' := edgeMap[e1.id := e1][e2.id := e2] - {t};
        drawn' := drawn + 4;
      }
    }
  }

  /** `apply_repairs`: the requests applied in order to a copy of the diagram; the diagram
      passed in is left as it was. */
  method ApplyRepairs(canonical: CanonicalDiagram, repairs: seq<Request>, draw: nat -> string)
    returns (r: CanonicalDiagram)
    ensures fresh(r)
    ensures var st := Steps(Start(canonical.nodes, canonical.edges), repairs, draw);
      r.nodes == st.nodes && r.edges == st.edges
    ensures r.schemaVersion == canonical.schemaVersion && r.metadata == canonical.metadata
    ensures r.signalLines == canonical.signalLines
    ensures unchanged(canonical)
  {
    r := canonical.Copy();
    var nodeMap := BuildNodeMap(r.nodes);
    var edgeMap := BuildEdgeMap(r.edges);
    var drawn := 0;
    for i := 0 to |repairs|
      invariant fresh(r)
      invariant State(r.nodes, r.edges, nodeMap, edgeMap, drawn) ==
                Steps(Start(canonical.nodes, canonical.edges), repairs[..i], draw)
      invariant r.schemaVersion == canonical.schemaVersion && r.metadata == canonical.metadata
      invariant r.signalLines == canonical.signalLines
    {
      var q := repairs[..i + 1];
      assert q[..|q| - 1] == repairs[..i];
      nodeMap, edgeMap, drawn := r.Split(nodeMap, edgeMap, drawn, repairs[i], draw);
    }
    assert repairs[..|repairs|] == repairs;
  }
}

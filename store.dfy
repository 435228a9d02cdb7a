/** The web app's canvas domain store: the canonical diagram being edited (or none) and
    the edits made to it without going through the canvas. The store's `set` becomes an
    assignment to the field; the ELK layout action calls into the layout library and is
    not part of this model. */
module DomainStore {
  import opened Text
  import opened Canonical
  import Seqs
  import Tags

  /** The node handed to `addCanonicalNode`: a canonical node without a tag, whose
      properties and nozzles may be missing, with an optional equipment class. */
  datatype NodeDraft = NodeDraft(
    id: string,
    ntype: NodeType,
    subtype: string,
    name: Option<string>,
    description: Option<string>,
    location: Option<string>,
    position: Position,
    properties: Option<map<string, Json>>,
    nozzles: Option<seq<Nozzle>>,
    equipmentClass: Option<string>)

  /** The class the tag is generated for: the equipment class, else the subtype. */
  function ClassOf(draft: NodeDraft): string {
    GetOr(draft.equipmentClass, draft.subtype)
  }

  /** The node added for a draft, given its tag. */
  function DraftNode(draft: NodeDraft, tag: string): (n: Node)
    ensures n.id == draft.id && n.ntype == draft.ntype && n.subtype == draft.subtype && n.tag == tag
    ensures n.position == draft.position && n.name == draft.name && n.description == draft.description
    ensures n.location == draft.location
    ensures draft.properties.Some? ==> n.properties == draft.properties.value
    ensures draft.properties.None? ==> n.properties == map[]
    ensures draft.nozzles.Some? ==> n.nozzles == draft.nozzles.value
    ensures draft.nozzles.None? ==> n.nozzles == []
  {
    Node(draft.id, draft.ntype, draft.subtype, tag, draft.name, draft.description, draft.position,
         draft.location, GetOr(draft.properties, map[]), GetOr(draft.nozzles, []))
  }

  /** The tag the store gives a draft: the web client's next sequential tag for the
      prefix of the draft's class. */
  function DraftTag(d: Diagram, draft: NodeDraft, prefixOf: string -> string): string {
    Tags.ClientTag(Tags.CanonicalTags(d.nodes), prefixOf(ClassOf(draft)))
  }

  /** The diagram after `addCanonicalNode`. */
  function WithNode(d: Diagram, draft: NodeDraft, prefixOf: string -> string): Diagram {
    d.(nodes := d.nodes + [DraftNode(draft, DraftTag(d, draft, prefixOf))])
  }

  predicate Touches(e: Edge, id: string) {
    e.fromNode == id || e.toNode == id
  }

  /** The diagram after `removeCanonicalNode`: the nodes with another id and the edges
      not touching the id, in their order. */
  function WithoutNode(d: Diagram, id: string): (r: Diagram)
    ensures forall n :: n in r.nodes <==> n in d.nodes && n.id != id
    ensures forall e :: e in r.edges <==> e in d.edges && !Touches(e, id)
    ensures r == d.(nodes := r.nodes, edges := r.edges)
  {
    d.(nodes := Seqs.Filter(d.nodes, (n: Node) => n.id != id),
       edges := Seqs.Filter(d.edges, (e: Edge) => !Touches(e, id)))
  }

  /** The diagram after `clearCanonical`: no nodes and no edges, everything else kept. */
  function Cleared(d: Diagram): (r: Diagram)
    ensures r.nodes == [] && r.edges == []
    ensures r.id == d.id && r.name == d.name && r.diagramType == d.diagramType && r.metadata == d.metadata
    ensures r.projectId == d.projectId && r.schemaVersion == d.schemaVersion
  {
    d.(nodes := [], edges := [])
  }

  class CanvasDomainStore {
    var canonical: Option<Diagram>

    constructor ()
      ensures canonical == None
    {
      canonical := None;
    }

    method SetCanonical(d: Diagram)
      modifies this
      ensures canonical == Some(d)
    {
      canonical := Some(d);
    }

    method GetCanonical() returns (d: Option<Diagram>)
      ensures d == canonical
    {
      d := canonical;
    }

    /** Appends the draft as a node tagged with the next tag for its class's prefix;
        without a diagram nothing happens. */
    method AddCanonicalNode(draft: NodeDraft, prefixOf: string -> string)
      modifies this
      ensures old(canonical).None? ==> canonical == None
      ensures old(canonical).Some? ==> canonical == Some(WithNode(old(canonical).value, draft, prefixOf))
    {
      if canonical.Some? {
        var d := canonical.value;
        var tag := Tags.GenerateTag(prefixOf(ClassOf(draft)), d.nodes);
        var node := DraftNode(draft, tag);
        canonical := Some(d.(nodes := d.nodes + [node]));
      }
    }

    /** Drops the node and every edge touching it; without a diagram nothing happens. */
    method RemoveCanonicalNode(id: string)
      modifies this
      ensures old(canonical).None? ==> canonical == None
      ensures old(canonical).Some? ==> canonical == Some(WithoutNode(old(canonical).value, id))
    {
      if canonical.Some? {
        var d := canonical.value;
        canonical := Some(d.(nodes := Seqs.Filter(d.nodes, (n: Node) => n.id != id),
                             edges := Seqs.Filter(d.edges, (e: Edge) => !Touches(e, id))));
      }
    }

    /** Empties the diagram; without a diagram nothing happens. */
    method ClearCanonical()
      modifies this
      ensures old(canonical).None? ==> canonical == None
      ensures old(canonical).Some? ==> canonical == Some(Cleared(old(canonical).value))
    {
      if canonical.Some? {
        canonical := Some(canonical.value.(nodes := [], edges := []));
      }
    }
  }

  // ---------------------------------------------------------------------------
  // Properties of the edits
  // ---------------------------------------------------------------------------

  /** Adding appends exactly one node and changes nothing else; its tag is none of the
      existing tags, and its properties and nozzles default to empty. */
  lemma AddAppendsOne(d: Diagram, draft: NodeDraft, prefixOf: string -> string)
    ensures var r := WithNode(d, draft, prefixOf);
      |r.nodes| == |d.nodes| + 1 && r.nodes[..|d.nodes|] == d.nodes && r.edges == d.edges &&
      r == d.(nodes := r.nodes) && r.nodes[|d.nodes|].id == draft.id &&
      (forall i :: 0 <= i < |d.nodes| ==> d.nodes[i].tag != r.nodes[|d.nodes|].tag)
  {
    var tags := Tags.CanonicalTags(d.nodes);
    forall i | 0 <= i < |d.nodes| ensures d.nodes[i].tag != DraftTag(d, draft, prefixOf) {
      Tags.ClientTagNotTaken(tags, prefixOf(ClassOf(draft)), i);
    }
    assert (d.nodes + [DraftNode(draft, DraftTag(d, draft, prefixOf))])[..|d.nodes|] == d.nodes;
  }

  /** After removing a node no edge touches it; exactly the nodes with that id and the
      edges touching it are gone. */
  lemma {:induction false} RemoveDropsTouching(d: Diagram, id: string)
    ensures var r := WithoutNode(d, id);
      (forall e :: e in r.edges ==> e.fromNode != id && e.toNode != id) &&
      (forall n :: n in r.nodes ==> n.id != id) &&
      |r.nodes| == |d.nodes| - Seqs.Count(d.nodes, (n: Node) => n.id == id) &&
      |r.edges| == |d.edges| - Seqs.Count(d.edges, (e: Edge) => Touches(e, id))
  {
    CountComplement(d.nodes, (n: Node) => n.id != id, (n: Node) => n.id == id);
    CountComplement(d.edges, (e: Edge) => !Touches(e, id), (e: Edge) => Touches(e, id));
    Seqs.FilterLength(d.nodes, (n: Node) => n.id != id);
    Seqs.FilterLength(d.edges, (e: Edge) => !Touches(e, id));
  }

  /** Elements satisfying a predicate and those satisfying its negation add up to all. */
  lemma {:induction false} CountComplement<T>(s: seq<T>, p: T -> bool, q: T -> bool)
    requires forall x :: q(x) == !p(x)
    ensures Seqs.Count(s, p) + Seqs.Count(s, q) == |s|
  {
    if s != [] {
      CountComplement(s[1..], p, q);
    }
  }

  /** Removing an id no node or edge refers to changes nothing. */
  lemma RemoveAbsentId(d: Diagram, id: string)
    requires forall i :: 0 <= i < |d.nodes| ==> d.nodes[i].id != id
    requires forall i :: 0 <= i < |d.edges| ==> !Touches(d.edges[i], id)
    ensures WithoutNode(d, id) == d
  {
    Seqs.FilterAll(d.nodes, (n: Node) => n.id != id);
    Seqs.FilterAll(d.edges, (e: Edge) => !Touches(e, id));
  }

  /** Removing twice is removing once. */
  lemma RemoveIdempotent(d: Diagram, id: string)
    ensures WithoutNode(WithoutNode(d, id), id) == WithoutNode(d, id)
  {
    var r := WithoutNode(d, id);
    assert forall i :: 0 <= i < |r.nodes| ==> r.nodes[i] in r.nodes;
    assert forall i :: 0 <= i < |r.edges| ==> r.edges[i] in r.edges;
    RemoveAbsentId(r, id);
  }

  /** `setCanonical` and `getCanonical` are a round trip: a store that was set
      to a diagram hands that diagram back. */
  method SetThenGet(store: CanvasDomainStore, d: Diagram) returns (r: Option<Diagram>)
    modifies store
    ensures r == Some(d)
  {
    store.SetCanonical(d);
    r := store.GetCanonical();
  }
}

/** The slot layout: nodes are sorted into three rows by subtype (main line,
    valves above it, instruments on top), the main line is ordered by a
    breadth-first walk over main-to-main process edges, and every placed node
    takes a free (column, row) slot found by probing alternately right and left
    of a preferred column. The current layout bounds the probing at 1000
    columns; the earlier one probes without bound. */
module Layout {
  import opened Text
  import Seqs
  import opened Canonical

  /** `layout/slot_layout.py` (bounded search) or `services/layout.py` (unbounded search). */
  datatype Variant = Bounded | Unbounded

  datatype Row = MainRow | ValveRow | InstrumentRow

  const MainLineClasses: set<string> := {
    "storage_tank", "centrifugal_pump", "vessel_vertical",
    "vessel_horizontal", "heat_exchanger", "reactor",
    "distillation_column", "filter", "compressor", "dryer", "tank", "vessel"}

  const UpperLineClasses: set<string> := {
    "control_valve", "gate_valve", "check_valve", "relief_valve",
    "butterfly_valve", "ball_valve", "globe_valve", "safety_valve"}

  const InstrumentClasses: set<string> := {
    "temperature_indicator_controller", "level_indicator_controller",
    "flow_indicator_controller", "pressure_indicator_controller",
    "temperature_indicator", "flow_indicator", "pressure_indicator",
    "indicator_controller"}

  const SlotWidth: int := 200
  const MaxSlotSearch: int := 1000

  // ---------------------------------------------------------------------------
  // Slot arithmetic
  // ---------------------------------------------------------------------------

  /** `_spread_offset`: 0, +step, -step, +2·step, -2·step, … for count 0, 1, 2, 3, 4, … */
  function SpreadOffset(count: int, step: int): int {
    if count == 0 then 0
    else
      var multiplier := (count + 1) / 2;
      if count % 2 == 1 then multiplier * step else -multiplier * step
  }

  /** The table of the doc comment: the (2k+1)-th offset is (k+1)·step, the (2k+2)-th its negation. */
  lemma SpreadOffsetAlternates(k: nat, step: int)
    ensures SpreadOffset(2 * k + 1, step) == (k + 1) * step
    ensures SpreadOffset(2 * k + 2, step) == -((k + 1) * step)
  {
    assert (2 * k + 1 + 1) / 2 == k + 1;
    assert (2 * k + 2 + 1) / 2 == k + 1;
    assert (2 * k + 1) % 2 == 1;
    assert (2 * k + 2) % 2 == 0;
  }

  /** With step 1 the offsets enumerate every integer exactly once. */
  lemma SpreadOffsetEnumerates(d: int, j: nat, k: nat)
    ensures exists c: nat :: SpreadOffset(c, 1) == d
    ensures SpreadOffset(j, 1) == SpreadOffset(k, 1) ==> j == k
  {
    if d > 0 {
      SpreadOffsetAlternates(d - 1, 1);
    } else if d < 0 {
      SpreadOffsetAlternates(-d - 1, 1);
    } else {
      assert SpreadOffset(0, 1) == 0;
    }
    if j > 0 {
      SpreadOffsetAlternates((j - 1) / 2, 1);
    }
    if k > 0 {
      SpreadOffsetAlternates((k - 1) / 2, 1);
    }
  }

  /** `_get_node_row` */
  function NodeRow(subtype: string): (r: Row)
    ensures r == MainRow <==> subtype in MainLineClasses
    ensures r == ValveRow <==> subtype in UpperLineClasses
  {
    if subtype in MainLineClasses then MainRow
    else if subtype in UpperLineClasses then ValveRow
    else InstrumentRow
  }

  /** `_col_to_x`: the centre of the column. */
  function ColToX(col: int): real {
    (col * SlotWidth + SlotWidth / 2) as real
  }

  /** `_row_to_y`, from `Y_BANDS`. */
  function RowToY(row: Row): real {
    match row
    case InstrumentRow => 100.0
    case ValveRow => 300.0
    case MainRow => 550.0
  }

  /** The position of a slot. */
  function SlotPosition(col: int, row: Row): Position {
    Position(ColToX(col), RowToY(row))
  }

  /** Columns are 200 apart with the first centred at 100, and the rows at
      100, 300 and 550 are distinct, so distinct slots never share a position. */
  lemma SlotPositionInjective(c1: int, r1: Row, c2: int, r2: Row)
    ensures ColToX(c1) == 200.0 * c1 as real + 100.0
    ensures SlotPosition(c1, r1) == SlotPosition(c2, r2) ==> c1 == c2 && r1 == r2
  {
  }

  // ---------------------------------------------------------------------------
  // _find_free_slot
  // ---------------------------------------------------------------------------

  type Slot = (int, Row)

  /** The k-th column probed around `p`: p, p+1, p-1, p+2, p-2, … */
  function Probe(p: int, k: nat): int {
    p + SpreadOffset(k, 1)
  }

  /** The first k probes around `p` are all taken. */
  predicate ProbedTaken(occupied: set<Slot>, p: int, row: Row, k: nat) {
    forall j: nat :: j < k ==> (Probe(p, j), row) in occupied
  }

  lemma ProbeAt(p: int, offset: int)
    requires offset >= 1
    ensures Probe(p, 2 * offset - 1) == p + offset
    ensures Probe(p, 2 * offset) == p - offset
  {
    SpreadOffsetAlternates(offset - 1, 1);
  }

  /** Both probes of a round taken: two more probes known taken. */
  lemma ProbedTakenStep(occupied: set<Slot>, p: int, row: Row, offset: int)
    requires offset >= 1
    requires ProbedTaken(occupied, p, row, 2 * offset - 1)
    requires (p + offset, row) in occupied && (p - offset, row) in occupied
    ensures ProbedTaken(occupied, p, row, 2 * offset + 1)
  {
    ProbeAt(p, offset);
  }

  /** The bounded probing loop from `offset` on (`range(1, MAX_SLOT_SEARCH)`, then the fallback). */
  function ProbeBounded(occupied: set<Slot>, p: int, row: Row, offset: int): int
    requires 1 <= offset <= MaxSlotSearch
    decreases MaxSlotSearch - offset
  {
    if offset == MaxSlotSearch then p + MaxSlotSearch
    else if (p + offset, row) !in occupied then p + offset
    else if (p - offset, row) !in occupied then p - offset
    else ProbeBounded(occupied, p, row, offset + 1)
  }

  /** The bounded loop answers the first free probe among the first 1999, and
      otherwise the unprobed p+1000. */
  lemma {:induction false} ProbeBoundedFirstFree(occupied: set<Slot>, p: int, row: Row, offset: int)
    requires 1 <= offset <= MaxSlotSearch
    requires ProbedTaken(occupied, p, row, 2 * offset - 1)
    ensures var c := ProbeBounded(occupied, p, row, offset);
            (c, row) !in occupied ==>
              exists k: nat :: k < 2 * MaxSlotSearch && c == Probe(p, k) && ProbedTaken(occupied, p, row, k)
    ensures var c := ProbeBounded(occupied, p, row, offset);
            (c, row) in occupied ==>
              c == p + MaxSlotSearch && ProbedTaken(occupied, p, row, 2 * MaxSlotSearch - 1)
    decreases MaxSlotSearch - offset
  {
    ProbeAt(p, offset);
    if offset < MaxSlotSearch && (p + offset, row) in occupied && (p - offset, row) in occupied {
      ProbedTakenStep(occupied, p, row, offset);
      ProbeBoundedFirstFree(occupied, p, row, offset + 1);
    }
  }

  /** The taken slots of the row at or right of column `from`. */
  function TakenFrom(occupied: set<Slot>, row: Row, from: int): set<Slot> {
    set s | s in occupied && s.1 == row && s.0 >= from
  }

  /** A subset has no more elements than its superset, a proper one fewer. */
  lemma SubsetCount<T>(a: set<T>, b: set<T>)
    requires a <= b
    ensures |a| <= |b|
    ensures a < b ==> |a| < |b|
  {
    assert b == a + (b - a);
    if a < b {
      var x :| x in b - a;
      assert |b - a| >= 1;
    }
  }

  /** A round that finds both probes taken passes the taken slot right of `p`. */
  lemma PassedSlot(occupied: set<Slot>, p: int, row: Row, offset: int)
    requires (p + offset, row) in occupied
    ensures |TakenFrom(occupied, row, p + offset + 1)| < |TakenFrom(occupied, row, p + offset)|
  {
    assert (p + offset, row) in TakenFrom(occupied, row, p + offset);
    SubsetCount(TakenFrom(occupied, row, p + offset + 1), TakenFrom(occupied, row, p + offset));
  }

  /** The unbounded probing loop from `offset` on. Each failed round passes a
      taken slot right of `p`, and there are finitely many. */
  function ProbeUnbounded(occupied: set<Slot>, p: int, row: Row, offset: int): (c: int)
    requires offset >= 1
    ensures (c, row) !in occupied
    decreases |TakenFrom(occupied, row, p + offset)|
  {
    if (p + offset, row) !in occupied then p + offset
    else if (p - offset, row) !in occupied then p - offset
    else
      PassedSlot(occupied, p, row, offset);
      ProbeUnbounded(occupied, p, row, offset + 1)
  }

  /** The unbounded loop answers the first free probe. */
  lemma {:induction false} ProbeUnboundedFirstFree(occupied: set<Slot>, p: int, row: Row, offset: int)
    requires offset >= 1
    requires ProbedTaken(occupied, p, row, 2 * offset - 1)
    ensures exists k: nat :: ProbeUnbounded(occupied, p, row, offset) == Probe(p, k) && ProbedTaken(occupied, p, row, k)
    decreases |TakenFrom(occupied, row, p + offset)|
  {
    ProbeAt(p, offset);
    if (p + offset, row) in occupied && (p - offset, row) in occupied {
      ProbedTakenStep(occupied, p, row, offset);
      PassedSlot(occupied, p, row, offset);
      ProbeUnboundedFirstFree(occupied, p, row, offset + 1);
    }
  }

  /** `_find_free_slot`: `p` itself when free, else the first free probe (see
      FindFreeSlotFirstFree). The unbounded search always answers a free column. */
  function FindFreeSlot(v: Variant, occupied: set<Slot>, p: int, row: Row): (c: int)
    ensures (p, row) !in occupied ==> c == p
    ensures v == Unbounded ==> (c, row) !in occupied
  {
    if (p, row) !in occupied then p
    else
      match v
      case Bounded => ProbeBounded(occupied, p, row, 1)
      case Unbounded => ProbeUnbounded(occupied, p, row, 1)
  }

  /** A free answer is the first free probe around `p`; a taken one is the
      bounded fallback p+1000 after 1999 taken probes. */
  lemma FindFreeSlotFirstFree(v: Variant, occupied: set<Slot>, p: int, row: Row)
    ensures var c := FindFreeSlot(v, occupied, p, row);
            (c, row) !in occupied ==> exists k: nat :: c == Probe(p, k) && ProbedTaken(occupied, p, row, k)
    ensures var c := FindFreeSlot(v, occupied, p, row);
            (c, row) in occupied ==>
              v == Bounded && c == p + MaxSlotSearch && ProbedTaken(occupied, p, row, 2 * MaxSlotSearch - 1)
  {
    if (p, row) !in occupied {
      assert p == Probe(p, 0) && ProbedTaken(occupied, p, row, 0);
    } else {
      assert ProbedTaken(occupied, p, row, 1) by { assert Probe(p, 0) == p; }
      match v
      case Bounded => ProbeBoundedFirstFree(occupied, p, row, 1);
      case Unbounded => ProbeUnboundedFirstFree(occupied, p, row, 1);
    }
  }

  /** The slots of the first k probes. */
  function ProbeSlots(p: int, row: Row, k: nat): set<Slot> {
    set j: nat | j < k :: (Probe(p, j), row)
  }

  lemma {:induction false} ProbeSlotsCount(p: int, row: Row, k: nat)
    ensures |ProbeSlots(p, row, k)| == k
  {
    if k > 0 {
      var before := ProbeSlots(p, row, k - 1);
      var last := (Probe(p, k - 1), row);
      ProbeSlotsCount(p, row, k - 1);
      assert ProbeSlots(p, row, k) == before + {last} by {
        forall x | x in ProbeSlots(p, row, k) ensures x in before + {last} {
          var j: nat :| j < k && x == (Probe(p, j), row);
          if j < k - 1 { assert x in before; }
        }
      }
      if last in before {
        var j: nat :| j < k - 1 && (Probe(p, j), row) == last;
        SpreadOffsetEnumerates(0, j, k - 1);
        assert false;
      }
    }
  }

  /** The bounded search only falls back to a taken column when at least 1999
      slots of the row are taken. */
  lemma BoundedSearchFindsFreeSlot(occupied: set<Slot>, p: int, row: Row)
    requires |occupied| < 2 * MaxSlotSearch - 1
    ensures (FindFreeSlot(Bounded, occupied, p, row), row) !in occupied
  {
    var c := FindFreeSlot(Bounded, occupied, p, row);
    FindFreeSlotFirstFree(Bounded, occupied, p, row);
    if (c, row) in occupied {
      ProbeSlotsCount(p, row, 2 * MaxSlotSearch - 1);
      assert ProbeSlots(p, row, 2 * MaxSlotSearch - 1) <= occupied;
      SubsetCount(ProbeSlots(p, row, 2 * MaxSlotSearch - 1), occupied);
    }
  }

  /** `_find_free_slot` as a loop: a `for` over offsets 1..999 with the
      fallback, or a `while True` with an incrementing offset. */
  method SearchSlot(v: Variant, occupied: set<Slot>, p: int, row: Row) returns (c: int)
    ensures c == FindFreeSlot(v, occupied, p, row)
  {
    if (p, row) !in occupied {
      return p;
    }
    if v == Bounded {
      c := SearchBounded(occupied, p, row);
    } else {
      c := SearchUnbounded(occupied, p, row);
    }
  }

  method SearchBounded(occupied: set<Slot>, p: int, row: Row) returns (c: int)
    ensures c == ProbeBounded(occupied, p, row, 1)
  {
    for offset := 1 to MaxSlotSearch
      invariant ProbeBounded(occupied, p, row, 1) == ProbeBounded(occupied, p, row, offset)
    {
      if (p + offset, row) !in occupied {
        return p + offset;
      }
      if (p - offset, row) !in occupied {
        return p - offset;
      }
    }
    return p + MaxSlotSearch;
  }

  method SearchUnbounded(occupied: set<Slot>, p: int, row: Row) returns (c: int)
    ensures c == ProbeUnbounded(occupied, p, row, 1)
  {
    var offset := 1;
    while true
      invariant offset >= 1
      invariant ProbeUnbounded(occupied, p, row, 1) == ProbeUnbounded(occupied, p, row, offset)
      decreases |TakenFrom(occupied, row, p + offset)|
    {
      if (p + offset, row) !in occupied {
        return p + offset;
      }
      if (p - offset, row) !in occupied {
        return p - offset;
      }
      PassedSlot(occupied, p, row, offset);
      offset := offset + 1;
    }
  }

  // ---------------------------------------------------------------------------
  // The main line
  // ---------------------------------------------------------------------------

  /** What the layout reads of a node: its id and its subtype. */
  datatype Key = Key(id: string, subtype: string)

  function Keys(nodes: seq<Node>): (ks: seq<Key>)
    ensures |ks| == |nodes|
    ensures forall i :: 0 <= i < |nodes| ==> ks[i] == Key(nodes[i].id, nodes[i].subtype)
  {
    seq(|nodes|, i requires 0 <= i < |nodes| => Key(nodes[i].id, nodes[i].subtype))
  }

  predicate Distinct<T(==)>(s: seq<T>) {
    forall i, j :: 0 <= i < j < |s| ==> s[i] != s[j]
  }

  /** Recording an id not yet recorded keeps the record free of repeats. */
  lemma RecordNew<T>(seen: set<T>, order: seq<T>, x: T)
    requires forall y :: y in order <==> y in seen
    requires Distinct(order)
    requires x !in seen
    ensures forall y :: y in order + [x] <==> y in seen + {x}
    ensures Distinct(order + [x])
  {
  }

  /** `nodes = {n.id: n for n in diagram.nodes}` looked up: the last node with the id. */
  function LastIndex(ks: seq<Key>, id: string): (r: Option<nat>)
    ensures r.Some? ==> r.value < |ks| && ks[r.value].id == id
    ensures r.Some? ==> forall j :: r.value < j < |ks| ==> ks[j].id != id
    ensures r.None? ==> forall j :: 0 <= j < |ks| ==> ks[j].id != id
  {
    if ks == [] then None
    else if ks[|ks| - 1].id == id then Some(|ks| - 1)
    else LastIndex(ks[..|ks| - 1], id)
  }

  /** `nodes.get(id)` exists and its subtype is a main-line class. */
  predicate IsMainId(ks: seq<Key>, id: string) {
    match LastIndex(ks, id)
    case Some(i) => ks[i].subtype in MainLineClasses
    case None => false
  }

  /** A process edge between two main-line nodes. */
  predicate MainEdge(ks: seq<Key>, e: Edge) {
    e.etype == Process && IsMainId(ks, e.fromNode) && IsMainId(ks, e.toNode)
  }

  /** The ids of the main-line nodes (`main_nodes`), as a set. */
  function MainIdSet(ks: seq<Key>): set<string> {
    set i | 0 <= i < |ks| && ks[i].subtype in MainLineClasses :: ks[i].id
  }

  lemma MainIdIsMain(ks: seq<Key>, id: string)
    requires IsMainId(ks, id)
    ensures id in MainIdSet(ks)
  {
    var i := LastIndex(ks, id).value;
    assert ks[i].id == id;
  }

  lemma MainIdNamesNode(ks: seq<Key>, id: string)
    requires id in MainIdSet(ks)
    ensures LastIndex(ks, id).Some?
  {
    var j :| 0 <= j < |ks| && ks[j].subtype in MainLineClasses && ks[j].id == id;
  }

  /** `out_edges[id]`: the targets of the main edges leaving `id`, in edge order. */
  function OutTargets(ks: seq<Key>, edges: seq<Edge>, id: string): (r: seq<string>)
    ensures forall t :: t in r ==> IsMainId(ks, t)
    ensures forall t :: t in r <==> exists e :: e in edges && MainEdge(ks, e) && e.fromNode == id && e.toNode == t
  {
    if edges == [] then []
    else
      var e := edges[|edges| - 1];
      var init := edges[..|edges| - 1];
      assert forall x :: x in edges <==> x in init || x == e by {
        assert edges == init + [e];
      }
      OutTargets(ks, init, id) + (if MainEdge(ks, e) && e.fromNode == id then [e.toNode] else [])
  }

  /** `in_edges[id]`: the sources of the main edges entering `id`, in edge order. */
  function InSources(ks: seq<Key>, edges: seq<Edge>, id: string): (r: seq<string>)
    ensures r == [] <==> forall e :: e in edges && MainEdge(ks, e) ==> e.toNode != id
  {
    if edges == [] then []
    else
      var e := edges[|edges| - 1];
      var init := edges[..|edges| - 1];
      assert forall x :: x in edges <==> x in init || x == e by {
        assert edges == init + [e];
      }
      InSources(ks, init, id) + (if MainEdge(ks, e) && e.toNode == id then [e.fromNode] else [])
  }

  /** `main_nodes`, as ids in list order. */
  function MainIds(ks: seq<Key>): (r: seq<string>)
    ensures forall id :: id in r <==> id in MainIdSet(ks)
  {
    if ks == [] then []
    else
      var rest := MainIds(ks[1..]);
      assert forall id :: id in MainIdSet(ks) <==>
               (ks[0].subtype in MainLineClasses && id == ks[0].id) || id in MainIdSet(ks[1..]) by {
        forall id ensures id in MainIdSet(ks) <==>
                  (ks[0].subtype in MainLineClasses && id == ks[0].id) || id in MainIdSet(ks[1..]) {
          if id in MainIdSet(ks[1..]) {
            var i :| 0 <= i < |ks[1..]| && ks[1..][i].subtype in MainLineClasses && ks[1..][i].id == id;
            assert ks[i + 1] == ks[1..][i];
          }
          if id in MainIdSet(ks) {
            var i :| 0 <= i < |ks| && ks[i].subtype in MainLineClasses && ks[i].id == id;
            if i > 0 { assert ks[1..][i - 1] == ks[i]; }
          }
        }
      }
      (if ks[0].subtype in MainLineClasses then [ks[0].id] else []) + rest
  }

  /** A root candidate: no incoming and some outgoing main edge. */
  predicate IsRoot(ks: seq<Key>, edges: seq<Edge>, id: string) {
    InSources(ks, edges, id) == [] && OutTargets(ks, edges, id) != []
  }

  /** `roots`: main-line nodes with outgoing but no incoming main edges; failing
      any, the first main-line node. */
  function Roots(ks: seq<Key>, edges: seq<Edge>): (r: seq<string>)
    ensures forall x :: x in r ==> x in MainIdSet(ks)
    ensures r == [] <==> MainIdSet(ks) == {}
  {
    var ids := MainIds(ks);
    var rs := Seqs.Filter(ids, (id: string) => IsRoot(ks, edges, id));
    if rs == [] && ids != [] then
      assert ids[0] in ids;
      [ids[0]]
    else
      RootsNonEmpty(ks, ids, rs);
      rs
  }

  lemma RootsNonEmpty(ks: seq<Key>, ids: seq<string>, rs: seq<string>)
    requires forall id :: id in ids <==> id in MainIdSet(ks)
    requires forall x :: x in rs ==> x in ids
    requires rs != [] || ids == []
    ensures forall x :: x in rs ==> x in MainIdSet(ks)
    ensures rs == [] <==> MainIdSet(ks) == {}
  {
    if rs != [] {
      assert rs[0] in MainIdSet(ks);
    }
  }

  /** The breadth-first walk from the queue: an id is appended to the order the
      first time it leaves the queue, and its main-edge targets join the queue. */
  function Bfs(ks: seq<Key>, edges: seq<Edge>, visited: set<string>, queue: seq<string>, order: seq<string>)
    : (r: (set<string>, seq<string>))
    requires visited <= MainIdSet(ks)
    requires forall q :: q in queue ==> q in MainIdSet(ks)
    requires forall x :: x in order <==> x in visited
    requires Distinct(order)
    ensures r.0 <= MainIdSet(ks)
    ensures forall x :: x in r.1 <==> x in r.0
    ensures Distinct(r.1)
    ensures order <= r.1
    decreases |MainIdSet(ks) - visited|, |queue|
  {
    if queue == [] then (visited, order)
    else
      var nid := queue[0];
      if nid in visited then Bfs(ks, edges, visited, queue[1..], order)
      else
        SubsetCount(MainIdSet(ks) - (visited + {nid}), MainIdSet(ks) - visited);
        QueueStaysMain(ks, edges, queue, nid);
        var r := Bfs(ks, edges, visited + {nid}, queue[1..] + OutTargets(ks, edges, nid), order + [nid]);
        assert order <= order + [nid];
        r
  }

  lemma QueueStaysMain(ks: seq<Key>, edges: seq<Edge>, queue: seq<string>, nid: string)
    requires queue != []
    requires forall q :: q in queue ==> q in MainIdSet(ks)
    ensures forall q :: q in queue[1..] + OutTargets(ks, edges, nid) ==> q in MainIdSet(ks)
  {
    forall q | q in queue[1..] + OutTargets(ks, edges, nid) ensures q in MainIdSet(ks) {
      if q in OutTargets(ks, edges, nid) {
        MainIdIsMain(ks, q);
      } else {
        assert q in queue;
      }
    }
  }

  /** The leftover loop: main-line ids not reached by the walk, appended in list order. */
  function Leftovers(ids: seq<string>, visited: set<string>, order: seq<string>): (r: (set<string>, seq<string>))
    requires forall x :: x in order <==> x in visited
    requires Distinct(order)
    ensures forall x :: x in r.1 <==> x in r.0
    ensures r.0 == visited + set x | x in ids
    ensures Distinct(r.1)
  {
    if ids == [] then (visited, order)
    else if ids[0] in visited then
      var r := Leftovers(ids[1..], visited, order);
      assert forall x :: x in ids <==> x == ids[0] || x in ids[1..];
      r
    else
      var r := Leftovers(ids[1..], visited + {ids[0]}, order + [ids[0]]);
      assert forall x :: x in ids <==> x == ids[0] || x in ids[1..];
      r
  }

  /** `main_line`: the walk from the roots followed by the leftovers. */
  function MainLine(ks: seq<Key>, edges: seq<Edge>): seq<string> {
    var walked := Bfs(ks, edges, {}, Roots(ks, edges), []);
    Leftovers(MainIds(ks), walked.0, walked.1).1
  }

  /** Every main-line node appears on the main line exactly once. */
  lemma MainLineCovers(ks: seq<Key>, edges: seq<Edge>)
    ensures Distinct(MainLine(ks, edges))
    ensures forall id :: id in MainLine(ks, edges) <==> id in MainIdSet(ks)
  {
    var walked := Bfs(ks, edges, {}, Roots(ks, edges), []);
    var r := Leftovers(MainIds(ks), walked.0, walked.1);
    assert r.0 == MainIdSet(ks);
  }

  /** The walk starts at the first root, so a root with outgoing main edges heads the main line. */
  lemma MainLineStartsAtRoot(ks: seq<Key>, edges: seq<Edge>)
    requires MainIdSet(ks) != {}
    ensures MainLine(ks, edges) != [] && MainLine(ks, edges)[0] == Roots(ks, edges)[0]
  {
    var roots := Roots(ks, edges);
    var walked := Bfs(ks, edges, {}, roots, []);
    assert forall x :: x in roots[1..] ==> x in MainIdSet(ks);
    assert forall q :: q in OutTargets(ks, edges, roots[0]) ==> q in MainIdSet(ks) by {
      forall q | q in OutTargets(ks, edges, roots[0]) ensures q in MainIdSet(ks) { MainIdIsMain(ks, roots[0]); MainIdIsMain(ks, q); }
    }
    assert [roots[0]] <= walked.1;
    var r := Leftovers(MainIds(ks), walked.0, walked.1);
    LeftoversExtend(MainIds(ks), walked.0, walked.1);
  }

  lemma {:induction false} LeftoversExtend(ids: seq<string>, visited: set<string>, order: seq<string>)
    requires forall x :: x in order <==> x in visited
    requires Distinct(order)
    ensures order <= Leftovers(ids, visited, order).1
  {
    if ids != [] {
      if ids[0] in visited {
        LeftoversExtend(ids[1..], visited, order);
      } else {
        LeftoversExtend(ids[1..], visited + {ids[0]}, order + [ids[0]]);
      }
    }
  }

  // ---------------------------------------------------------------------------
  // Placement
  // ---------------------------------------------------------------------------

  /** The state threaded through the three placement phases: `occupied_slots`,
      `node_to_col`, `current_col`, the slot given to each node index (last
      assignment wins), the number of assignments, and whether any assignment
      reused a taken slot. */
  datatype Slotting = Slotting(
    occupied: set<Slot>,
    cols: map<string, int>,
    current: int,
    slots: map<nat, Slot>,
    puts: nat,
    fellBack: bool)

  const Start := Slotting({}, map[], 0, map[], 0, false)

  /** Assign `slot` to the node at `idx`: mark it taken and record the column. */
  function Put(st: Slotting, idx: nat, id: string, slot: Slot): Slotting {
    st.(occupied := st.occupied + {slot},
        cols := st.cols[id := slot.0],
        slots := st.slots[idx := slot],
        puts := st.puts + 1,
        fellBack := st.fellBack || slot in st.occupied)
  }

  /** Every assigned slot is taken, and, unless a search fell back, no two nodes share one. */
  predicate Sound(v: Variant, st: Slotting) {
    && |st.occupied| <= st.puts
    && (st.fellBack ==> st.puts >= 2 * MaxSlotSearch)
    && (v == Unbounded ==> !st.fellBack)
    && (forall i :: i in st.slots ==> st.slots[i] in st.occupied)
    && (!st.fellBack ==> forall i, j :: i in st.slots && j in st.slots && i != j ==> st.slots[i] != st.slots[j])
  }

  /** A slot a search may answer: a free one, or the bounded fallback once 1999 slots are taken. */
  predicate Acceptable(v: Variant, occupied: set<Slot>, slot: Slot) {
    slot !in occupied || (v == Bounded && |occupied| >= 2 * MaxSlotSearch - 1)
  }

  lemma FoundSlotAcceptable(v: Variant, occupied: set<Slot>, p: int, row: Row)
    ensures Acceptable(v, occupied, (FindFreeSlot(v, occupied, p, row), row))
  {
    if v == Bounded && |occupied| < 2 * MaxSlotSearch - 1 {
      BoundedSearchFindsFreeSlot(occupied, p, row);
    }
  }

  lemma PutSound(v: Variant, st: Slotting, idx: nat, id: string, slot: Slot)
    requires Sound(v, st)
    requires Acceptable(v, st.occupied, slot)
    ensures Sound(v, Put(st, idx, id, slot))
  {
  }

  /** The main-line loop: each id that names a node takes the first free main
      slot from `current_col`, and the next search starts two columns on. */
  function PlaceMain(v: Variant, ks: seq<Key>, ids: seq<string>, st: Slotting): Slotting
    decreases |ids|
  {
    if ids == [] then st
    else
      var next := match LastIndex(ks, ids[0])
        case None => st
        case Some(i) =>
          var col := FindFreeSlot(v, st.occupied, st.current, MainRow);
          Put(st, i, ids[0], (col, MainRow)).(current := col + 2);
      PlaceMain(v, ks, ids[1..], next)
  }

  /** `upstream_main_edges`, by source: edges of any type entering `id` from a main-line node. */
  function UpstreamMain(ks: seq<Key>, edges: seq<Edge>, id: string): (r: seq<string>)
    ensures r != [] ==> exists e :: e in edges && e.toNode == id && e.fromNode == r[0] && IsMainId(ks, e.fromNode)
    ensures r == [] <==> forall e :: e in edges && e.toNode == id ==> !IsMainId(ks, e.fromNode)
  {
    if edges == [] then []
    else
      var rest := UpstreamMain(ks, edges[1..], id);
      assert forall e :: e in edges <==> e == edges[0] || e in edges[1..];
      (if edges[0].toNode == id && IsMainId(ks, edges[0].fromNode) then [edges[0].fromNode] else []) + rest
  }

  /** `downstream_main_edges`, by target: edges of any type leaving `id` for a main-line node. */
  function DownstreamMain(ks: seq<Key>, edges: seq<Edge>, id: string): (r: seq<string>)
    ensures r != [] ==> exists e :: e in edges && e.fromNode == id && e.toNode == r[0] && IsMainId(ks, e.toNode)
    ensures r == [] <==> forall e :: e in edges && e.fromNode == id ==> !IsMainId(ks, e.toNode)
  {
    if edges == [] then []
    else
      var rest := DownstreamMain(ks, edges[1..], id);
      assert forall e :: e in edges <==> e == edges[0] || e in edges[1..];
      (if edges[0].fromNode == id && IsMainId(ks, edges[0].toNode) then [edges[0].toNode] else []) + rest
  }

  /** The first source of an edge entering `id` that already has a column. */
  function PlacedSource(edges: seq<Edge>, cols: map<string, int>, id: string): (r: Option<string>)
    ensures r.Some? ==> r.value in cols && exists e :: e in edges && e.toNode == id && e.fromNode == r.value
    ensures r.None? ==> forall e :: e in edges && e.toNode == id ==> e.fromNode !in cols
    ensures forall k :: (0 <= k < |edges| && edges[k].toNode == id && edges[k].fromNode in cols &&
               (forall j :: 0 <= j < k ==> !(edges[j].toNode == id && edges[j].fromNode in cols))) ==>
              r == Some(edges[k].fromNode)
  {
    if edges == [] then None
    else if edges[0].toNode == id && edges[0].fromNode in cols then Some(edges[0].fromNode)
    else
      assert forall e :: e in edges <==> e == edges[0] || e in edges[1..];
      assert forall k :: 0 < k < |edges| ==> edges[k] == edges[1..][k - 1];
      PlacedSource(edges[1..], cols, id)
  }

  /** The first target of an edge leaving `id` that already has a column. */
  function PlacedTarget(edges: seq<Edge>, cols: map<string, int>, id: string): (r: Option<string>)
    ensures r.Some? ==> r.value in cols && exists e :: e in edges && e.fromNode == id && e.toNode == r.value
    ensures r.None? ==> forall e :: e in edges && e.fromNode == id ==> e.toNode !in cols
    ensures forall k :: (0 <= k < |edges| && edges[k].fromNode == id && edges[k].toNode in cols &&
               (forall j :: 0 <= j < k ==> !(edges[j].fromNode == id && edges[j].toNode in cols))) ==>
              r == Some(edges[k].toNode)
  {
    if edges == [] then None
    else if edges[0].fromNode == id && edges[0].toNode in cols then Some(edges[0].toNode)
    else
      assert forall e :: e in edges <==> e == edges[0] || e in edges[1..];
      assert forall k :: 0 < k < |edges| ==> edges[k] == edges[1..][k - 1];
      PlacedTarget(edges[1..], cols, id)
  }

  /** `ref_col`: the column of the first placed upstream neighbour, else of the
      first placed downstream one, else (or for an empty id) column 0. */
  function RefColumn(edges: seq<Edge>, cols: map<string, int>, id: string): (c: int)
    ensures c != 0 ==> exists x :: x in cols && cols[x] == c && x != "" &&
                        exists e :: e in edges && ((e.toNode == id && e.fromNode == x) || (e.fromNode == id && e.toNode == x))
    ensures ((forall e :: e in edges && e.toNode == id ==> e.fromNode !in cols) &&
             (forall e :: e in edges && e.fromNode == id ==> e.toNode !in cols)) ==> c == 0
    ensures forall k :: (0 <= k < |edges| && edges[k].toNode == id && edges[k].fromNode in cols &&
               (forall j :: 0 <= j < k ==> !(edges[j].toNode == id && edges[j].fromNode in cols))) ==>
              c == if edges[k].fromNode != "" then cols[edges[k].fromNode] else 0
    ensures (forall e :: e in edges && e.toNode == id ==> e.fromNode !in cols) ==>
              forall k :: (0 <= k < |edges| && edges[k].fromNode == id && edges[k].toNode in cols &&
                 (forall j :: 0 <= j < k ==> !(edges[j].fromNode == id && edges[j].toNode in cols))) ==>
                c == if edges[k].toNode != "" then cols[edges[k].toNode] else 0
  {
    var ref := match PlacedSource(edges, cols, id)
      case Some(x) => Some(x)
      case None => PlacedTarget(edges, cols, id);
    match ref
    case Some(x) => if x != "" then cols[x] else 0
    case None => 0
  }

  /** The row a valve goes to: the main row exactly when it is inline, that
      is, when a main-line node sits on each side of it. */
  function ValveRowOf(ks: seq<Key>, edges: seq<Edge>, id: string): Row {
    if UpstreamMain(ks, edges, id) != [] && DownstreamMain(ks, edges, id) != [] then MainRow else ValveRow
  }

  /** The column of a valve: an inline valve goes between its neighbours'
      columns when both are placed (searching from there when that is taken),
      else to the first free main slot from `current_col`; any other valve
      goes near its reference column. */
  function ValveColumn(v: Variant, ks: seq<Key>, edges: seq<Edge>, st: Slotting, id: string): (c: int)
    ensures Acceptable(v, st.occupied, (c, ValveRowOf(ks, edges, id)))
  {
    var ups := UpstreamMain(ks, edges, id);
    var downs := DownstreamMain(ks, edges, id);
    if ups != [] && downs != [] then
      if ups[0] in st.cols && downs[0] in st.cols then
        var avg := (st.cols[ups[0]] + st.cols[downs[0]]) / 2;
        if (avg, MainRow) in st.occupied then
          FoundSlotAcceptable(v, st.occupied, avg, MainRow);
          FindFreeSlot(v, st.occupied, avg, MainRow)
        else avg
      else
        FoundSlotAcceptable(v, st.occupied, st.current, MainRow);
        FindFreeSlot(v, st.occupied, st.current, MainRow)
    else
      FoundSlotAcceptable(v, st.occupied, RefColumn(edges, st.cols, id), ValveRow);
      FindFreeSlot(v, st.occupied, RefColumn(edges, st.cols, id), ValveRow)
  }

  function ValveSlot(v: Variant, ks: seq<Key>, edges: seq<Edge>, st: Slotting, id: string): Slot {
    (ValveColumn(v, ks, edges, st, id), ValveRowOf(ks, edges, id))
  }

  /** The valve loop over node indices from `i`. */
  function PlaceValves(v: Variant, ks: seq<Key>, edges: seq<Edge>, i: nat, st: Slotting): Slotting
    requires i <= |ks|
    decreases |ks| - i
  {
    if i == |ks| then st
    else
      var next := if ks[i].subtype in UpperLineClasses then Put(st, i, ks[i].id, ValveSlot(v, ks, edges, st, ks[i].id)) else st;
      PlaceValves(v, ks, edges, i + 1, next)
  }

  /** The slot of an instrument: the instrument row near its reference column. */
  function InstrumentSlot(v: Variant, edges: seq<Edge>, st: Slotting, id: string): (s: Slot)
    ensures Acceptable(v, st.occupied, s)
    ensures s.1 == InstrumentRow
  {
    FoundSlotAcceptable(v, st.occupied, RefColumn(edges, st.cols, id), InstrumentRow);
    (FindFreeSlot(v, st.occupied, RefColumn(edges, st.cols, id), InstrumentRow), InstrumentRow)
  }

  /** The instrument loop over node indices from `i`. */
  function PlaceInstruments(v: Variant, ks: seq<Key>, edges: seq<Edge>, i: nat, st: Slotting): Slotting
    requires i <= |ks|
    decreases |ks| - i
  {
    if i == |ks| then st
    else
      var next := if ks[i].subtype in InstrumentClasses then Put(st, i, ks[i].id, InstrumentSlot(v, edges, st, ks[i].id)) else st;
      PlaceInstruments(v, ks, edges, i + 1, next)
  }

  /** The main line, then the valves, then the instruments. */
  function MainPhase(v: Variant, ks: seq<Key>, edges: seq<Edge>): Slotting {
    PlaceMain(v, ks, MainLine(ks, edges), Start)
  }

  function ValvePhase(v: Variant, ks: seq<Key>, edges: seq<Edge>): Slotting {
    PlaceValves(v, ks, edges, 0, MainPhase(v, ks, edges))
  }

  function Plan(v: Variant, ks: seq<Key>, edges: seq<Edge>): Slotting {
    PlaceInstruments(v, ks, edges, 0, ValvePhase(v, ks, edges))
  }

  /** Every node given a slot moved to that slot's position. */
  function Moved(nodes: seq<Node>, slots: map<nat, Slot>): (r: seq<Node>)
    ensures |r| == |nodes|
    ensures forall i :: 0 <= i < |nodes| ==> r[i] == nodes[i].(position := r[i].position)
  {
    seq(|nodes|, i requires 0 <= i < |nodes| =>
      if i in slots then nodes[i].(position := SlotPosition(slots[i].0, slots[i].1)) else nodes[i])
  }

  /** `apply_layout` on the node list: every node the plan assigns a slot moves
      to that slot's position, and nothing else about any node changes. */
  function LayoutNodes(v: Variant, nodes: seq<Node>, edges: seq<Edge>): (r: seq<Node>)
    ensures |r| == |nodes|
    ensures forall i :: 0 <= i < |nodes| ==> r[i] == nodes[i].(position := r[i].position)
  {
    Moved(nodes, Plan(v, Keys(nodes), edges).slots)
  }

  // ---------------------------------------------------------------------------
  // Properties of the placement
  // ---------------------------------------------------------------------------

  /** The number of nodes from index `i` on whose subtype is in `classes`. */
  function ClassCount(ks: seq<Key>, i: nat, classes: set<string>): nat
    requires i <= |ks|
    decreases |ks| - i
  {
    if i == |ks| then 0 else (if ks[i].subtype in classes then 1 else 0) + ClassCount(ks, i + 1, classes)
  }

  lemma {:induction false} ValvesAndInstrumentsCount(ks: seq<Key>, i: nat)
    requires i <= |ks|
    ensures ClassCount(ks, i, UpperLineClasses) + ClassCount(ks, i, InstrumentClasses) <= |ks| - i
    decreases |ks| - i
  {
    if i < |ks| {
      ValvesAndInstrumentsCount(ks, i + 1);
    }
  }

  lemma {:induction false} PlaceMainSound(v: Variant, ks: seq<Key>, ids: seq<string>, st: Slotting)
    requires Sound(v, st)
    ensures Sound(v, PlaceMain(v, ks, ids, st))
    ensures PlaceMain(v, ks, ids, st).puts <= st.puts + |ids|
    decreases |ids|
  {
    if ids != [] {
      match LastIndex(ks, ids[0])
      case None =>
        PlaceMainSound(v, ks, ids[1..], st);
      case Some(i) =>
        var col := FindFreeSlot(v, st.occupied, st.current, MainRow);
        FoundSlotAcceptable(v, st.occupied, st.current, MainRow);
        PutSound(v, st, i, ids[0], (col, MainRow));
        PlaceMainSound(v, ks, ids[1..], Put(st, i, ids[0], (col, MainRow)).(current := col + 2));
    }
  }

  lemma {:induction false} PlaceValvesSound(v: Variant, ks: seq<Key>, edges: seq<Edge>, i: nat, st: Slotting)
    requires i <= |ks|
    requires Sound(v, st)
    ensures Sound(v, PlaceValves(v, ks, edges, i, st))
    ensures PlaceValves(v, ks, edges, i, st).puts == st.puts + ClassCount(ks, i, UpperLineClasses)
    decreases |ks| - i
  {
    if i < |ks| {
      if ks[i].subtype in UpperLineClasses {
        PutSound(v, st, i, ks[i].id, ValveSlot(v, ks, edges, st, ks[i].id));
        PlaceValvesSound(v, ks, edges, i + 1, Put(st, i, ks[i].id, ValveSlot(v, ks, edges, st, ks[i].id)));
      } else {
        PlaceValvesSound(v, ks, edges, i + 1, st);
      }
    }
  }

  lemma {:induction false} PlaceInstrumentsSound(v: Variant, ks: seq<Key>, edges: seq<Edge>, i: nat, st: Slotting)
    requires i <= |ks|
    requires Sound(v, st)
    ensures Sound(v, PlaceInstruments(v, ks, edges, i, st))
    ensures PlaceInstruments(v, ks, edges, i, st).puts == st.puts + ClassCount(ks, i, InstrumentClasses)
    decreases |ks| - i
  {
    if i < |ks| {
      if ks[i].subtype in InstrumentClasses {
        PutSound(v, st, i, ks[i].id, InstrumentSlot(v, edges, st, ks[i].id));
        PlaceInstrumentsSound(v, ks, edges, i + 1, Put(st, i, ks[i].id, InstrumentSlot(v, edges, st, ks[i].id)));
      } else {
        PlaceInstrumentsSound(v, ks, edges, i + 1, st);
      }
    }
  }

  /** A duplicate-free list drawn from a set is no longer than the set. */
  lemma {:induction false} DistinctFits<T>(s: seq<T>, bound: set<T>)
    requires Distinct(s)
    requires forall x :: x in s ==> x in bound
    ensures |s| <= |bound|
  {
    if s != [] {
      assert forall x :: x in s[1..] ==> x in bound - {s[0]} by {
        forall x | x in s[1..] ensures x in bound - {s[0]} {
          var j :| 0 <= j < |s[1..]| && s[1..][j] == x;
          assert s[j + 1] == x;
        }
      }
      DistinctFits(s[1..], bound - {s[0]});
    }
  }

  lemma {:induction false} MainIdSetSize(ks: seq<Key>)
    ensures |MainIdSet(ks)| <= |ks|
  {
    if ks != [] {
      var init := ks[..|ks| - 1];
      MainIdSetSize(init);
      assert MainIdSet(ks) <= MainIdSet(init) + {ks[|ks| - 1].id} by {
        forall x | x in MainIdSet(ks) ensures x in MainIdSet(init) + {ks[|ks| - 1].id} {
          var i :| 0 <= i < |ks| && ks[i].subtype in MainLineClasses && ks[i].id == x;
          if i < |ks| - 1 {
            assert init[i] == ks[i];
          }
        }
      }
      SubsetCount(MainIdSet(ks), MainIdSet(init) + {ks[|ks| - 1].id});
    }
  }

  /** The whole plan is sound and makes at most two assignments per node. */
  lemma PlanSound(v: Variant, ks: seq<Key>, edges: seq<Edge>)
    ensures Sound(v, Plan(v, ks, edges))
    ensures Plan(v, ks, edges).puts <= 2 * |ks|
  {
    var ml := MainLine(ks, edges);
    MainLineCovers(ks, edges);
    DistinctFits(ml, MainIdSet(ks));
    MainIdSetSize(ks);
    PlaceMainSound(v, ks, ml, Start);
    PlaceValvesSound(v, ks, edges, 0, MainPhase(v, ks, edges));
    PlaceInstrumentsSound(v, ks, edges, 0, ValvePhase(v, ks, edges));
    ValvesAndInstrumentsCount(ks, 0);
  }

  /** With the unbounded search, or with fewer than 1000 nodes under the
      bounded one, no two nodes the layout places end up at the same position
      (whether or not a node was already standing on its slot). */
  lemma LayoutSeparates(v: Variant, nodes: seq<Node>, edges: seq<Edge>)
    requires v == Unbounded || |nodes| < MaxSlotSearch
    ensures forall i, j :: (0 <= i < j < |nodes| &&
              i in Plan(v, Keys(nodes), edges).slots && j in Plan(v, Keys(nodes), edges).slots) ==>
              LayoutNodes(v, nodes, edges)[i].position != LayoutNodes(v, nodes, edges)[j].position
  {
    var plan := Plan(v, Keys(nodes), edges);
    PlanSound(v, Keys(nodes), edges);
    assert !plan.fellBack;
    forall i, j | 0 <= i < j < |nodes| && i in plan.slots && j in plan.slots
      ensures LayoutNodes(v, nodes, edges)[i].position != LayoutNodes(v, nodes, edges)[j].position
    {
      SlotPositionInjective(plan.slots[i].0, plan.slots[i].1, plan.slots[j].0, plan.slots[j].1);
    }
  }

  // --- what each phase touches ---

  lemma {:induction false} PlaceMainFrame(v: Variant, ks: seq<Key>, ids: seq<string>, st: Slotting)
    ensures forall j :: j in PlaceMain(v, ks, ids, st).slots ==> j in st.slots || (j < |ks| && ks[j].id in ids)
    ensures forall j :: j in st.slots && (j >= |ks| || ks[j].id !in ids) ==>
              j in PlaceMain(v, ks, ids, st).slots && PlaceMain(v, ks, ids, st).slots[j] == st.slots[j]
    decreases |ids|
  {
    if ids != [] {
      match LastIndex(ks, ids[0])
      case None =>
        PlaceMainFrame(v, ks, ids[1..], st);
      case Some(i) =>
        var col := FindFreeSlot(v, st.occupied, st.current, MainRow);
        PlaceMainFrame(v, ks, ids[1..], Put(st, i, ids[0], (col, MainRow)).(current := col + 2));
    }
  }

  lemma {:induction false} PlaceValvesFrame(v: Variant, ks: seq<Key>, edges: seq<Edge>, i: nat, st: Slotting)
    requires i <= |ks|
    ensures forall j :: j in PlaceValves(v, ks, edges, i, st).slots ==>
              j in st.slots || (i <= j < |ks| && ks[j].subtype in UpperLineClasses)
    ensures forall j :: j in st.slots && !(i <= j < |ks| && ks[j].subtype in UpperLineClasses) ==>
              j in PlaceValves(v, ks, edges, i, st).slots && PlaceValves(v, ks, edges, i, st).slots[j] == st.slots[j]
    decreases |ks| - i
  {
    if i < |ks| {
      if ks[i].subtype in UpperLineClasses {
        PlaceValvesFrame(v, ks, edges, i + 1, Put(st, i, ks[i].id, ValveSlot(v, ks, edges, st, ks[i].id)));
      } else {
        PlaceValvesFrame(v, ks, edges, i + 1, st);
      }
    }
  }

  lemma {:induction false} PlaceValvesRow(v: Variant, ks: seq<Key>, edges: seq<Edge>, i: nat, st: Slotting, j: nat)
    requires i <= j < |ks| && ks[j].subtype in UpperLineClasses
    ensures j in PlaceValves(v, ks, edges, i, st).slots
    ensures PlaceValves(v, ks, edges, i, st).slots[j].1 == ValveRowOf(ks, edges, ks[j].id)
    decreases |ks| - i
  {
    var next := if ks[i].subtype in UpperLineClasses then Put(st, i, ks[i].id, ValveSlot(v, ks, edges, st, ks[i].id)) else st;
    assert PlaceValves(v, ks, edges, i, st) == PlaceValves(v, ks, edges, i + 1, next);
    if j == i {
      assert next.slots[i].1 == ValveRowOf(ks, edges, ks[i].id);
      PlaceValvesFrame(v, ks, edges, i + 1, next);
    } else {
      PlaceValvesRow(v, ks, edges, i + 1, next, j);
    }
  }

  lemma {:induction false} PlaceInstrumentsFrame(v: Variant, ks: seq<Key>, edges: seq<Edge>, i: nat, st: Slotting)
    requires i <= |ks|
    ensures forall j :: j in PlaceInstruments(v, ks, edges, i, st).slots ==>
              j in st.slots || (i <= j < |ks| && ks[j].subtype in InstrumentClasses)
    ensures forall j :: j in st.slots && !(i <= j < |ks| && ks[j].subtype in InstrumentClasses) ==>
              j in PlaceInstruments(v, ks, edges, i, st).slots && PlaceInstruments(v, ks, edges, i, st).slots[j] == st.slots[j]
    ensures forall j :: i <= j < |ks| && ks[j].subtype in InstrumentClasses ==>
              j in PlaceInstruments(v, ks, edges, i, st).slots &&
              PlaceInstruments(v, ks, edges, i, st).slots[j].1 == InstrumentRow
    decreases |ks| - i
  {
    if i < |ks| {
      if ks[i].subtype in InstrumentClasses {
        PlaceInstrumentsFrame(v, ks, edges, i + 1, Put(st, i, ks[i].id, InstrumentSlot(v, edges, st, ks[i].id)));
      } else {
        PlaceInstrumentsFrame(v, ks, edges, i + 1, st);
      }
    }
  }

  /** The three class sets are pairwise disjoint. */
  lemma ClassesDisjoint(subtype: string)
    ensures !(subtype in MainLineClasses && subtype in UpperLineClasses)
    ensures !(subtype in MainLineClasses && subtype in InstrumentClasses)
    ensures !(subtype in UpperLineClasses && subtype in InstrumentClasses)
  {
  }

  /** Instruments go to the instrument row; a valve goes to the main row when
      it sits between two main-line nodes, to the valve row otherwise. */
  lemma LayoutRows(v: Variant, nodes: seq<Node>, edges: seq<Edge>, i: nat)
    requires i < |nodes|
    ensures nodes[i].subtype in InstrumentClasses ==> LayoutNodes(v, nodes, edges)[i].position.y == 100.0
    ensures nodes[i].subtype in UpperLineClasses ==>
              LayoutNodes(v, nodes, edges)[i].position.y == (if UpstreamMain(Keys(nodes), edges, nodes[i].id) != [] &&
                                                               DownstreamMain(Keys(nodes), edges, nodes[i].id) != []
                                                            then 550.0 else 300.0)
  {
    var ks := Keys(nodes);
    var vp := ValvePhase(v, ks, edges);
    var plan := Plan(v, ks, edges);
    assert ks[i] == Key(nodes[i].id, nodes[i].subtype);
    ClassesDisjoint(nodes[i].subtype);
    PlaceInstrumentsFrame(v, ks, edges, 0, vp);
    if nodes[i].subtype in InstrumentClasses {
      assert i in plan.slots && plan.slots[i].1 == InstrumentRow;
    }
    if nodes[i].subtype in UpperLineClasses {
      PlaceValvesRow(v, ks, edges, 0, MainPhase(v, ks, edges), i);
      assert i in vp.slots && vp.slots[i].1 == ValveRowOf(ks, edges, ks[i].id);
      assert plan.slots[i] == vp.slots[i];
    }
  }

  /** A node outside every class keeps its position, unless its id is also
      the id of a main-line node (the id lookup then finds it). */
  lemma LayoutKeepsUnclassified(v: Variant, nodes: seq<Node>, edges: seq<Edge>, i: nat)
    requires i < |nodes|
    requires nodes[i].subtype !in UpperLineClasses && nodes[i].subtype !in InstrumentClasses
    requires nodes[i].id !in MainIdSet(Keys(nodes))
    ensures LayoutNodes(v, nodes, edges)[i] == nodes[i]
  {
    var ks := Keys(nodes);
    MainLineCovers(ks, edges);
    PlaceMainFrame(v, ks, MainLine(ks, edges), Start);
    PlaceValvesFrame(v, ks, edges, 0, MainPhase(v, ks, edges));
    PlaceInstrumentsFrame(v, ks, edges, 0, ValvePhase(v, ks, edges));
  }

  lemma {:induction false} PlaceMainColumns(v: Variant, ks: seq<Key>, ids: seq<string>, st: Slotting, k: nat)
    requires k < |ids|
    requires Distinct(ids)
    requires forall id :: id in ids ==> LastIndex(ks, id).Some?
    requires forall s :: s in st.occupied ==> s.0 < st.current
    ensures LastIndex(ks, ids[k]).value in PlaceMain(v, ks, ids, st).slots
    ensures PlaceMain(v, ks, ids, st).slots[LastIndex(ks, ids[k]).value] == (st.current + 2 * k, MainRow)
    decreases |ids|
  {
    if k == 0 {
      PlaceMainFirst(v, ks, ids, st);
    } else {
      var next := Put(st, LastIndex(ks, ids[0]).value, ids[0], (st.current, MainRow)).(current := st.current + 2);
      PlaceMainStep(v, ks, ids, st);
      DistinctTail(ids);
      var rest := ids[1..];
      assert forall id :: id in rest ==> id in ids;
      assert ids[k] == rest[k - 1];
      PlaceMainColumns(v, ks, rest, next, k - 1);
    }
  }

  /** The first main-line node keeps the current column to the end. */
  lemma PlaceMainFirst(v: Variant, ks: seq<Key>, ids: seq<string>, st: Slotting)
    requires ids != [] && Distinct(ids) && LastIndex(ks, ids[0]).Some?
    requires forall s :: s in st.occupied ==> s.0 < st.current
    ensures LastIndex(ks, ids[0]).value in PlaceMain(v, ks, ids, st).slots
    ensures PlaceMain(v, ks, ids, st).slots[LastIndex(ks, ids[0]).value] == (st.current, MainRow)
  {
    var i := LastIndex(ks, ids[0]).value;
    var next := Put(st, i, ids[0], (st.current, MainRow)).(current := st.current + 2);
    PlaceMainStep(v, ks, ids, st);
    DistinctTail(ids);
    PlaceMainFrame(v, ks, ids[1..], next);
    assert ks[i].id == ids[0];
  }

  /** With every taken column left of the current one, the first main-line node
      takes the current column and the next starts two columns on. */
  lemma PlaceMainStep(v: Variant, ks: seq<Key>, ids: seq<string>, st: Slotting)
    requires ids != [] && LastIndex(ks, ids[0]).Some?
    requires forall s :: s in st.occupied ==> s.0 < st.current
    ensures var next := Put(st, LastIndex(ks, ids[0]).value, ids[0], (st.current, MainRow)).(current := st.current + 2);
      PlaceMain(v, ks, ids, st) == PlaceMain(v, ks, ids[1..], next) &&
      forall s :: s in next.occupied ==> s.0 < next.current
  {
    assert (st.current, MainRow) !in st.occupied;
    assert FindFreeSlot(v, st.occupied, st.current, MainRow) == st.current;
  }

  lemma DistinctTail<T>(ids: seq<T>)
    requires ids != [] && Distinct(ids)
    ensures Distinct(ids[1..]) && ids[0] !in ids[1..]
  {
    var rest := ids[1..];
    forall a | 0 <= a < |rest| ensures rest[a] == ids[a + 1] { }
  }

  /** Every main-line id names a node. */
  lemma MainLineNamesNodes(ks: seq<Key>, edges: seq<Edge>)
    ensures Distinct(MainLine(ks, edges))
    ensures forall id :: id in MainLine(ks, edges) ==> LastIndex(ks, id).Some?
  {
    MainLineCovers(ks, edges);
    forall id | id in MainLine(ks, edges) ensures LastIndex(ks, id).Some? {
      MainIdNamesNode(ks, id);
    }
  }

  /** The k-th main-line node is placed in column 2k of the main row, leaving a
      free column between neighbours for inline valves. */
  lemma LayoutMainColumns(v: Variant, nodes: seq<Node>, edges: seq<Edge>, k: nat, i: nat)
    requires k < |MainLine(Keys(nodes), edges)|
    requires LastIndex(Keys(nodes), MainLine(Keys(nodes), edges)[k]) == Some(i)
    requires nodes[i].subtype in MainLineClasses
    ensures LayoutNodes(v, nodes, edges)[i].position == SlotPosition(2 * k, MainRow)
  {
    var ks := Keys(nodes);
    var mp := MainPhase(v, ks, edges);
    var vp := ValvePhase(v, ks, edges);
    var plan := Plan(v, ks, edges);
    MainLineNamesNodes(ks, edges);
    PlaceMainColumns(v, ks, MainLine(ks, edges), Start, k);
    assert mp == PlaceMain(v, ks, MainLine(ks, edges), Start);
    assert ks[i].subtype == nodes[i].subtype;
    ClassesDisjoint(nodes[i].subtype);
    PlaceValvesFrame(v, ks, edges, 0, mp);
    assert i in vp.slots && vp.slots[i] == mp.slots[i];
    PlaceInstrumentsFrame(v, ks, edges, 0, vp);
    assert i in plan.slots && plan.slots[i] == vp.slots[i];
  }

  /** The layout reads only ids, subtypes and edges: re-running it changes nothing. */
  lemma LayoutIdempotent(v: Variant, nodes: seq<Node>, edges: seq<Edge>)
    ensures LayoutNodes(v, LayoutNodes(v, nodes, edges), edges) == LayoutNodes(v, nodes, edges)
  {
    assert Keys(LayoutNodes(v, nodes, edges)) == Keys(nodes);
  }

  /** Incoming positions do not matter: a node the layout moves lands in the same place. */
  lemma LayoutIgnoresPositions(v: Variant, nodes: seq<Node>, other: seq<Node>, edges: seq<Edge>)
    requires |other| == |nodes|
    requires forall i :: 0 <= i < |nodes| ==> other[i] == nodes[i].(position := other[i].position)
    ensures forall i :: 0 <= i < |nodes| ==>
              LayoutNodes(v, other, edges)[i] == LayoutNodes(v, nodes, edges)[i] ||
              (LayoutNodes(v, nodes, edges)[i] == nodes[i] && LayoutNodes(v, other, edges)[i] == other[i])
  {
    assert Keys(other) == Keys(nodes);
  }

  // ---------------------------------------------------------------------------
  // apply_layout, step by step
  // ---------------------------------------------------------------------------

  /** A `defaultdict(list)` read. */
  function Get(m: map<string, seq<string>>, k: string): seq<string> {
    if k in m then m[k] else []
  }

  /** `out_edges` as the dictionary the first loop builds. */
  function OutMap(ks: seq<Key>, edges: seq<Edge>): map<string, seq<string>> {
    if edges == [] then map[]
    else
      var e := edges[|edges| - 1];
      var m := OutMap(ks, edges[..|edges| - 1]);
      if MainEdge(ks, e) then m[e.fromNode := Get(m, e.fromNode) + [e.toNode]] else m
  }

  /** `in_edges` as the dictionary the first loop builds. */
  function InMap(ks: seq<Key>, edges: seq<Edge>): map<string, seq<string>> {
    if edges == [] then map[]
    else
      var e := edges[|edges| - 1];
      var m := InMap(ks, edges[..|edges| - 1]);
      if MainEdge(ks, e) then m[e.toNode := Get(m, e.toNode) + [e.fromNode]] else m
  }

  /** Each dictionary entry is the list of main-edge targets (sources) of that id. */
  lemma {:induction false} EdgeMapsGet(ks: seq<Key>, edges: seq<Edge>, id: string)
    ensures Get(OutMap(ks, edges), id) == OutTargets(ks, edges, id)
    ensures Get(InMap(ks, edges), id) == InSources(ks, edges, id)
  {
    if edges != [] {
      EdgeMapsGet(ks, edges[..|edges| - 1], id);
    }
  }

  /** The first loop of `apply_layout`: `out_edges` and `in_edges` over the main edges. */
  method MainEdgeMaps(ks: seq<Key>, edges: seq<Edge>) returns (outs: map<string, seq<string>>, ins: map<string, seq<string>>)
    ensures outs == OutMap(ks, edges) && ins == InMap(ks, edges)
  {
    outs, ins := map[], map[];
    for j := 0 to |edges|
      invariant outs == OutMap(ks, edges[..j]) && ins == InMap(ks, edges[..j])
    {
      assert edges[..j + 1][..j] == edges[..j];
      var e := edges[j];
      if e.etype == Process && IsMainId(ks, e.fromNode) && IsMainId(ks, e.toNode) {
        outs := outs[e.fromNode := Get(outs, e.fromNode) + [e.toNode]];
        ins := ins[e.toNode := Get(ins, e.toNode) + [e.fromNode]];
      }
    }
    assert edges[..|edges|] == edges;
  }

  /** `roots`, from the two dictionaries. */
  method FindRoots(ks: seq<Key>, edges: seq<Edge>, outs: map<string, seq<string>>, ins: map<string, seq<string>>)
    returns (roots: seq<string>)
    requires outs == OutMap(ks, edges) && ins == InMap(ks, edges)
    ensures roots == Roots(ks, edges)
  {
    var mainIds := MainIds(ks);
    roots := Seqs.Filter(mainIds, (id: string) => Get(ins, id) == [] && Get(outs, id) != []);
    forall i | 0 <= i < |mainIds|
      ensures (Get(ins, mainIds[i]) == [] && Get(outs, mainIds[i]) != []) == IsRoot(ks, edges, mainIds[i]) {
      EdgeMapsGet(ks, edges, mainIds[i]);
    }
    Seqs.FilterCongruent(mainIds, (id: string) => Get(ins, id) == [] && Get(outs, id) != [],
                         (id: string) => IsRoot(ks, edges, id));
    if roots == [] && mainIds != [] {
      roots := [mainIds[0]];
    }
  }

  /** One step of the walk: a visited head is dropped; a new head is recorded and its targets queued. */
  lemma BfsStep(ks: seq<Key>, edges: seq<Edge>, visited: set<string>, queue: seq<string>, order: seq<string>)
    requires visited <= MainIdSet(ks)
    requires forall q :: q in queue ==> q in MainIdSet(ks)
    requires forall x :: x in order <==> x in visited
    requires Distinct(order)
    requires queue != []
    ensures queue[0] in visited ==> Bfs(ks, edges, visited, queue, order) == Bfs(ks, edges, visited, queue[1..], order)
    ensures queue[0] !in visited ==>
              (forall q :: q in queue[1..] + OutTargets(ks, edges, queue[0]) ==> q in MainIdSet(ks)) &&
              Bfs(ks, edges, visited, queue, order) ==
              Bfs(ks, edges, visited + {queue[0]}, queue[1..] + OutTargets(ks, edges, queue[0]), order + [queue[0]])
  {
    QueueStaysMain(ks, edges, queue, queue[0]);
  }

  /** The breadth-first walk over a deque. */
  method WalkFrom(ks: seq<Key>, edges: seq<Edge>, outs: map<string, seq<string>>, roots: seq<string>)
    returns (visited: set<string>, mainLine: seq<string>)
    requires outs == OutMap(ks, edges)
    requires forall q :: q in roots ==> q in MainIdSet(ks)
    ensures (visited, mainLine) == Bfs(ks, edges, {}, roots, [])
  {
    visited := {};
    var queue := roots;
    mainLine := [];
    while queue != []
      invariant visited <= MainIdSet(ks)
      invariant forall q :: q in queue ==> q in MainIdSet(ks)
      invariant forall x :: x in mainLine <==> x in visited
      invariant Distinct(mainLine)
      invariant Bfs(ks, edges, visited, queue, mainLine) == Bfs(ks, edges, {}, roots, [])
      decreases |MainIdSet(ks) - visited|, |queue|
    {
      var nid := queue[0];
      BfsStep(ks, edges, visited, queue, mainLine);
      if nid in visited {
        queue := queue[1..];
      } else {
        SubsetCount(MainIdSet(ks) - (visited + {nid}), MainIdSet(ks) - visited);
        EdgeMapsGet(ks, edges, nid);
        RecordNew(visited, mainLine, nid);
        visited := visited + {nid};
        mainLine := mainLine + [nid];
        queue := queue[1..] + Get(outs, nid);
      }
    }
  }

  /** The main-line order: the walk from the roots, then the leftover loop. */
  method WalkMainLine(ks: seq<Key>, edges: seq<Edge>, outs: map<string, seq<string>>, ins: map<string, seq<string>>)
    returns (mainLine: seq<string>)
    requires outs == OutMap(ks, edges) && ins == InMap(ks, edges)
    ensures mainLine == MainLine(ks, edges)
  {
    var roots := FindRoots(ks, edges, outs, ins);
    var visited;
    visited, mainLine := WalkFrom(ks, edges, outs, roots);
    var mainIds := MainIds(ks);
    ghost var target := Leftovers(mainIds, visited, mainLine);
    assert target.1 == MainLine(ks, edges);
    for k := 0 to |mainIds|
      invariant forall x :: x in mainLine <==> x in visited
      invariant Distinct(mainLine)
      invariant Leftovers(mainIds[k..], visited, mainLine) == target
    {
      assert mainIds[k..][1..] == mainIds[k + 1..];
      var id := mainIds[k];
      if id !in visited {
        visited := visited + {id};
        mainLine := mainLine + [id];
      }
    }
    assert mainIds[|mainIds|..] == [];
  }

  /** Moving one more node: the node list gains that node's new position. */
  lemma MovedPut(nodes: seq<Node>, slots: map<nat, Slot>, i: nat, s: Slot)
    requires i < |nodes|
    ensures Moved(nodes, slots[i := s]) == Moved(nodes, slots)[i := Moved(nodes, slots)[i].(position := SlotPosition(s.0, s.1))]
  {
  }

  /** The method's own slot state agrees with the specification's. */
  predicate Mirrors(st: Slotting, occupied: set<Slot>, cols: map<string, int>, current: int) {
    st.occupied == occupied && st.cols == cols && st.current == current
  }

  /** The body of the main-line placement loop for a node that exists. */
  method PlaceMainNode(v: Variant, base: seq<Node>, i: nat, nid: string,
                       occupied0: set<Slot>, cols0: map<string, int>, current0: int, nodes0: seq<Node>, ghost st0: Slotting)
    returns (occupied: set<Slot>, cols: map<string, int>, current: int, nodes: seq<Node>, ghost st: Slotting)
    requires i < |base|
    requires Mirrors(st0, occupied0, cols0, current0)
    requires nodes0 == Moved(base, st0.slots)
    ensures st == Put(st0, i, nid, (FindFreeSlot(v, st0.occupied, st0.current, MainRow), MainRow))
                   .(current := FindFreeSlot(v, st0.occupied, st0.current, MainRow) + 2)
    ensures Mirrors(st, occupied, cols, current)
    ensures nodes == Moved(base, st.slots)
  {
    var col := SearchSlot(v, occupied0, current0, MainRow);
    occupied, cols, nodes, st := Occupy(base, i, nid, (col, MainRow), current0, occupied0, cols0, nodes0, st0);
    current := col + 2;
    st := st.(current := current);
  }

  /** The main-line placement loop. */
  method PlaceMainLine(v: Variant, ks: seq<Key>, mainLine: seq<string>, base: seq<Node>)
    returns (occupied: set<Slot>, cols: map<string, int>, current: int, nodes: seq<Node>, ghost st: Slotting)
    requires ks == Keys(base)
    ensures st == PlaceMain(v, ks, mainLine, Start)
    ensures Mirrors(st, occupied, cols, current)
    ensures nodes == Moved(base, st.slots)
  {
    occupied, cols, current, nodes := {}, map[], 0, base;
    st := Start;
    assert Moved(base, map[]) == base;
    for k := 0 to |mainLine|
      invariant Mirrors(st, occupied, cols, current)
      invariant nodes == Moved(base, st.slots)
      invariant PlaceMain(v, ks, mainLine[k..], st) == PlaceMain(v, ks, mainLine, Start)
    {
      assert mainLine[k..][1..] == mainLine[k + 1..];
      var nid := mainLine[k];
      var found := LastIndex(ks, nid);
      if found.Some? {
        occupied, cols, current, nodes, st := PlaceMainNode(v, base, found.value, nid, occupied, cols, current, nodes, st);
      }
    }
    assert mainLine[|mainLine|..] == [];
  }

  /** Taking a slot for node `i`: the slot joins `occupied_slots`, the column is
      recorded and the node moves there. */
  method Occupy(base: seq<Node>, i: nat, id: string, slot: Slot, current: int,
                occupied0: set<Slot>, cols0: map<string, int>, nodes0: seq<Node>, ghost st0: Slotting)
    returns (occupied: set<Slot>, cols: map<string, int>, nodes: seq<Node>, ghost st: Slotting)
    requires i < |base|
    requires Mirrors(st0, occupied0, cols0, current)
    requires nodes0 == Moved(base, st0.slots)
    ensures st == Put(st0, i, id, slot)
    ensures Mirrors(st, occupied, cols, current)
    ensures nodes == Moved(base, st.slots)
  {
    occupied := occupied0 + {slot};
    cols := cols0[id := slot.0];
    MovedPut(base, st0.slots, i, slot);
    nodes := nodes0[i := nodes0[i].(position := SlotPosition(slot.0, slot.1))];
    st := Put(st0, i, id, slot);
  }

  /** The slot the valve loop picks for valve `id`. */
  method ChooseValveSlot(v: Variant, ks: seq<Key>, edges: seq<Edge>, id: string,
                         occupied: set<Slot>, cols: map<string, int>, current: int, ghost st: Slotting)
    returns (slot: Slot)
    requires Mirrors(st, occupied, cols, current)
    ensures slot == ValveSlot(v, ks, edges, st, id)
  {
    var ups := UpstreamMain(ks, edges, id);
    var downs := DownstreamMain(ks, edges, id);
    if ups != [] && downs != [] {
      var col;
      if ups[0] in cols && downs[0] in cols {
        col := (cols[ups[0]] + cols[downs[0]]) / 2;
        if (col, MainRow) in occupied {
          col := SearchSlot(v, occupied, col, MainRow);
        }
      } else {
        col := SearchSlot(v, occupied, current, MainRow);
      }
      slot := (col, MainRow);
    } else {
      var col := SearchSlot(v, occupied, RefColumn(edges, cols, id), ValveRow);
      slot := (col, ValveRow);
    }
  }

  /** The valve loop, over the node list in order. */
  method PlaceValveNodes(v: Variant, ks: seq<Key>, edges: seq<Edge>, base: seq<Node>,
                         occupied0: set<Slot>, cols0: map<string, int>, current: int, nodes0: seq<Node>, ghost st0: Slotting)
    returns (occupied: set<Slot>, cols: map<string, int>, nodes: seq<Node>, ghost st: Slotting)
    requires ks == Keys(base)
    requires Mirrors(st0, occupied0, cols0, current)
    requires nodes0 == Moved(base, st0.slots)
    ensures st == PlaceValves(v, ks, edges, 0, st0)
    ensures Mirrors(st, occupied, cols, current)
    ensures nodes == Moved(base, st.slots)
  {
    occupied, cols, nodes, st := occupied0, cols0, nodes0, st0;
    for i := 0 to |base|
      invariant Mirrors(st, occupied, cols, current)
      invariant nodes == Moved(base, st.slots)
      invariant PlaceValves(v, ks, edges, i, st) == PlaceValves(v, ks, edges, 0, st0)
    {
      assert ks[i] == Key(base[i].id, base[i].subtype);
      if base[i].subtype in UpperLineClasses {
        var slot := ChooseValveSlot(v, ks, edges, base[i].id, occupied, cols, current, st);
        assert PlaceValves(v, ks, edges, i, st) == PlaceValves(v, ks, edges, i + 1, Put(st, i, base[i].id, slot));
        occupied, cols, nodes, st := Occupy(base, i, base[i].id, slot, current, occupied, cols, nodes, st);
      } else {
        assert PlaceValves(v, ks, edges, i, st) == PlaceValves(v, ks, edges, i + 1, st);
      }
    }
  }

  /** The instrument loop, over the node list in order. */
  method PlaceInstrumentNodes(v: Variant, ks: seq<Key>, edges: seq<Edge>, base: seq<Node>,
                              occupied0: set<Slot>, cols0: map<string, int>, current: int, nodes0: seq<Node>, ghost st0: Slotting)
    returns (nodes: seq<Node>, ghost st: Slotting)
    requires ks == Keys(base)
    requires Mirrors(st0, occupied0, cols0, current)
    requires nodes0 == Moved(base, st0.slots)
    ensures st == PlaceInstruments(v, ks, edges, 0, st0)
    ensures nodes == Moved(base, st.slots)
  {
    var occupied, cols := occupied0, cols0;
    nodes, st := nodes0, st0;
    for i := 0 to |base|
      invariant Mirrors(st, occupied, cols, current)
      invariant nodes == Moved(base, st.slots)
      invariant PlaceInstruments(v, ks, edges, i, st) == PlaceInstruments(v, ks, edges, 0, st0)
    {
      assert ks[i] == Key(base[i].id, base[i].subtype);
      if base[i].subtype in InstrumentClasses {
        var col := SearchSlot(v, occupied, RefColumn(edges, cols, base[i].id), InstrumentRow);
        assert PlaceInstruments(v, ks, edges, i, st) == PlaceInstruments(v, ks, edges, i + 1, Put(st, i, base[i].id, (col, InstrumentRow)));
        occupied, cols, nodes, st := Occupy(base, i, base[i].id, (col, InstrumentRow), current, occupied, cols, nodes, st);
      } else {
        assert PlaceInstruments(v, ks, edges, i, st) == PlaceInstruments(v, ks, edges, i + 1, st);
      }
    }
  }

  /** `apply_layout`: the diagram with its nodes laid out. The source updates
      the node objects in place and returns the same diagram. */
  method ApplyLayout(v: Variant, d: Diagram) returns (r: Diagram)
    ensures r == d.(nodes := LayoutNodes(v, d.nodes, d.edges))
  {
    var ks := Keys(d.nodes);
    var outs, ins := MainEdgeMaps(ks, d.edges);
    var mainLine := WalkMainLine(ks, d.edges, outs, ins);
    var occupied, cols, current, nodes;
    ghost var st;
    occupied, cols, current, nodes, st := PlaceMainLine(v, ks, mainLine, d.nodes);
    occupied, cols, nodes, st := PlaceValveNodes(v, ks, d.edges, d.nodes, occupied, cols, current, nodes, st);
    nodes, st := PlaceInstrumentNodes(v, ks, d.edges, d.nodes, occupied, cols, current, nodes, st);
    r := d.(nodes := nodes);
  }
}

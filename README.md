# pei — a verified model of the P&ID diagram core

pei edits piping and instrumentation diagrams (P&IDs). A diagram is a canonical
document: nodes (equipment, valves, instruments, fittings) with tags, positions and
nozzles, and edges between node ids (process, utility and signal lines). This
project models, in Dafny, the parts of the system that compute with that document:

- **Canonical** — the diagram, its enumerations, and the graph queries every other
  component uses (node by id, edges out of and into a node, one-hop neighbours).
- **Rules, Traversal, Validator** — the backend rule validator: rule conditions with a
  scope, `where` filters and `check`s, the three hard-coded rule codes, and the
  bounded-hop breadth-first searches upstream and downstream of a node.
- **Layout** — the slot layout. Nodes go to three rows by subtype, the main line is
  ordered by a breadth-first walk, and each node takes the nearest free slot,
  probing alternately right and left. There are two variants: the current layout
  bounds the probing at 1000 columns, the earlier one probes without bound.
- **Repair** — automatic repair from a list of violations. It adds missing
  instruments and valves, inserts nodes into edges, rewires edges, and records
  what needs manual work, re-validating at most three times. There are two
  flavours: the domain repair service and the earlier generator's `auto_repair`.
- **Tags** — the next sequential equipment tag (`P-101`, `P-102` → `P-103`) on the
  server and in the web client, the client's tag prefix table, and the next pipe
  line number.
- **Templates** — the standard diagram templates of the template service and of the
  earlier generator.
- **EdgeSplit** — `apply_repairs` of the earlier backend. It splits edges of a copy
  of the diagram by new nodes at their midpoints. The copy is a class whose node
  and edge lists and lookup tables are updated in place.
- **ReactFlow** — the converters between the canonical diagram and the ReactFlow
  canvas, in both the web app's and the older frontend's copies, and their round trip.
- **Elk** — the ELK adapter: the graph handed to the layered layout, and the
  read-back of the positions it computes.
- **DomainStore** — the web app's canvas domain store, a class holding the diagram
  being edited.
- **Text, Seqs** — the string and list built-ins the code relies on (`strip`,
  `split`, `replace`, `isdigit`, `title`, `int()`, `parseInt`, zero-padded
  formatting, list comprehensions).

Loops in the source are methods proved equal to specification functions. These are
the searches, the free-slot probing, the repair passes, the tag scans, the template
builders and the ELK read-back. The properties are proved about those functions.

## Model

| member | source | states |
|---|---|---|
| Text.TrimLeft | backend/app/services/validator.py:72 | `strip` from the left never lengthens the text, and what remains does not start with whitespace |
| Text.TrimLeftRemovesSpaces | backend/app/services/validator.py:72 | every character `strip` drops from the left is whitespace |
| Text.TrimRight | backend/app/services/validator.py:72 | `strip` from the right never lengthens the text, and what remains does not end with whitespace |
| Text.TrimRightRemovesSpaces | backend/app/services/validator.py:72 | every character `strip` drops from the right is whitespace |
| Text.BlankIffAllSpace | backend/app/services/validator.py:72 | `s.strip() == ""` exactly when every character is whitespace |
| Text.Split | backend/app/services/validator.py:353 | `str.split(sep)` always yields at least one part |
| Text.SplitJoin | backend/app/services/validator.py:353 | joining the parts with the separator gives back the string |
| Text.SplitPartsFree | backend/app/services/validator.py:353 | no part contains the separator |
| Text.SplitConcat | apps/api/app/domain/services/repair_service.py:42 | a separator-free head followed by the separator splits off as the first part |
| Text.Upper | backend/app/services/repair.py:53 | `upper()` on ASCII text: keeps the length and upper-cases each ASCII letter, leaving every other character as it is |
| Text.Title | apps/api/app/domain/services/template_service.py:177 | `title()` on ASCII text: keeps the length |
| Text.NatToString | apps/api/app/domain/services/tag_service.py:22 | decimal printing yields digits only |
| Text.NatToStringValue | apps/api/app/domain/services/tag_service.py:18-22 | the printed digits read back as the number |
| Text.NatToStringInjective | apps/api/app/domain/services/tag_service.py:22 | different numbers print differently |
| Text.Pad3 | apps/api/app/domain/services/repair_service.py:46 | `{seq:03d}` yields at least three digits |
| Text.Pad3Value | apps/api/app/domain/services/repair_service.py:46 | the zero-padded digits read back as the number |
| Text.ParsePyIntOfDigits | apps/api/app/domain/services/tag_service.py:18 | `int()` of a digit string is its decimal value |
| Text.ParsePyIntOfNat | apps/api/app/domain/services/tag_service.py:18-22 | `int()` reads back a printed number |
| Text.LeadingDigits | apps/web/src/domain/services/tag-service.ts:26 | the longest all-digit prefix that `parseInt` reads |
| Text.ParseJsIntOfDigits | apps/web/src/domain/services/tag-service.ts:26 | `parseInt` of digits followed by a non-digit is the digits' value |
| Text.ParseJsIntOfNat | apps/web/src/domain/services/tag-service.ts:26 | `parseInt` reads back a printed number whatever non-digit follows |
| Seqs.Filter | apps/api/app/domain/models/diagram.py:55-59 | a list comprehension with a condition keeps exactly the elements satisfying it, in order |
| Seqs.FilterAppend | apps/api/app/domain/models/diagram.py:55-59 | filtering distributes over concatenation |
| Seqs.FilterAll | apps/web/src/stores/canvas-domain-store.ts:72-85 | filtering keeps the list unchanged exactly when every element satisfies the condition |
| Seqs.MapSome | apps/api/app/domain/models/diagram.py:61-64 | the walrus comprehension keeps one result per element with a result, and all of them exactly when every element has one |
| Seqs.Count | backend/app/services/validator.py:427-428 | `sum(1 for v in vs if ...)` is at most the length, and zero exactly when no element satisfies the condition |
| Seqs.CountAppend | backend/app/services/validator.py:427-428 | counts add up over concatenation |
| Seqs.FilterLength | apps/web/src/stores/canvas-domain-store.ts:79-81 | a filtered list is as long as the count of elements satisfying the condition |
| Seqs.MaxOr | apps/api/app/domain/services/repair_service.py:45 | `max(s, default=d)` is d for an empty list, and otherwise an element bounding all the others |
| Seqs.FlatMapAppend | backend/app/services/validator.py:50 | collecting violations distributes over concatenation |
| Seqs.FlatMapOrigin | backend/app/services/validator.py:70-80 | every collected item comes from some element |
| Seqs.FlatMapCovers | backend/app/services/validator.py:70-80 | every item an element yields is collected |
| Canonical.NumberOf | backend/app/services/validator.py:142 | the number a JSON scalar compares as: a number is itself, `True` is 1 and `False` is 0, and nothing else is a number |
| Canonical.PyEqReflexive | backend/app/services/validator.py:142 | Python's `==` on JSON values holds between a value and itself, inside lists and dicts too |
| Canonical.PyEqSymmetric | backend/app/services/validator.py:142 | Python's `==` on JSON values does not depend on the order of its operands |
| Canonical.PyEqBoolNumber | backend/app/services/validator.py:142 | a boolean equals exactly the number 1 (for `True`) or 0 (for `False`) |
| Canonical.PyEqScalars | backend/app/services/validator.py:142 | `None` and strings equal only themselves |
| Canonical.NodeTypeOf | apps/api/app/domain/models/enums.py:7-11 | a string decodes to the node type whose value it is, and to none when no type has that value |
| Canonical.EdgeTypeOf | apps/api/app/domain/models/enums.py:14-18 | a string decodes to the edge type whose value it is, and to none when no type has that value |
| Canonical.NewNode | apps/api/app/domain/models/diagram.py:13-23 | a node built without the optional fields has location "field", no name or description, and empty properties and nozzles |
| Canonical.NewEdge | apps/api/app/domain/models/diagram.py:26-38 | an edge built without the optional fields has insulation "N", no ports, pipe size or class, empty properties and no waypoints |
| Canonical.FreshId | apps/api/app/domain/models/diagram.py:14 | a generated id is non-empty and differs from every id given |
| Canonical.NodeById | apps/api/app/domain/models/diagram.py:52-53 | `node_by_id` answers None exactly when no node has the id, and otherwise the first node with it |
| Canonical.EdgesFrom | apps/api/app/domain/models/diagram.py:55-56 | exactly the edges leaving the node |
| Canonical.EdgesTo | apps/api/app/domain/models/diagram.py:58-59 | exactly the edges entering the node |
| Canonical.EdgeQueriesAppend | apps/api/app/domain/models/diagram.py:55-59 | both edge queries distribute over appending edges, keeping order |
| Canonical.DownstreamNodes | apps/api/app/domain/models/diagram.py:61-64 | only existing nodes at the end of an edge from the node, at most one per outgoing edge, and one per outgoing edge exactly when every target exists |
| Canonical.UpstreamNodes | apps/api/app/domain/models/diagram.py:66-69 | only existing nodes at the start of an edge into the node, at most one per incoming edge, and one per incoming edge exactly when every source exists |
| Rules.ConditionOf | backend/app/services/validator.py:51-60 | a condition that is neither a string nor a dict, or a string that is not valid JSON, skips the rule |
| Rules.SeverityOf | backend/app/services/validator.py:66 | the severity is the rule's own when non-empty, and never empty ("error" otherwise) |
| Rules.TemplateOf | backend/app/services/validator.py:67 | the message template is the rule's own when non-empty, and never empty |
| Rules.TagOrUnknown | backend/app/services/validator.py:76 | `tag or "Unknown"` is never empty |
| Rules.OrUnknown | backend/app/services/validator.py:85 | `line_number or "Unknown"` is never empty |
| Rules.SeverityCount | backend/app/services/validator.py:427-428 | a tally never exceeds the number of violations |
| Rules.SeverityCountZero | backend/app/services/validator.py:427-429 | a tally is zero exactly when no violation has that severity |
| Rules.SeverityCountsBounded | backend/app/services/validator.py:427-428 | errors and warnings together never exceed the violations |
| Rules.MakeReport | backend/app/services/validator.py:427-436 | the report keeps the violations, passes exactly when none is an error, and exactly when the error count is 0 |
| Rules.SeverityCountAppend | backend/app/services/validator.py:427-428 | tallies add up over concatenated violation lists |
| Rules.ReportIgnoresOtherSeverities | backend/app/schemas/rules.py:5-16 | an "info" violation changes neither count nor the verdict |
| Traversal.Incident | backend/app/services/validator.py:18 | the edges the search follows from a node: exactly those leaving it (downstream) or entering it (upstream) |
| Traversal.Expand | backend/app/services/validator.py:18-23 | one pass of the inner loop only adds existing node ids to `visited`, and queues nothing when it adds none |
| Traversal.ExpandKeepsInv | backend/app/services/validator.py:18-23 | the inner loop keeps the search invariant: found nodes exist, are distinct and lie within the hop bound, and queued entries are walks of their distance |
| Traversal.LoopFinds | backend/app/services/validator.py:13-25 | everything the `while queue` loop returns is an existing node, once, within `max_distance` hops of the start; completeness is LoopComplete |
| Traversal.LoopComplete | backend/app/services/validator.py:13-25 | from a state meeting the breadth-first invariant (labels are hop counts, the queue is sorted by distance, every label below the bound is done or queued), the loop finds every node within `max_distance` hops |
| Traversal.WalkLabelled | backend/app/services/validator.py:13-25 | once the queue is drained, every node at the end of a walk of d hops from the start carries a label of at most d |
| Traversal.ExpandGrows | backend/app/services/validator.py:18-23 | the inner loop keeps the old queue as a prefix, queues each newly visited id once at one hop more, and visits every existing far end of the followed edges |
| Traversal.LayeredStep | backend/app/services/validator.py:14-23 | popping the front entry below the bound and following its edges keeps the breadth-first invariant |
| Traversal.LayeredSkip | backend/app/services/validator.py:15-16 | popping an entry at the bound (the `continue`) keeps the breadth-first invariant |
| Traversal.NoHopsFindNothing | backend/app/services/validator.py:15-16 | with `max_distance <= 0` nothing is found |
| Traversal.ReachableNodes | backend/app/services/validator.py:8-44 | the nodes found exist, have distinct ids and lie within the hop bound; none with a bound of 0 or less |
| Traversal.ReachableComplete | backend/app/services/validator.py:8-44 | a node id is among those found exactly when the node exists and a walk of 1 to `max_distance` hops along the edges leads to it from the start |
| Traversal.ExpandInPlace | backend/app/services/validator.py:18-23 | the inner `for edge` loop computes Expand |
| Traversal.CollectReachable | backend/app/services/validator.py:8-25 | `_get_downstream_nodes` / `_get_upstream_nodes`, written with the queue, compute ReachableNodes, so they find exactly the nodes within the hop bound |
| Validator.IncidentEdges | backend/app/services/validator.py:287 | `edges_from(id) + edges_to(id)` holds exactly the edges that start or end at the node |
| Validator.NodeChecks | backend/app/services/validator.py:148-324 | one violation per failed check of a node that passed the filters, each naming that node, no edge, and the rule's code |
| Validator.EdgePropertyValue | backend/app/services/validator.py:349-358 | a stored non-empty property value is used as is; only "size" and "spec" fall back to the line number |
| Validator.EdgeChecks | backend/app/services/validator.py:332-382 | one violation per failed check of an edge that passed the type filter, each naming that edge, no node, and the rule's code |
| Validator.Duplicates | backend/app/services/validator.py:386-413 | the `seen` set ends as exactly the keys that occur |
| Validator.DuplicatesCount | backend/app/services/validator.py:386-413 | a key occurring k >= 1 times is flagged k - 1 times, every occurrence after the first |
| Validator.Scan | backend/app/services/validator.py:70-80 | the append loop collects every item's violations in order |
| Validator.FindDuplicates | backend/app/services/validator.py:387-398 | the `seen`-set loop computes Duplicates |
| Validator.CheckDiagram | backend/app/services/validator.py:384-425 | the diagram-scope branch computes DiagramChecks |
| Validator.CheckRule | backend/app/services/validator.py:50-425 | the loop body for one rule computes RuleViolations |
| Validator.Validate | backend/app/services/validator.py:47-436 | `validate` answers the report over every rule's violations, passing exactly when none is an error |
| Validator.SkippedRuleReportsNothing | backend/app/services/validator.py:51-64 | a rule whose condition does not decode, or whose `match` is falsy, reports nothing |
| Validator.AllViolationsAppend | backend/app/services/validator.py:50 | rules are independent: the violations of two rule lists are those of each, in order |
| Validator.DescriptionRuleExact | backend/app/services/validator.py:69-80 | VAL-CMP-002 reports exactly one violation per equipment node without a non-blank description; each names such a node, and every such node is named |
| Validator.InsulationRuleExact | backend/app/services/validator.py:82-93 | VAL-PIP-007 reports exactly one violation per edge without a non-blank insulation code; each names such an edge, and every such edge is named |
| Validator.LocationRuleExact | backend/app/services/validator.py:95-106 | VAL-INS-007 reports exactly one violation per instrument without a non-blank location; each names such a node, and every such node is named |
| Validator.DiagramTypeNotExempts | backend/app/services/validator.py:113-115 | a node rule whose `diagram_type_not` is the diagram's type reports nothing |
| Validator.NodeRuleRespectsWhere | backend/app/services/validator.py:117-146 | every violation of a node rule names a node that passed its type, subtype and property filters, the property values compared with Python's `==` (PyEq) |
| Validator.BoolFilterMatchesNumber | backend/app/services/validator.py:136-146 | a filter asking for `true` keeps a node whose property is `1`, one asking for `0` keeps `false`, and `true` drops `2` or a missing property |
| Validator.PropertyFilterEquality | backend/app/services/validator.py:136-146 | an equality filter keeps a node holding exactly the asked value, and every node it keeps holds a value equal to it under `==` |
| Validator.EdgeRuleRespectsType | backend/app/services/validator.py:327-330 | every violation of an edge rule names an edge that passed its type filter |
| Validator.AtLeastOneEdgeIff | backend/app/services/validator.py:246-255 | `has_at_least_one_edge` fails exactly for a node no edge starts or ends at |
| Validator.SignalLinkSatisfiesConnectedInstrument | backend/app/services/validator.py:285-293 | as intended, a signal edge from the node to an instrument satisfies `connected_instrument` |
| Validator.NoSignalEdgeFailsConnectedInstrument | backend/app/services/validator.py:285-302 | a node without any signal edge fails `connected_instrument` with the tag message |
| Validator.EquipmentTagsReported | backend/app/services/validator.py:386-398 | one violation per flagged equipment node, in order, and a tag used k >= 1 times is flagged k - 1 times |
| Validator.LineNumbersReported | backend/app/services/validator.py:401-413 | one violation per flagged edge, in order, and a line number used k >= 1 times is flagged k - 1 times |
| Validator.DuplicatesFlagKeyed | backend/app/services/validator.py:389-404 | only items with a tag (line number) are flagged |
| Validator.LineNumberSuppliesSizeAndSpec | backend/app/services/validator.py:351-358 | with no size or spec stored, a line number `size-service-spec` supplies its first part as the size and its last as the spec |
| Validator.ConnectedInstrumentAsWritten | backend/app/services/validator.py:1-6 | as written the check never passes: it raises exactly when the node has an edge, since `EdgeType` is never imported |
| Validator.ConnectedInstrumentDiscrepancy | backend/app/services/validator.py:284-293 | a pump with a signal edge from a transmitter satisfies the intended check, while the code as written raises |
| Layout.SpreadOffsetAlternates | apps/api/app/layout/slot_layout.py:29-44 | the spread offset for count 2k+1 is (k+1)·step and for 2k+2 its negation, the table of the helper's own comment |
| Layout.SpreadOffsetEnumerates | apps/api/app/layout/slot_layout.py:29-44 | with step 1 the spread offsets hit every integer, and different counts give different offsets |
| Layout.NodeRow | apps/api/app/layout/slot_layout.py:63-69 | a subtype goes to the main row exactly when it is a main-line class, to the valve row exactly when it is an upper-line class, otherwise to the instrument row |
| Layout.SlotPositionInjective | apps/api/app/layout/slot_layout.py:90-96 | column c is centred at x = 200·c + 100, and two slots with the same position are the same (column, row) |
| Layout.ProbeBoundedFirstFree | apps/api/app/layout/slot_layout.py:81-87 | the bounded probing loop answers the first free probe among p+1, p-1, …, p±999, or, when all of them are taken, p + 1000 |
| Layout.ProbeUnbounded | apps/api/app/services/layout.py:61-76 | the unbounded probing loop terminates and always answers a free column |
| Layout.ProbeUnboundedFirstFree | apps/api/app/services/layout.py:61-76 | the unbounded loop answers the first free column in the order p, p+1, p-1, p+2, … |
| Layout.FindFreeSlot | apps/api/app/layout/slot_layout.py:72-87 | a free preferred column is answered as is; the unbounded search never answers a taken column |
| Layout.FindFreeSlotFirstFree | apps/api/app/layout/slot_layout.py:72-87 | a free answer is the first free probe around the preferred column; a taken answer only comes from the bounded search, is preferred + 1000 and follows 1999 taken probes |
| Layout.BoundedSearchFindsFreeSlot | apps/api/app/layout/slot_layout.py:60-87 | with fewer than 1999 slots taken the bounded search answers a free column |
| Layout.SearchSlot | apps/api/app/layout/slot_layout.py:72-87 | the probing loop computes FindFreeSlot |
| Layout.SearchBounded | apps/api/app/layout/slot_layout.py:81-87 | the `for offset in range(1, MAX_SLOT_SEARCH)` loop with its fallback computes the bounded probe |
| Layout.SearchUnbounded | apps/api/app/services/layout.py:69-76 | the `while True` loop computes the unbounded probe |
| Layout.Keys | apps/api/app/layout/slot_layout.py:108 | the layout reads, per node and in order, only its id and subtype |
| Layout.LastIndex | apps/api/app/layout/slot_layout.py:108 | `{n.id: n}` looked up: the answer is the last node with the id, and None exactly when no node has it |
| Layout.OutTargets | apps/api/app/layout/slot_layout.py:113-122 | `out_edges[id]` holds exactly the targets of process edges from `id` between two main-line nodes, each a main-line id |
| Layout.InSources | apps/api/app/layout/slot_layout.py:113-122 | `in_edges[id]` is empty exactly when no main process edge enters `id` |
| Layout.MainIds | apps/api/app/layout/slot_layout.py:125 | the main-line ids are exactly the ids of nodes whose subtype is a main-line class |
| Layout.Roots | apps/api/app/layout/slot_layout.py:126-129 | the roots are main-line ids, and are empty exactly when there is no main-line node (the first main node is the fallback root) |
| Layout.Bfs | apps/api/app/layout/slot_layout.py:132-142 | the walk records only main-line ids, each once, extends the order it started from, and its visited set is what it recorded |
| Layout.MainLineCovers | apps/api/app/layout/slot_layout.py:132-148 | every main-line node appears on the main line exactly once and nothing else does |
| Layout.MainLineStartsAtRoot | apps/api/app/layout/slot_layout.py:126-140 | when there is a main-line node, the main line starts with the first root |
| Layout.FoundSlotAcceptable | apps/api/app/layout/slot_layout.py:72-87 | every slot the search answers is free, or is the bounded fallback after 1999 taken probes |
| Layout.PutSound | apps/api/app/layout/slot_layout.py:155-156 | taking an acceptable slot keeps every assigned slot occupied and, unless a search fell back, no two nodes sharing a slot |
| Layout.UpstreamMain | apps/api/app/layout/slot_layout.py:164-169 | empty exactly when no edge enters the valve from a main-line node; otherwise its head is the source of such an edge |
| Layout.DownstreamMain | apps/api/app/layout/slot_layout.py:170-175 | empty exactly when no edge leaves the valve for a main-line node; otherwise its head is the target of such an edge |
| Layout.PlacedSource | apps/api/app/layout/slot_layout.py:196 | the first source of an edge entering the node that already has a column, and None exactly when none has |
| Layout.PlacedTarget | apps/api/app/layout/slot_layout.py:198 | the first target of an edge leaving the node that already has a column, and None exactly when none has |
| Layout.RefColumn | apps/api/app/layout/slot_layout.py:195-202 | the reference column is that of the first placed upstream neighbour, else of the first placed downstream one, and 0 when that neighbour has an empty id or none is placed |
| Layout.ValveColumn | apps/api/app/layout/slot_layout.py:177-204 | an inline valve's column (average of its neighbours', or a search) and an off-line valve's column are acceptable slots in the valve's row |
| Layout.InstrumentSlot | apps/api/app/layout/slot_layout.py:211-223 | an instrument takes an acceptable slot in the instrument row |
| Layout.Moved | apps/api/app/layout/slot_layout.py:158 | moving nodes changes their positions and nothing else |
| Layout.LayoutNodes | apps/api/app/layout/slot_layout.py:99-228 | the layout keeps the node list's length and every node's fields except its position |
| Layout.PlaceMainSound | apps/api/app/layout/slot_layout.py:151-159 | the main-line loop keeps the slot assignment sound and makes at most one assignment per main-line id |
| Layout.PlaceValvesSound | apps/api/app/layout/slot_layout.py:162-208 | the valve loop keeps the slot assignment sound and makes one assignment per valve |
| Layout.PlaceInstrumentsSound | apps/api/app/layout/slot_layout.py:211-226 | the instrument loop keeps the slot assignment sound and makes one assignment per instrument |
| Layout.PlanSound | apps/api/app/layout/slot_layout.py:150-226 | the three placement phases together are sound and make at most two assignments per node |
| Layout.LayoutSeparates | apps/api/app/layout/slot_layout.py:60-87 | with the unbounded search, or fewer than 1000 nodes under the bounded one, no two nodes the layout places (moved or not) land on the same position |
| Layout.PlaceMainFrame | apps/api/app/layout/slot_layout.py:152-159 | the main-line loop assigns only nodes on the main line and keeps every other assignment |
| Layout.PlaceValvesFrame | apps/api/app/layout/slot_layout.py:162-208 | the valve loop assigns only valves and keeps every other assignment |
| Layout.PlaceValvesRow | apps/api/app/layout/slot_layout.py:177-208 | every valve is assigned, in the main row when inline and in the valve row otherwise |
| Layout.PlaceInstrumentsFrame | apps/api/app/layout/slot_layout.py:211-226 | the instrument loop assigns exactly the instruments, each in the instrument row, and keeps every other assignment |
| Layout.ClassesDisjoint | apps/api/app/layout/slot_layout.py:10-26 | the main-line, upper-line and instrument class sets are pairwise disjoint |
| Layout.LayoutRows | apps/api/app/layout/slot_layout.py:177-226 | an instrument ends at y = 100; a valve at y = 550 when it has main-line neighbours on both sides, else at y = 300 |
| Layout.LayoutKeepsUnclassified | apps/api/app/layout/slot_layout.py:125-226 | a node outside every class, whose id no main-line node shares, keeps its position |
| Layout.PlaceMainColumns | apps/api/app/layout/slot_layout.py:151-159 | on an empty row the k-th main-line id gets column current + 2k |
| Layout.MainLineNamesNodes | apps/api/app/layout/slot_layout.py:152-153 | every main-line id names a node, so the `if nid in nodes` guard always holds |
| Layout.LayoutMainColumns | apps/api/app/layout/slot_layout.py:151-159 | the k-th main-line node lands at column 2k of the main row, leaving a column free for an inline valve |
| Layout.LayoutIdempotent | apps/api/app/layout/slot_layout.py:99-228 | laying out a laid-out diagram changes nothing |
| Layout.LayoutIgnoresPositions | apps/api/app/layout/slot_layout.py:99-228 | the incoming positions do not affect where the layout puts a node |
| Layout.MainEdgeMaps | apps/api/app/layout/slot_layout.py:113-122 | the edge loop builds `out_edges` and `in_edges` as OutTargets and InSources per id |
| Layout.FindRoots | apps/api/app/layout/slot_layout.py:125-129 | the root computation answers Roots |
| Layout.WalkFrom | apps/api/app/layout/slot_layout.py:132-142 | the deque loop computes the breadth-first walk Bfs |
| Layout.WalkMainLine | apps/api/app/layout/slot_layout.py:132-148 | the walk followed by the leftover loop answers MainLine |
| Layout.PlaceMainNode | apps/api/app/layout/slot_layout.py:153-159 | one main-line step takes the first free main slot at the current column and advances the column past it by 2 |
| Layout.PlaceMainLine | apps/api/app/layout/slot_layout.py:151-159 | the main-line loop computes PlaceMain and moves exactly the assigned nodes |
| Layout.Occupy | apps/api/app/layout/slot_layout.py:190-193 | taking a slot marks it occupied, records the column and moves the node there |
| Layout.ChooseValveSlot | apps/api/app/layout/slot_layout.py:164-204 | the valve branch picks ValveSlot |
| Layout.PlaceValveNodes | apps/api/app/layout/slot_layout.py:162-208 | the valve loop computes PlaceValves and moves exactly the assigned nodes |
| Layout.PlaceInstrumentNodes | apps/api/app/layout/slot_layout.py:211-226 | the instrument loop computes PlaceInstruments and moves exactly the assigned nodes |
| Layout.ApplyLayout | apps/api/app/layout/slot_layout.py:99-228 | `apply_layout` returns the diagram with its nodes laid out by LayoutNodes and its edges untouched |
| Repair.OffsetsUsed | apps/api/app/domain/services/repair_service.py:14-23 | the y offsets the repairs look up: 0 for an indicator controller, a check valve and a gate valve (no entry), -200 for a safety valve and a control valve |
| Repair.Occupied | apps/api/app/domain/services/repair_service.py:29 | every node's position is in the occupied set |
| Repair.FreeX | apps/api/app/domain/services/repair_service.py:30-33 | the probe moves only in the direction of the step |
| Repair.FreeXFirstFree | apps/api/app/domain/services/repair_service.py:26-33 | the `while` loop ends, and its answer is the first free position base_x + k·step on the row |
| Repair.NewId | apps/api/app/domain/models/diagram.py:13-38 | a generated id differs from every node id, every edge id and every id already drawn in the same repair |
| Repair.EdgeIndex | apps/api/app/domain/services/repair_service.py:114 | the first edge with the id, and None exactly when there is none |
| Repair.Rewire | apps/api/app/domain/services/repair_service.py:130-137 | the split edge is redirected to the valve, the remainder edge is appended, every other edge is kept |
| Repair.Isolate | apps/api/app/domain/services/repair_service.py:275-290 | edges into the target now enter the inlet valve, edges out of it now leave the outlet valve, and two process edges with insulation "N" join the valves to the target |
| Repair.RepairOne | apps/api/app/domain/services/repair_service.py:74-321 | a violation is dropped exactly when it is a node-scope repair code whose node is missing; an unknown code is unrepairable; a node-scope code is never unrepairable |
| Repair.RepairNode | apps/api/app/domain/services/repair_service.py:142-295 | the node-scope repairs (VAL-EQP-001, -002, -003, -005, -009) always succeed once their node exists |
| Repair.RepairPass | apps/api/app/domain/services/repair_service.py:71-323 | every unfixable violation comes from the input, and there is one "unrepairable" entry per unfixable violation |
| Repair.Rounds | apps/api/app/domain/services/repair_service.py:66-333 | at most three passes, the repair list only grows, and violations remain only after the third pass or when there are no rules to re-validate with |
| Repair.NearestIsClosest | apps/api/app/domain/services/repair_service.py:300-307 | no nearest node exactly when no other equipment exists; otherwise the nearest is such a node, first among those at least distance |
| Repair.SequentialTagFree | apps/api/app/domain/services/repair_service.py:92 | the tag a repair generates belongs to no existing node and reads back as a number of its prefix |
| Repair.ProcessLineFree | apps/api/app/domain/services/repair_service.py:36-46 | the next line number differs from every existing line number |
| Repair.AddInstrumentShape | apps/api/app/domain/services/repair_service.py:80-111 | one instrument "indicator_controller" at location "field" with a fresh id and a new tag of the prefix for the node's subtype, and one electrical signal edge from it to the node, are appended; nothing else changes |
| Repair.SplitEdgeValve | apps/api/app/domain/services/repair_service.py:113-139 | a missing valve adds one gate valve with a fresh id and a new "XV" tag and records the edge and the valve |
| Repair.SplitEdgeRewires | apps/api/app/domain/services/repair_service.py:130-137 | the split edge now ends at the valve and a new edge of the same type runs from the valve to the old target; every other edge is kept |
| Repair.IsolationValvesNodes | apps/api/app/domain/services/repair_service.py:254-273 | VAL-EQP-009 appends two gate valves with fresh distinct ids and the same new "XV" tag, as the code computes both tags before appending |
| Repair.SingleInOut | apps/api/app/domain/services/repair_service.py:275-290 | once every edge at the target is redirected, the two new edges are its only incoming and outgoing edges |
| Repair.IsolateWiring | apps/api/app/domain/services/repair_service.py:275-290 | after the rewiring, the target has exactly one edge in and one edge out |
| Repair.IsolationValvesWiring | apps/api/app/domain/services/repair_service.py:254-295 | after VAL-EQP-009 the target's only incoming edge comes from the inlet valve and its only outgoing edge goes to the outlet valve, both process edges with insulation "N" |
| Repair.CheckValveShape | apps/api/app/domain/services/repair_service.py:142-165 | a check valve is appended at the pump's height, at least 250 to its right, fed by a process edge from the pump, and recorded as an added valve |
| Repair.SafetyValveShape | apps/api/app/domain/services/repair_service.py:204-223 | a safety valve is appended 200 above the vessel, not left of it, fed by a process edge from the vessel, and recorded as an added PSV |
| Repair.BlockValvesNodes | apps/api/app/domain/services/repair_service.py:167-202 | two gate valves with fresh distinct ids are appended, and the entry names the suction valve |
| Repair.NewIdAfter | apps/api/app/domain/services/repair_service.py:180-194 | an id generated after appending a node and an edge is fresh against the nodes that were there before |
| Repair.BlockValvesTags | apps/api/app/domain/services/repair_service.py:172-186 | the suction and discharge valves get different tags, both unused before |
| Repair.BlockValvesEdges | apps/api/app/domain/services/repair_service.py:172-198 | a process edge runs from the suction valve (at least 250 left of the pump) into the pump, and one from the pump to the discharge valve (at least 500 right of it) |
| Repair.BypassShape | apps/api/app/domain/services/repair_service.py:225-252 | a control valve with a new tag is appended 200 above the pump; when the pump has a source and a target, edges run from the first source to the valve and from the valve to the first target; the current service records the repair, the earlier one does not |
| Repair.ConnectIsolatedShape | apps/api/app/domain/services/repair_service.py:297-318 | one process edge from the isolated node to the nearest equipment, with a new line number, is appended; nodes unchanged |
| Repair.AutoRepairNoViolations | apps/api/app/domain/services/repair_service.py:67-69 | with no violations there are no passes: the result is the laid-out diagram with no repairs |
| Repair.AutoRepairWithoutRules | apps/api/app/domain/services/repair_service.py:331-333 | without rules there is exactly one pass, and its unfixable violations are what remains |
| Repair.AutoRepairStopsWhenClean | apps/api/app/domain/services/repair_service.py:325-329 | when re-validation passes after the first pass, the repair stops with nothing remaining |
| Repair.AutoRepairBounded | apps/api/app/domain/services/repair_service.py:66-67 | at most three passes, and violations remain only after the last pass or without rules |
| Repair.FindFreePosition | apps/api/app/domain/services/repair_service.py:26-33 | the `while` loop computes the first free position on the row |
| Repair.FindNearest | apps/api/app/domain/services/repair_service.py:300-307 | the search loop computes the nearest other equipment node |
| Repair.RetargetEdges | apps/api/app/domain/services/repair_service.py:275-277 | the loop redirects exactly the edges into the node |
| Repair.ResourceEdges | apps/api/app/domain/services/repair_service.py:283-285 | the loop redirects exactly the edges out of the node |
| Repair.RunPass | apps/api/app/domain/services/repair_service.py:71-321 | the loop over violations computes RepairPass |
| Repair.Round | apps/api/app/domain/services/repair_service.py:68-333 | one iteration of the outer loop advances Rounds by one pass, or ends it |
| Repair.AutoRepair | apps/api/app/domain/services/repair_service.py:49-337 | `auto_repair` computes the specified result: at most three passes, then the layout engine |
| Tags.ReplaceAllFront | apps/api/app/domain/services/tag_service.py:18 | replacing every `prefix-` in a tag that starts with it removes that leading copy |
| Tags.ReplaceAllAbsent | apps/api/app/domain/services/tag_service.py:18 | a string that lacks a character of the pattern is left unchanged by the replacement |
| Tags.DigitsHaveNoDash | apps/api/app/domain/services/tag_service.py:18 | a string of digits contains no dash, so no second `prefix-` hides inside a generated number |
| Tags.TagNumber | apps/api/app/domain/services/tag_service.py:16-21 | a tag yields a number only when it is non-empty and starts with `prefix-` |
| Tags.TagNumbers | apps/api/app/domain/services/tag_service.py:15-21 | one parse result per node |
| Tags.TagNumbersAt | apps/api/app/domain/services/tag_service.py:15-21 | the i-th parse result is that of the i-th node's tag |
| Tags.RunningMax | apps/api/app/domain/services/tag_service.py:14-19 | the running maximum never falls below its starting value 100 |
| Tags.RunningMaxBound | apps/api/app/domain/services/tag_service.py:14-19 | no parsed number exceeds the running maximum |
| Tags.RunningMaxAttained | apps/api/app/domain/services/tag_service.py:14-19 | the running maximum is 100 or one of the parsed numbers |
| Tags.GenerateSequentialTag | apps/api/app/domain/services/tag_service.py:7-22 | the scanning loop computes SequentialTag |
| Tags.TagNumberOfGenerated | apps/api/app/domain/services/tag_service.py:18-22 | the number of a generated tag `prefix-n` reads back as n |
| Tags.TagNumbersAppend | apps/api/app/domain/services/tag_service.py:15-21 | parsing distributes over appended nodes |
| Tags.SequentialTagIsNew | apps/api/app/domain/services/tag_service.py:14-22 | the new tag's number is one more than the largest number in use, and at least 101 |
| Tags.SequentialTagNotTaken | apps/api/app/domain/services/tag_service.py:7-22 | the new tag is no existing node's tag |
| Tags.SequentialTagNext | apps/api/app/domain/services/tag_service.py:14-22 | adding the node that carries the generated tag raises the largest number in use by exactly one |
| Tags.PrefixesApart | apps/api/app/domain/services/tag_service.py:16 | the `startswith` test never matches a tag of another dash-free prefix |
| Tags.RunningMaxNext | apps/api/app/domain/services/tag_service.py:14-19 | appending one past the running maximum makes it the new maximum |
| Tags.FirstSequentialTag | apps/api/app/domain/services/tag_service.py:14-22 | with no tag of the prefix the answer is `prefix-101` |
| Tags.UnparsableTagIgnored | apps/api/app/domain/services/tag_service.py:17-21 | a tag whose remainder is not an integer (the ValueError) does not change the answer |
| Tags.SequentialTagExample | apps/api/app/domain/services/tag_service.py:10 | after P-101 and P-102 comes P-103, the example of the doc string |
| Tags.ClientTagNumber | apps/web/src/domain/services/tag-service.ts:24-27 | a tag yields a number only when it starts with `prefix-` |
| Tags.ClientNumbers | apps/web/src/domain/services/tag-service.ts:22-31 | one parse result per tag |
| Tags.ClientNumbersAt | apps/web/src/domain/services/tag-service.ts:22-31 | the i-th parse result is that of the i-th tag |
| Tags.CanonicalTags | apps/web/src/domain/services/tag-service.ts:23 | the tags the web service reads are the nodes' tags, in order |
| Tags.GenerateTag | apps/web/src/domain/services/tag-service.ts:15-34 | the scanning loop computes ClientTag over the nodes' tags |
| Tags.TagOfData | apps/web/src/utils/tagGenerator.ts:9-10 | a non-empty string tag is the one read; otherwise the label is tried |
| Tags.DataTags | apps/web/src/utils/tagGenerator.ts:8-9 | one read tag per canvas node |
| Tags.GenerateTagFromData | apps/web/src/utils/tagGenerator.ts:4-21 | the canvas-node loop computes ClientTag over the tags read |
| Tags.ClientNumbersAppend | apps/web/src/domain/services/tag-service.ts:22-31 | parsing distributes over appended tags |
| Tags.ClientTagIsNew | apps/web/src/domain/services/tag-service.ts:20-33 | the new tag's number is one more than the largest number above 100 in use |
| Tags.ClientAfterMax | apps/web/src/domain/services/tag-service.ts:24-33 | the generated client tag reads back as one past the maximum it was built from |
| Tags.ClientReadsBack | apps/web/src/domain/services/tag-service.ts:25-26 | `parseInt` of a generated number reads it back |
| Tags.ClientTagNotTaken | apps/web/src/domain/services/tag-service.ts:15-34 | the new tag is none of the existing tags |
| Tags.ClientSmallNumbersIgnored | apps/web/src/domain/services/tag-service.ts:27 | a tag that does not parse, or whose number is at most 100, does not change the answer |
| Tags.ClientTagLeadingDigits | apps/web/src/domain/services/tag-service.ts:25-33 | `parseInt` stops at the first non-digit: after "P-120a" comes "P-121" |
| Tags.ReadsLeadingDigits | apps/web/src/domain/services/tag-service.ts:25-26 | "P-120a" reads as 120 |
| Tags.ClientFirstTag | apps/web/src/domain/services/tag-service.ts:20-33 | with no tags the answer is `prefix-101` |
| Tags.TagFallsBackToLabel | apps/web/src/utils/tagGenerator.ts:9-10 | a missing or empty tag falls back to the label; a non-string tag is skipped |
| Tags.TagPrefix | frontend/src/constants/tagPrefix.ts:38-40 | the prefix is never empty, and an unknown class gets "EQ" |
| Tags.TagPrefixFamilies | frontend/src/constants/tagPrefix.ts:1-36 | pumps get "P", every valve but the control valve gets "XV", the control valve "CV", instrument mountings "I" |
| Tags.TagPrefixNotInjective | frontend/src/constants/tagPrefix.ts:18-29 | a conveyor and a control valve share the prefix "CV" |
| Tags.ExistingSeqsMembers | apps/api/app/domain/services/repair_service.py:39-44 | the collected sequence numbers are exactly those of the edges whose line number has at least three parts with a digit-only second-to-last part |
| Tags.ComputeNextLineNumber | apps/api/app/domain/services/repair_service.py:36-46 | the loop computes NextLineNumber |
| Tags.NextSeqExceeds | apps/api/app/domain/services/repair_service.py:45 | the next sequence number exceeds every one in use, and is 101 when none is |
| Tags.NextLineNumberIsNew | apps/api/app/domain/services/repair_service.py:45-46 | the new line number reads back as the next sequence number and equals no existing line number |
| Tags.NextSeqAfter | apps/api/app/domain/services/repair_service.py:36-46 | after appending an edge with the new line number, the next one is one higher |
| Tags.FirstLineNumber | apps/api/app/domain/services/repair_service.py:36-46 | on no edges the line number is `2"-P-101-A1B` |
| Templates.ReplaceCharLength | apps/api/app/domain/services/template_service.py:177 | replacing "_" by " " keeps the subtype's length |
| Templates.DefaultDescription | apps/api/app/domain/services/template_service.py:9-26 | the default description of a non-empty subtype is non-empty (the table entry, else the title-cased subtype) |
| Templates.Describe | apps/api/app/domain/services/template_service.py:175-177 | a node gets a description, non-empty when its subtype is; a node with a non-empty description is unchanged; nothing but the description changes |
| Templates.BlueprintOf | apps/api/app/domain/services/template_service.py:47-172 | exactly the four template names have a blueprint; every blueprint's edges join its own nodes and every subtype has a table description |
| Templates.Drawn | apps/api/app/domain/models/diagram.py:14 | the k-th drawn id has length k + 1, so drawn ids differ from each other |
| Templates.PlaceNodes | apps/api/app/domain/services/template_service.py:48-88 | one node per blueprint entry |
| Templates.PlaceEdges | apps/api/app/domain/services/template_service.py:90-101 | one edge per blueprint edge |
| Templates.AppendNode | apps/api/app/domain/services/template_service.py:48-53 | `diagram.nodes.append(...)` of a node tagged with the next sequential tag of its prefix |
| Templates.AppendEdge | apps/api/app/domain/services/template_service.py:115-119 | `diagram.edges.append(...)` of an edge whose line number is computed from the edges so far |
| Templates.AppendNodes | apps/api/app/domain/services/template_service.py:47-88 | appending the nodes one by one builds PlaceNodes |
| Templates.AppendEdges | apps/api/app/domain/services/template_service.py:90-101 | appending the edges one by one builds PlaceEdges |
| Templates.DescribeNodes | apps/api/app/domain/services/template_service.py:175-177 | the description loop describes every node |
| Templates.GenerateTemplate | apps/api/app/domain/services/template_service.py:40-180 | `generate_template` answers the specified template, None for an unknown name (the ValueError) |
| Templates.PlaceAllPrefix | apps/api/app/domain/services/template_service.py:48-88 | nodes placed later do not change those placed earlier |
| Templates.PlaceAllAt | apps/api/app/domain/services/template_service.py:48-88 | the k-th node is built from the k nodes before it |
| Templates.PlaceEdgesPrefix | apps/api/app/domain/services/template_service.py:115-124 | edges placed later do not change those placed earlier |
| Templates.PlaceEdgesAt | apps/api/app/domain/services/template_service.py:115-124 | the j-th edge is built from the j edges before it |
| Templates.BuildNode | apps/api/app/domain/services/template_service.py:48-88 | the k-th template node has the k-th drawn id, the blueprint's type, subtype and position, location "field", the next sequential tag of its prefix over the nodes before it, and its description or the default one |
| Templates.BuildEdge | apps/api/app/domain/services/template_service.py:115-124 | the j-th template edge joins the ids of its blueprint's nodes, with the blueprint's type, insulation "N" and the line number computed from the edges before it |
| Templates.TemplateEdgesJoinNodes | apps/api/app/domain/services/template_service.py:90-169 | every template edge starts and ends at a node of the template |
| Templates.TemplateTagsDistinct | apps/api/app/domain/services/template_service.py:48-163 | no two template nodes share a tag |
| Templates.TemplateIdsDistinct | apps/api/app/domain/services/template_service.py:45-169 | node ids, edge ids and the diagram id are pairwise distinct |
| Templates.TemplateTag | apps/api/app/domain/services/template_service.py:47-169 | with dash-free prefixes, the k-th node of a template is tagged with its prefix and 101 plus the number of earlier nodes sharing that prefix |
| Templates.PlacedNumberCount | apps/api/app/domain/services/tag_service.py:14-22 | placing nodes one by one, each tagged with the next number of its prefix, leaves the next number at 101 plus the count of nodes of that prefix |
| Templates.PumpLoopTags | apps/api/app/domain/services/template_service.py:47-88 | a six-node template with the pump loop's prefixes is tagged TK-101, XV-101, P-101, XV-102, XV-103, V-101 |
| Templates.NextRunPrefix | apps/api/app/domain/services/template_service.py:115-124 | a prefix of a run of computed line numbers is a run |
| Templates.NextRunSeq | apps/api/app/domain/services/template_service.py:29-37 | after j computed line numbers the next sequence number is 101 + j |
| Templates.NextRunLine | apps/api/app/domain/services/template_service.py:29-37 | the j-th computed line number is `size-fluid-(101+j padded to 3)-A1B` |
| Templates.TemplateDescribed | apps/api/app/domain/services/template_service.py:174-177 | every template node ends with a non-empty description |
| Templates.Lines | apps/api/app/domain/services/template_service.py:100 | the line numbers, one per edge |
| Templates.PumpLoopIsChain | apps/api/app/domain/services/template_service.py:90-96 | the pump loop's edges join consecutive nodes |
| Templates.ChainEdges | apps/api/app/domain/services/template_service.py:97-101 | a chain template's j-th edge is a process edge from node j to node j + 1 with line `2"-P-(101+j)-A1B` |
| Templates.Decimals | apps/api/app/domain/services/template_service.py:100 | decimal printing of 101 … 107 |
| Templates.PumpLoopLines | apps/api/app/domain/services/template_service.py:97-101 | the pump loop's literal line numbers are `2"-P-101-A1B` … `2"-P-105-A1B` |
| Templates.ServiceTemplate | apps/api/app/domain/services/template_service.py:40-180 | the service answers the described blueprint, without layout |
| Templates.PumpLoopTemplate | apps/api/app/domain/services/template_service.py:47-101 | the pump loop has six nodes tagged TK-101, XV-101, P-101, XV-102, XV-103 and V-101, from a tank at (100, 200) to a vessel at (1350, 200), joined in a chain of five process lines numbered 101 to 105 |
| Templates.NextRunLines | apps/api/app/domain/services/template_service.py:115-124 | a template built with computed line numbers numbers its lines 101, 102, … in order |
| Templates.HeatExchangeLines | apps/api/app/domain/services/template_service.py:115-124 | the heat exchange unit's lines are `2"-P-101-A1B` to `2"-P-103-A1B` and the signal `2"-S-104-A1B` |
| Templates.ReactorLines | apps/api/app/domain/services/template_service.py:142-147 | the reactor system's lines are `2"-P-101-A1B` to `2"-P-105-A1B` and `2"-S-106-A1B` |
| Templates.DistillationLines | apps/api/app/domain/services/template_service.py:165-169 | the distillation unit's lines are three `2"-P` lines 101-103 and four `4"-R` lines 104-107 |
| Templates.HeatExchangeTemplate | apps/api/app/domain/services/template_service.py:103-124 | five nodes, four edges with those lines, and a signal edge from the temperature controller to the control valve |
| Templates.ReactorTemplate | apps/api/app/domain/services/template_service.py:126-147 | seven nodes and six edges, the process lines numbered P-101 to P-105 and the signal line S-106 |
| Templates.ReactorControlLoop | apps/api/app/domain/services/template_service.py:138-147 | the last edge is an electrical signal from the level controller to the reactor |
| Templates.DistillationTemplate | apps/api/app/domain/services/template_service.py:149-169 | seven nodes, seven edges with those lines, the reflux loop leaving and re-entering the column |
| EdgeSplit.NodeMap | backend/app/services/repair.py:18 | every key maps to a node of the list with that id, and every node's id is a key |
| EdgeSplit.EdgeMap | backend/app/services/repair.py:19 | every key maps to an edge of the list with that id, and every edge's id is a key |
| EdgeSplit.RemoveFirst | backend/app/services/repair.py:79-80 | `list.remove` takes out one occurrence of a present edge, and leaves the list alone otherwise |
| EdgeSplit.KeepsOthers | backend/app/services/repair.py:79-80 | removing one edge keeps every other edge |
| EdgeSplit.Midpoint | backend/app/services/repair.py:46-47 | the new position is equally far from both ends on each axis |
| EdgeSplit.Head | backend/app/services/repair.py:53 | a slice `[:k]` is a prefix of length at most k |
| EdgeSplit.SkippedRequest | backend/app/services/repair.py:26-36 | a request that is not `insert_node_on_edge`, whose target edge is unknown, or whose ends are not both known nodes changes nothing |
| EdgeSplit.SplitShape | backend/app/services/repair.py:38-80 | a split adds one node, typed "valve" / "check_valve" unless the payload says otherwise, at the midpoint of the edge's ends, and replaces the edge by two edges of its type through the new node |
| EdgeSplit.SplitUpdatesMaps | backend/app/services/repair.py:83-86 | after a split the target edge is no longer in the edge map, the new node and the new edges are, and other entries are kept |
| EdgeSplit.StepConsistent | backend/app/services/repair.py:21-86 | each request keeps the lookups consistent with the lists: every map entry is in its list under its own id |
| EdgeSplit.StartConsistent | backend/app/services/repair.py:18-19 | the lookups built from the lists start consistent |
| EdgeSplit.StepsGrow | backend/app/services/repair.py:21-88 | over any request list the lookups stay consistent, existing nodes are kept in front, and nodes and edges grow by the same amount |
| EdgeSplit.RemoveFirstAt | backend/app/services/repair.py:79-80 | removing the first occurrence at index i splices the list around i |
| EdgeSplit.RemoveEdge | backend/app/services/repair.py:79-80 | the search-and-splice loop computes RemoveFirst |
| EdgeSplit.BuildNodeMap | backend/app/services/repair.py:18 | the comprehension computes NodeMap |
| EdgeSplit.BuildEdgeMap | backend/app/services/repair.py:19 | the comprehension computes EdgeMap |
| EdgeSplit.CanonicalDiagram.constructor | apps/api/app/schemas/project.py:30-35 | a diagram holds its schema version, metadata, nodes, edges and signal lines |
| EdgeSplit.CanonicalDiagram.Copy | backend/app/services/repair.py:90-94 | the copy is a new object with the same fields |
| EdgeSplit.CanonicalDiagram.Split | backend/app/services/repair.py:22-86 | one request updates the diagram's nodes and edges and the lookups as Step says, and nothing else |
| EdgeSplit.ApplyRepairs | backend/app/services/repair.py:9-88 | the result is a new diagram whose nodes and edges are those of Steps over the requests, other fields copied, the input untouched |
| ReactFlow.OrElse | apps/web/src/rendering/adapters/to-canonical.ts:38 | `a \|\| b` on an optional string: the value when it is a non-empty string, else the fallback |
| ReactFlow.SymbolKey | apps/web/src/rendering/adapters/to-reactflow.ts:13-19 | a non-empty subtype gets a non-empty symbol key ("vessel" and "indicator_controller" are renamed) |
| ReactFlow.ToReactFlow | apps/web/src/rendering/adapters/to-reactflow.ts:78-86 | one canvas node per node and one canvas edge per edge, in order, each converted on its own |
| ReactFlow.ToCanonical | apps/web/src/rendering/adapters/to-canonical.ts:18-73 | one node per canvas node and one edge per canvas edge, in order; schema version 1, empty metadata, the given id and name, diagram type "pid" unless given |
| ReactFlow.NodeToRFFields | apps/web/src/rendering/adapters/to-reactflow.ts:18-40 | a canvas node keeps id and position, has type "pid", shows the tag or else the subtype as label, carries the symbol key, location "field" and description "" by default |
| ReactFlow.EdgeLabelShown | apps/web/src/rendering/adapters/to-reactflow.ts:53 | an edge shows a label exactly when its line number is non-empty, and the label is the line number |
| ReactFlow.SignalEdgesDashed | apps/web/src/rendering/adapters/to-reactflow.ts:43-61 | signal edges are drawn grey and dashed "5,5"; other edges take their type's style, never that dash |
| ReactFlow.EdgeToRFDefaults | apps/web/src/rendering/adapters/to-reactflow.ts:42-73 | a canvas edge keeps id and ends; missing ports become "right-source" / "left-target", and missing insulation, pipe size and class become "N", `2"` and "A1B" |
| ReactFlow.NodeFromEmptyData | apps/web/src/rendering/adapters/to-canonical.ts:28-43 | a canvas node without data becomes equipment "unknown" with an empty tag, location "field", no properties or nozzles, and description "" (web) or "Equipment" (older frontend) |
| ReactFlow.NodeFromRFFields | frontend/src/converters/to-canonical.ts:22-36 | the tag is the non-empty label, else the tag, else ""; the location is never empty; the older frontend's description is never empty |
| ReactFlow.EdgeFromRFFields | apps/web/src/rendering/adapters/to-canonical.ts:45-61 | an edge keeps id, ends and source port; its type defaults to process; a non-empty label is its line number; insulation is never empty; an empty target handle becomes no port |
| ReactFlow.NodeRoundTrip | apps/web/src/rendering/adapters/to-canonical.ts:28-43 | converting a node to the canvas and back yields its normal form |
| ReactFlow.EdgeRoundTrip | apps/web/src/rendering/adapters/to-canonical.ts:45-61 | converting an edge to the canvas and back yields its normal form |
| ReactFlow.RoundTripNormalises | apps/web/src/rendering/adapters/to-canonical.ts:18-73 | a round trip through the canvas keeps id, name, type and project, resets schema version and metadata, and normalises every node and edge |
| ReactFlow.RoundTripKeeps | apps/web/src/rendering/adapters/to-reactflow.ts:18-73 | a round trip keeps every node's id, type, subtype, position, name, properties, nozzles and non-empty tag, and every edge's id, ends, type and non-empty line number |
| ReactFlow.RoundTripStable | frontend/src/converters/to-canonical.ts:17-66 | when no target port is the empty string, a second round trip changes nothing |
| ReactFlow.EmptyTargetPortSettlesLate | apps/web/src/rendering/adapters/to-canonical.ts:53 | an empty target port is dropped by the first trip and becomes "left-target" on the second |
| Elk.NodeDimension | apps/web/src/layout/node-dimensions.ts:17-19 | a known node type gets its table entry, any other type the equipment size |
| Elk.NodeDimensionTable | apps/web/src/layout/node-dimensions.ts:10-19 | equipment 80×80, valves and instruments 60×60, fittings 40×40, anything else 80×80; every size is square |
| Elk.NozzleToElkPort | apps/web/src/layout/elk-port-mapper.ts:18-25 | a nozzle becomes a port with the nozzle's id and exactly one option, its side |
| Elk.NozzleSide | apps/web/src/layout/elk-port-mapper.ts:11-22 | left, right, top and bottom map to WEST, EAST, NORTH and SOUTH; any other side to EAST |
| Elk.DefaultPorts | apps/web/src/layout/elk-adapter.ts:76-86 | a node without nozzles gets four default ports |
| Elk.BuildElkGraph | apps/web/src/layout/elk-adapter.ts:33-73 | one child per node and one edge per edge, in order, each converted on its own |
| Elk.ChildrenMatchNodes | apps/web/src/layout/elk-adapter.ts:44-58 | a child has the node's id and its type's size; without nozzles its ports are `id__left` WEST, `id__right` EAST, `id__top` NORTH, `id__bottom` SOUTH, otherwise one port per nozzle |
| Elk.EdgesMatchEdges | apps/web/src/layout/elk-adapter.ts:59-71 | an edge has one source and one target: the port when set and non-empty, else `from__right` / `to__left` |
| Elk.DefaultEndsArePorts | apps/web/src/layout/elk-adapter.ts:59-86 | an edge without ports between nodes without nozzles starts and ends at ports of those nodes |
| Elk.HandleIsNoDefaultPort | apps/web/src/layout/elk-adapter.ts:81-84 | no default port id (id plus an `__` suffix) is "right-source" or "left-target" |
| Elk.RoundTripSourceIsHandle | apps/web/src/rendering/adapters/to-reactflow.ts:48 | after a round trip through the canvas, an edge that had no source port starts at "right-source", which is no port of a node without nozzles |
| Elk.PositionMap | apps/web/src/layout/elk-adapter.ts:96-102 | an id has a position exactly when some laid-out child with that id has both coordinates |
| Elk.ExtractPositions | apps/web/src/layout/elk-adapter.ts:91-111 | the read-back loop computes Positioned |
| Elk.PositionedChangesOnlyPositions | apps/web/src/layout/elk-adapter.ts:104-110 | only node positions change: edges and the diagram's other fields are kept, and each node keeps all but its position |
| Elk.LastChildWins | apps/web/src/layout/elk-adapter.ts:98-102 | when several children share an id, the last one with coordinates gives the position |
| Elk.PositionedIdempotent | apps/web/src/layout/elk-adapter.ts:91-111 | reading back the same layout twice changes nothing more |
| DomainStore.DraftNode | apps/web/src/stores/canvas-domain-store.ts:57-62 | the new node keeps the draft's id, type, subtype, name, description, position and location, takes the generated tag, and keeps the draft's properties and nozzles, or gets empty ones when the draft has none |
| DomainStore.WithoutNode | apps/web/src/stores/canvas-domain-store.ts:76-84 | exactly the nodes with another id and the edges not touching the node are kept; nothing else changes |
| DomainStore.Cleared | apps/web/src/stores/canvas-domain-store.ts:99-105 | no nodes and no edges, every other field kept |
| DomainStore.CanvasDomainStore.constructor | apps/web/src/stores/canvas-domain-store.ts:41 | the store starts without a diagram |
| DomainStore.CanvasDomainStore.SetCanonical | apps/web/src/stores/canvas-domain-store.ts:43-45 | the store holds the given diagram |
| DomainStore.CanvasDomainStore.GetCanonical | apps/web/src/stores/canvas-domain-store.ts:47 | the answer is what the store holds |
| DomainStore.CanvasDomainStore.AddCanonicalNode | apps/web/src/stores/canvas-domain-store.ts:49-70 | without a diagram nothing happens; otherwise the node, tagged by the tag service, is appended |
| DomainStore.CanvasDomainStore.RemoveCanonicalNode | apps/web/src/stores/canvas-domain-store.ts:72-85 | without a diagram nothing happens; otherwise the node and its edges are removed |
| DomainStore.CanvasDomainStore.ClearCanonical | apps/web/src/stores/canvas-domain-store.ts:96-106 | without a diagram nothing happens; otherwise nodes and edges are emptied |
| DomainStore.AddAppendsOne | apps/web/src/stores/canvas-domain-store.ts:49-70 | adding appends exactly one node with the draft's id and a tag no existing node has; earlier nodes, edges and other fields are kept |
| DomainStore.RemoveDropsTouching | apps/web/src/stores/canvas-domain-store.ts:79-82 | no node with the id and no edge at it remain, and exactly as many nodes and edges go as have the id or touch it |
| DomainStore.CountComplement | apps/web/src/stores/canvas-domain-store.ts:79-82 | the kept and the dropped together are the whole list |
| DomainStore.RemoveAbsentId | apps/web/src/stores/canvas-domain-store.ts:72-85 | removing an id that no node or edge uses changes nothing |
| DomainStore.RemoveIdempotent | apps/web/src/stores/canvas-domain-store.ts:72-85 | removing the same node twice is removing it once |
| DomainStore.SetThenGet | apps/web/src/stores/canvas-domain-store.ts:43-47 | reading after setting gives back the diagram set |

## Left out

- Floating-point coordinates are modelled as exact reals, so midpoints and offsets have no rounding.
- `uuid4` and `crypto.randomUUID` are not modelled as random. Repair draws an id longer than every id already in use (`Canonical.FreshId`). The templates use a fixed sequence of distinct ids (`Templates.Drawn`). `apply_repairs` takes the sequence of drawn ids as a parameter (`draw`).
- Logging is left out: the asynchronous repair log, `log_repair_iteration`, the debug print in the validator (backend/app/services/validator.py:373) and the debug log in the generator (backend/app/services/generator.py:242-243).
- The earlier generator adds a `safety_valve` entry, copied from `relief_valve`, to its module-level `NODE_Y_OFFSET` table just before its only use (backend/app/services/generator.py:391-393); the update in place is not modelled, and Repair.YOffsets holds that entry from the start, which gives every lookup the same value.
- `ai_assist` in backend/app/services/generator.py is left out; it calls an external language model.
- `re.match` is a parameter of the validator model (`matches`); regular expressions are not modelled.
- The rule engine the repair service re-validates with is not part of this model. Re-validation is a parameter of the repair model (`Repair.Revalidator`), or absent when no rules are given.
- The layout computation of elkjs and the store's `applyElkLayout` action, which calls it, are left out. The adapter's read-back is modelled on any laid-out children.
- The web app's tag prefix map module is not part of this model, so the store and the client tag service take the prefix function as a parameter.
- The layout engine that the earlier generator runs after repair and after a template is a parameter (`engine`).
- Presentation constants of the ReactFlow converters are left out: the label font, the edge markers and the edge kind "smoothstep".
- JavaScript object lookups by a key such as `constructor`, which would hit the object prototype, are modelled as ordinary missing keys.
- In `apply_repairs`, only the node and edge dictionary keys that the code reads or writes are modelled. An explicit `None` payload, which makes Python raise, is not representable. So `list.remove` (backend/app/services/repair.py:79-80), which compares whole edge dictionaries, is modelled as comparing the modelled keys only: with two edges that share an id and agree on those keys but differ in another key, EdgeSplit.RemoveFirst may take out an earlier one than the source does. The keys `id` of every node and edge, `from_node` and `to_node` of every edge, and `x` and `y` of every position that is present are assumed present: where one is missing the source raises `KeyError` (backend/app/services/repair.py:18-19, 32-33, 46-47), and that path is not modelled.
- DomainStore.DraftNode: the spread `...node` also copies the draft's `equipmentClass` into the new node. The canonical node has no such field, so the model drops it.
- Validator.NodeFieldFilled: `getattr(node, field, None)` on a name that is not a declared field but is an attribute of every pydantic model, such as `dict` or `copy`, returns a bound method, which is truthy; the model treats every undeclared name as missing, so a `has_field` check (backend/app/services/validator.py:149-152) naming such an attribute reports a violation that the source would not.
- Validator.EdgeChecks: `getattr(edge, field_name, None)` (backend/app/services/validator.py:335-336) on a name that is not a declared edge field but is an attribute of every pydantic model, such as `dict` or `copy`, returns a truthy bound method; Validator.EdgeFieldFilled treats every undeclared name as missing, so a `has_field` edge check naming such an attribute reports a violation that the source would not. The same holds for `has_property` through Validator.EdgePropertyValue.
- Validator.EdgePropertyValue: `getattr(edge.properties, prop_name, None)` (backend/app/services/validator.py:349) on a pydantic attribute name such as `dict` returns a bound method, which is not in `(None, "", " ")`, so the source reports nothing; Validator.EdgePropertyField answers None for every undeclared name, so the model reports a `has_property` violation there. Bound methods as attribute values are not modelled.
- Rule conditions whose shapes make Python raise (a `TypeError` or `AttributeError` inside the validator) are not representable in the `Condition` datatype.
- Repair and Templates thread the diagram through as a value rather than mutating the node and edge lists in place.
- Text.IsSpace: only the ASCII space and tab to carriage return count as whitespace. Python's `str.strip` also removes U+001C to U+001F, U+0085, U+00A0 and the other Unicode spaces; JavaScript's `parseInt` also skips U+00A0 and U+FEFF. So a description made only of U+00A0, which VAL-CMP-002 reports (backend/app/services/validator.py:71), counts as filled in the model. Unicode character classes are not modelled.
- Text.Upper: only ASCII letters are upper-cased. Python's `upper()` also maps other letters and may change the length: `"ß".upper()` is "SS" and `"é".upper()` is "É", where the model keeps "ß" and "é". So a payload subtype "ßx" gets the tag prefix "SSX" in `apply_repairs` (backend/app/services/repair.py:53) and "ßX" in the model. Unicode case mapping is not modelled.
- Text.Title: only ASCII letters change case. Python's `title()` also maps other letters and treats them as letters: `"éa".title()` is "Éa" and `"ß".title()` is "Ss", where the model gives "éA" and "ß". Unicode case mapping is not modelled.
- Text.IsDigit: only ASCII digits count. Python's `str.isdigit()` is also true for other Unicode digits. For decimal digits of other scripts `int()` reads a value the model skips; for characters such as superscript two `int()` raises `ValueError` (apps/api/app/domain/services/repair_service.py:43-44, apps/api/app/domain/services/template_service.py:34-35, backend/app/services/generator.py:211-212). The model treats such a part as not a sequence number, so neither that value nor that error path is modelled.
- Tags.ClientTag: JavaScript numbers are modelled as unbounded integers. Above 2^53 the client loses precision, and from 10^21 up it prints the next number in exponent form (a 22-digit suffix gives a tag like `P-1e+21`).

## Findings

| source | as written | input that shows it | evidently intended | confidence | as-written member | corrected member |
|---|---|---|---|---|---|---|
| backend/app/services/validator.py:284-293 | the `connected_instrument` check uses `EdgeType` and `NodeType`, which line 5 never imports, so it raises `NameError` as soon as the node has an incident edge | a pump with a signal edge from a transmitter | the check passes for a node with a signal link to an instrument | not executed | Validator.ConnectedInstrumentAsWritten | Validator.SignalLinkSatisfiesConnectedInstrument |

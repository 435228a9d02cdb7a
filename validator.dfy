/** The rule validator: for each rule, decode its condition, skip it unless
    `match` is truthy, run the three hard-coded rule codes, and otherwise apply
    the node-, edge- or diagram-scope checks the condition names. Violations
    are appended in rule order and tallied into a report. */
module Validator {
  import opened Text
  import opened Seqs
  import opened Canonical
  import opened Rules
  import opened Traversal

  /** Whether `re.match(pattern, text)` succeeds; regular expressions are a parameter of the model. */
  type Matcher = (string, string) -> bool

  /** What every violation of one rule shares. */
  datatype Ctx = Ctx(code: string, severity: string, template: string)

  function NodeViolation(ctx: Ctx, message: string, n: Node): Violation {
    Violation(ctx.code, ctx.severity, message, Some(n.id), None)
  }

  function EdgeViolation(ctx: Ctx, message: string, e: Edge): Violation {
    Violation(ctx.code, ctx.severity, message, None, Some(e.id))
  }

  /** `template.replace("{tag}", tag or "Unknown")` */
  function WithTag(template: string, tag: string): string {
    ReplaceAll(template, "{tag}", TagOrUnknown(tag))
  }

  /** `template.replace("{edge_id}", id).replace("{line_number}", line_number or "Unknown")` */
  function WithEdge(template: string, e: Edge): string {
    ReplaceAll(ReplaceAll(template, "{edge_id}", e.id), "{line_number}", OrUnknown(e.lineNumber))
  }

  // ---------------------------------------------------------------------------
  // The three hard-coded rule codes
  // ---------------------------------------------------------------------------

  /** VAL-CMP-002: equipment without a (non-blank) description. */
  predicate LacksDescription(n: Node) {
    n.ntype == Equipment && IsBlankOpt(n.description)
  }

  /** VAL-PIP-007: an edge without a (non-blank) insulation code. */
  predicate LacksInsulation(e: Edge) {
    IsBlankOpt(e.insulation)
  }

  /** VAL-INS-007: an instrument without a (non-blank) location. */
  predicate LacksLocation(n: Node) {
    n.ntype == Instrument && IsBlankOpt(n.location)
  }

  function DescriptionCheck(ctx: Ctx): Node -> seq<Violation> {
    (n: Node) => if LacksDescription(n) then [NodeViolation(ctx, WithTag(ctx.template, n.tag), n)] else []
  }

  function InsulationCheck(ctx: Ctx): Edge -> seq<Violation> {
    (e: Edge) => if LacksInsulation(e) then [EdgeViolation(ctx, WithEdge(ctx.template, e), e)] else []
  }

  function LocationCheck(ctx: Ctx): Node -> seq<Violation> {
    (n: Node) => if LacksLocation(n) then [NodeViolation(ctx, WithTag(ctx.template, n.tag), n)] else []
  }

  // ---------------------------------------------------------------------------
  // Node scope
  // ---------------------------------------------------------------------------

  /** `getattr(node, name)` is truthy and not blank. Only the node's declared fields are known. */
  predicate NodeFieldFilled(n: Node, name: string) {
    if name == "id" then !IsBlank(n.id)
    else if name == "type" then true
    else if name == "subtype" then !IsBlank(n.subtype)
    else if name == "tag" then !IsBlank(n.tag)
    else if name == "name" then !IsBlankOpt(n.name)
    else if name == "description" then !IsBlankOpt(n.description)
    else if name == "position" then true
    else if name == "location" then !IsBlankOpt(n.location)
    else if name == "properties" then |n.properties| > 0
    else if name == "nozzles" then n.nozzles != []
    else false
  }

  /** `key not in props or props[key] is None` */
  predicate PropertyMissing(props: map<string, Json>, key: string) {
    key !in props || props[key] == JNull
  }

  /** One `where.properties` entry: `{"not_null": <truthy>}` asks for a present,
      non-null value; anything else asks for a value equal to `props.get(key)`
      under Python's `==`. */
  predicate PassesPropertyFilter(props: map<string, Json>, key: string, want: Json) {
    if want.JObject? && "not_null" in want.fields && Truthy(want.fields["not_null"]) then
      !PropertyMissing(props, key)
    else
      PyEq(if key in props then props[key] else JNull, want)
  }

  /** A filter asking for `true` keeps a node whose property is `1`, and one
      asking for `0` keeps a node whose property is `false`; a filter asking for
      `true` drops a node whose property is `2` or is missing. */
  lemma BoolFilterMatchesNumber()
    ensures PassesPropertyFilter(map["k" := JNum(1.0)], "k", JBool(true))
    ensures PassesPropertyFilter(map["k" := JBool(false)], "k", JNum(0.0))
    ensures !PassesPropertyFilter(map["k" := JNum(2.0)], "k", JBool(true))
    ensures !PassesPropertyFilter(map[], "k", JBool(true))
  {
  }

  /** A filter asking for a value keeps a node holding that very value, and one
      holding a value the filter does not equal is dropped. */
  lemma PropertyFilterEquality(props: map<string, Json>, key: string, want: Json)
    requires !(want.JObject? && "not_null" in want.fields && Truthy(want.fields["not_null"]))
    ensures key in props && props[key] == want ==> PassesPropertyFilter(props, key, want)
    ensures PassesPropertyFilter(props, key, want) ==> PyEq(want, if key in props then props[key] else JNull)
  {
    if key in props && props[key] == want {
      PyEqReflexive(want);
    }
    if PassesPropertyFilter(props, key, want) {
      PyEqSymmetric(if key in props then props[key] else JNull, want);
    }
  }

  /** The node passes every `where` filter. */
  predicate PassesWhere(w: Where, n: Node) {
    && PassesMembership(w.ntype, NodeTypeValue(n.ntype))
    && PassesMembership(w.subtype, n.subtype)
    && forall key :: key in w.properties ==> PassesPropertyFilter(n.properties, key, w.properties[key])
  }

  /** A node reached by `downstream_node` / `upstream_node` that meets its type and subtype. */
  predicate MeetsHop(h: HopCheck, m: Node) {
    PassesEquality(h.reqType, NodeTypeValue(m.ntype)) && PassesMembership(h.reqSubtype, m.subtype)
  }

  predicate HopSatisfied(d: Diagram, n: Node, h: HopCheck, forward: bool) {
    exists m :: m in ReachableNodes(d.nodes, d.edges, n.id, h.maxDistance, forward) && MeetsHop(h, m)
  }

  /** `edges_from(id) + edges_to(id)` */
  function IncidentEdges(edges: seq<Edge>, id: string): (r: seq<Edge>)
    ensures forall e :: e in r <==> e in edges && (e.fromNode == id || e.toNode == id)
  {
    EdgesFrom(edges, id) + EdgesTo(edges, id)
  }

  /** The end of an incident edge that is not the node (its target for a self-loop). */
  function OtherEnd(e: Edge, id: string): string {
    if e.fromNode == id then e.toNode else e.fromNode
  }

  /** Ids collected by `has_bypass` for one upstream neighbour `u`: for each edge
      leaving `u` that does not enter the node, the nodes up to 3 hops past its
      target, and the target itself when it exists. */
  function BypassIds(d: Diagram, u: Node, skip: string): set<string> {
    (set e, m | e in EdgesFrom(d.edges, u.id) && e.toNode != skip
                && m in ReachableNodes(d.nodes, d.edges, e.toNode, 3, true) :: m.id)
    + (set e | e in EdgesFrom(d.edges, u.id) && e.toNode != skip && HasNode(d.nodes, e.toNode) :: e.toNode)
  }

  /** Some direct upstream neighbour reaches a direct downstream neighbour without passing the node. */
  predicate BypassFound(d: Diagram, n: Node) {
    exists u, m :: u in ReachableNodes(d.nodes, d.edges, n.id, 1, false)
                && m in ReachableNodes(d.nodes, d.edges, n.id, 1, true)
                && m.id in BypassIds(d, u, n.id)
  }

  predicate IsSignal(t: EdgeType) {
    t == SignalElectrical || t == SignalPneumatic
  }

  /** `connected_instrument` as evidently intended: a signal edge joins the node to an instrument. */
  predicate InstrumentConnected(d: Diagram, n: Node) {
    exists e :: e in IncidentEdges(d.edges, n.id) && IsSignal(e.etype)
             && NodeById(d.nodes, OtherEnd(e, n.id)).Some?
             && NodeById(d.nodes, OtherEnd(e, n.id)).value.ntype == Instrument
  }

  /** `connected_node`: a directly connected node with the required type and subtype (equality only). */
  predicate NeighbourFound(d: Diagram, n: Node, c: NeighbourCheck) {
    exists e :: e in IncidentEdges(d.edges, n.id)
             && NodeById(d.nodes, OtherEnd(e, n.id)).Some?
             && PassesEquality(c.reqType, NodeTypeValue(NodeById(d.nodes, OtherEnd(e, n.id)).value.ntype))
             && PassesEquality(c.reqSubtype, NodeById(d.nodes, OtherEnd(e, n.id)).value.subtype)
  }

  /** The messages of the checks of a node-scope rule that fail for one node, in source order. */
  function NodeFailures(d: Diagram, template: string, c: Check, matches: Matcher, n: Node): seq<string> {
    var onTag := [WithTag(template, n.tag)];
    (match c.hasField
     case Some(f) => if NodeFieldFilled(n, f) then [] else [WithTag(ReplaceAll(template, "{field}", f), n.tag)]
     case None => [])
    + (match c.hasProperty
       case Some(p) => if !PropertyMissing(n.properties, p) then [] else [WithTag(ReplaceAll(template, "{property}", p), n.tag)]
       case None => [])
    + (match c.tagMatchesPattern
       case Some(pattern) => if n.tag != "" && !matches(pattern, n.tag) then onTag else []
       case None => [])
    + (match c.downstreamNode
       case Some(h) => if HopSatisfied(d, n, h, true) then [] else onTag
       case None => [])
    + (match c.upstreamNode
       case Some(h) => if HopSatisfied(d, n, h, false) then [] else onTag
       case None => [])
    + (if c.hasAtLeastOneEdge && |EdgesFrom(d.edges, n.id)| + |EdgesTo(d.edges, n.id)| == 0 then onTag else [])
    + (if c.hasBypass && !BypassFound(d, n) then onTag else [])
    + (if c.connectedInstrument && !InstrumentConnected(d, n) then onTag else [])
    + (match c.connectedNode
       case Some(nc) => if NeighbourFound(d, n, nc) then [] else onTag
       case None => [])
  }

  /** The violations of a node-scope rule for one node that passed the filters. */
  function NodeChecks(d: Diagram, ctx: Ctx, c: Check, matches: Matcher, n: Node): (vs: seq<Violation>)
    ensures |vs| == |NodeFailures(d, ctx.template, c, matches, n)|
    ensures forall v :: v in vs ==> v.nodeId == Some(n.id) && v.edgeId.None? && v.ruleCode == ctx.code
  {
    var msgs := NodeFailures(d, ctx.template, c, matches, n);
    seq(|msgs|, i requires 0 <= i < |msgs| => NodeViolation(ctx, msgs[i], n))
  }

  function NodeRule(d: Diagram, ctx: Ctx, c: Condition, matches: Matcher): Node -> seq<Violation> {
    (n: Node) => if PassesWhere(c.filter, n) then NodeChecks(d, ctx, c.checks, matches, n) else []
  }

  /** `diagram_type_not` names the diagram's own type. */
  predicate DiagramTypeExcluded(sel: Selector, diagramType: string) {
    sel.Str? && sel.s != "" && sel.s == diagramType
  }

  // ---------------------------------------------------------------------------
  // Edge scope
  // ---------------------------------------------------------------------------

  /** `getattr(edge, name)` is truthy and not blank. Only the edge's declared fields are known. */
  predicate EdgeFieldFilled(e: Edge, name: string) {
    if name == "id" then !IsBlank(e.id)
    else if name == "type" then true
    else if name == "from_node" then !IsBlank(e.fromNode)
    else if name == "from_port" then !IsBlankOpt(e.fromPort)
    else if name == "to_node" then !IsBlank(e.toNode)
    else if name == "to_port" then !IsBlankOpt(e.toPort)
    else if name == "line_number" then !IsBlankOpt(e.lineNumber)
    else if name == "pipe_size" then !IsBlankOpt(e.pipeSize)
    else if name == "pipe_class" then !IsBlankOpt(e.pipeClass)
    else if name == "insulation" then !IsBlankOpt(e.insulation)
    else if name == "properties" then true
    else if name == "waypoints" then e.waypoints != []
    else false
  }

  /** `getattr(edge.properties, name, None)` */
  function EdgePropertyField(p: EdgeProperties, name: string): Option<string> {
    if name == "size" then p.size
    else if name == "spec" then p.spec
    else if name == "insulation" then p.insulation
    else if name == "fluid" then p.fluid
    else if name == "temperature" then p.temperature
    else if name == "pressure" then p.pressure
    else None
  }

  /** The property value `has_property` inspects: the stored value, or, when that
      is None or empty and the edge has a line number of at least three dash
      segments, its first segment for "size" and its last for "spec". */
  function EdgePropertyValue(e: Edge, name: string): (v: Option<string>)
    ensures EdgePropertyField(e.properties, name).Some? && EdgePropertyField(e.properties, name).value != ""
            ==> v == EdgePropertyField(e.properties, name)
    ensures name != "size" && name != "spec" ==> v == EdgePropertyField(e.properties, name)
  {
    var v := EdgePropertyField(e.properties, name);
    if (v.None? || v == Some("")) && e.lineNumber.Some? && e.lineNumber.value != "" then
      var parts := Split(e.lineNumber.value, '-');
      if |parts| >= 3 && name == "size" then Some(parts[0])
      else if |parts| >= 3 && name == "spec" then Some(parts[|parts| - 1])
      else v
    else v
  }

  /** `val in (None, "", " ")` */
  predicate EdgePropertyMissing(e: Edge, name: string) {
    var v := EdgePropertyValue(e, name);
    v.None? || v.value == "" || v.value == " "
  }

  function LineText(e: Edge): string {
    match e.lineNumber
    case Some(l) => l
    case None => ""
  }

  /** The messages of the checks of an edge-scope rule that fail for one edge, in source order. */
  function EdgeFailures(template: string, c: Check, matches: Matcher, e: Edge): seq<string> {
    (match c.hasField
     case Some(f) => if EdgeFieldFilled(e, f) then [] else [WithEdge(ReplaceAll(template, "{field}", f), e)]
     case None => [])
    + (match c.hasProperty
       case Some(p) => if EdgePropertyMissing(e, p) then [WithEdge(ReplaceAll(template, "{property}", p), e)] else []
       case None => [])
    + (match c.lineNumberMatchesPattern
       case Some(pattern) => if LineText(e) != "" && !matches(pattern, LineText(e)) then [WithEdge(template, e)] else []
       case None => [])
  }

  /** The violations of an edge-scope rule for one edge that passed the type filter. */
  function EdgeChecks(ctx: Ctx, c: Check, matches: Matcher, e: Edge): (vs: seq<Violation>)
    ensures |vs| == |EdgeFailures(ctx.template, c, matches, e)|
    ensures forall v :: v in vs ==> v.edgeId == Some(e.id) && v.nodeId.None? && v.ruleCode == ctx.code
  {
    var msgs := EdgeFailures(ctx.template, c, matches, e);
    seq(|msgs|, i requires 0 <= i < |msgs| => EdgeViolation(ctx, msgs[i], e))
  }

  function EdgeRule(ctx: Ctx, c: Condition, matches: Matcher): Edge -> seq<Violation> {
    (e: Edge) => if PassesEquality(c.filter.ntype, EdgeTypeValue(e.etype)) then EdgeChecks(ctx, c.checks, matches, e) else []
  }

  // ---------------------------------------------------------------------------
  // Diagram scope
  // ---------------------------------------------------------------------------

  /** A scan with a `seen` set: items whose key was already seen are flagged;
      items without a key are passed over. */
  function Duplicates<T>(s: seq<T>, key: T -> Option<string>): (r: (set<string>, seq<T>))
    ensures forall k :: k in r.0 <==> exists i :: 0 <= i < |s| && key(s[i]) == Some(k)
    decreases |s|
  {
    if s == [] then ({}, [])
    else
      var prev := Duplicates(s[..|s| - 1], key);
      var x := s[|s| - 1];
      assert forall i :: 0 <= i < |s| - 1 ==> s[..|s| - 1][i] == s[i];
      match key(x)
      case None => prev
      case Some(k) => (prev.0 + {k}, if k in prev.0 then prev.1 + [x] else prev.1)
  }

  function HasKey<T>(key: T -> Option<string>, k: string): T -> bool {
    (x: T) => key(x) == Some(k)
  }

  /** A key that occurs k >= 1 times is flagged k - 1 times: every occurrence after the first. */
  lemma {:induction false} DuplicatesCount<T>(s: seq<T>, key: T -> Option<string>, k: string)
    ensures var occ := Count(s, HasKey(key, k));
            Count(Duplicates(s, key).1, HasKey(key, k)) == if occ == 0 then 0 else occ - 1
    decreases |s|
  {
    if s != [] {
      var init := s[..|s| - 1];
      var x := s[|s| - 1];
      assert s == init + [x];
      DuplicatesCount(init, key, k);
      CountAppend(init, [x], HasKey(key, k));
      var prev := Duplicates(init, key);
      match key(x)
      case None =>
      case Some(k') =>
        if k' in prev.0 {
          CountAppend(prev.1, [x], HasKey(key, k));
          if k' == k {
            var i :| 0 <= i < |init| && key(init[i]) == Some(k);
            assert Count(init, HasKey(key, k)) != 0;
          }
        } else if k' == k {
          assert Count(init, HasKey(key, k)) == 0 by {
            assert forall i :: 0 <= i < |init| ==> key(init[i]) != Some(k);
          }
        }
    }
  }

  function EquipmentTagKey(n: Node): Option<string> {
    if n.ntype == Equipment && n.tag != "" then Some(n.tag) else None
  }

  function LineNumberKey(e: Edge): Option<string> {
    if LineText(e) != "" then Some(LineText(e)) else None
  }

  function TagViolation(ctx: Ctx): Node -> seq<Violation> {
    (n: Node) => [NodeViolation(ctx, ReplaceAll(ctx.template, "{tag}", n.tag), n)]
  }

  function LineViolation(ctx: Ctx): Edge -> seq<Violation> {
    (e: Edge) => [EdgeViolation(ctx, ReplaceAll(ctx.template, "{line_number}", LineText(e)), e)]
  }

  function DiagramChecks(d: Diagram, ctx: Ctx, c: Check): seq<Violation> {
    (if c.equipmentTagsUnique then FlatMap(Duplicates(d.nodes, EquipmentTagKey).1, TagViolation(ctx)) else [])
    + (if c.lineNumbersUnique then FlatMap(Duplicates(d.edges, LineNumberKey).1, LineViolation(ctx)) else [])
    + (match c.nodeCountMin
       case Some(m) => if |d.nodes| < m then [Violation(ctx.code, ctx.severity, ctx.template, None, None)] else []
       case None => [])
  }

  // ---------------------------------------------------------------------------
  // Rules and the report
  // ---------------------------------------------------------------------------

  predicate IsHardCoded(code: string) {
    code == "VAL-CMP-002" || code == "VAL-PIP-007" || code == "VAL-INS-007"
  }

  function CtxOf(r: Rule): Ctx {
    Ctx(r.code, SeverityOf(r), TemplateOf(r))
  }

  /** Everything one rule reports, in source order. */
  function RuleViolations(d: Diagram, r: Rule, matches: Matcher): seq<Violation> {
    match ConditionOf(r)
    case None => []
    case Some(c) =>
      var ctx := CtxOf(r);
      if !Truthy(c.scope) then []
      else if r.code == "VAL-CMP-002" then FlatMap(d.nodes, DescriptionCheck(ctx))
      else if r.code == "VAL-PIP-007" then FlatMap(d.edges, InsulationCheck(ctx))
      else if r.code == "VAL-INS-007" then FlatMap(d.nodes, LocationCheck(ctx))
      else if c.scope == JStr("node") then
        if DiagramTypeExcluded(c.checks.diagramTypeNot, d.diagramType) then []
        else FlatMap(d.nodes, NodeRule(d, ctx, c, matches))
      else if c.scope == JStr("edge") then FlatMap(d.edges, EdgeRule(ctx, c, matches))
      else if c.scope == JStr("diagram") then DiagramChecks(d, ctx, c.checks)
      else []
  }

  function RuleCheck(d: Diagram, matches: Matcher): Rule -> seq<Violation> {
    (r: Rule) => RuleViolations(d, r, matches)
  }

  /** Every rule's violations, rule after rule. */
  function AllViolations(d: Diagram, rules: seq<Rule>, matches: Matcher): seq<Violation> {
    FlatMap(rules, RuleCheck(d, matches))
  }

  /** `validate` as a function of the diagram and the rules. */
  function ValidationOf(d: Diagram, rules: seq<Rule>, matches: Matcher): Report {
    MakeReport(AllViolations(d, rules, matches))
  }

  // ---------------------------------------------------------------------------
  // The validator as the source runs it
  // ---------------------------------------------------------------------------

  /** `for item in items: violations.append(...)` */
  method Scan<T>(items: seq<T>, check: T -> seq<Violation>) returns (vs: seq<Violation>)
    ensures vs == FlatMap(items, check)
  {
    vs := [];
    var j := 0;
    while j < |items|
      invariant 0 <= j <= |items|
      invariant vs + FlatMap(items[j..], check) == FlatMap(items, check)
    {
      assert items[j..][1..] == items[j + 1..];
      vs := vs + check(items[j]);
      j := j + 1;
    }
    assert items[j..] == [];
  }

  /** The `seen`-set loops of `equipment_tags_unique` and `line_numbers_unique`. */
  method FindDuplicates<T>(items: seq<T>, key: T -> Option<string>) returns (seen: set<string>, flagged: seq<T>)
    ensures (seen, flagged) == Duplicates(items, key)
  {
    seen, flagged := {}, [];
    var j := 0;
    while j < |items|
      invariant 0 <= j <= |items|
      invariant (seen, flagged) == Duplicates(items[..j], key)
    {
      assert items[..j + 1][..j] == items[..j];
      match key(items[j]) {
        case None =>
        case Some(k) =>
          if k in seen {
            flagged := flagged + [items[j]];
          }
          seen := seen + {k};
      }
      j := j + 1;
    }
    assert items[..j] == items;
  }

  method CheckDiagram(d: Diagram, ctx: Ctx, c: Check) returns (vs: seq<Violation>)
    ensures vs == DiagramChecks(d, ctx, c)
  {
    vs := [];
    if c.equipmentTagsUnique {
      var _, flagged := FindDuplicates(d.nodes, EquipmentTagKey);
      vs := Scan(flagged, TagViolation(ctx));
    }
    if c.lineNumbersUnique {
      var _, flagged := FindDuplicates(d.edges, LineNumberKey);
      var more := Scan(flagged, LineViolation(ctx));
      vs := vs + more;
    }
    if c.nodeCountMin.Some? && |d.nodes| < c.nodeCountMin.value {
      vs := vs + [Violation(ctx.code, ctx.severity, ctx.template, None, None)];
    }
  }

  /** The body of `validate`'s loop for one rule. */
  method CheckRule(d: Diagram, rule: Rule, matches: Matcher) returns (found: seq<Violation>)
    ensures found == RuleViolations(d, rule, matches)
  {
    found := [];
    var cond := ConditionOf(rule);
    if cond.None? || !Truthy(cond.value.scope) {
      return;
    }
    var c := cond.value;
    var ctx := CtxOf(rule);
    if rule.code == "VAL-CMP-002" {
      found := Scan(d.nodes, DescriptionCheck(ctx));
    } else if rule.code == "VAL-PIP-007" {
      found := Scan(d.edges, InsulationCheck(ctx));
    } else if rule.code == "VAL-INS-007" {
      found := Scan(d.nodes, LocationCheck(ctx));
    } else if c.scope == JStr("node") {
      if !DiagramTypeExcluded(c.checks.diagramTypeNot, d.diagramType) {
        found := Scan(d.nodes, NodeRule(d, ctx, c, matches));
      }
    } else if c.scope == JStr("edge") {
      found := Scan(d.edges, EdgeRule(ctx, c, matches));
    } else if c.scope == JStr("diagram") {
      found := CheckDiagram(d, ctx, c.checks);
    }
  }

  /** `validate`: the report over every rule's violations. */
  lemma AllViolationsStep(d: Diagram, rules: seq<Rule>, matches: Matcher, i: nat)
    requires i < |rules|
    ensures AllViolations(d, rules[..i + 1], matches) == AllViolations(d, rules[..i], matches) + RuleViolations(d, rules[i], matches)
  {
    assert rules[..i + 1] == rules[..i] + [rules[i]];
    FlatMapAppend(rules[..i], [rules[i]], RuleCheck(d, matches));
  }

  method Validate(d: Diagram, rules: seq<Rule>, matches: Matcher) returns (report: Report)
    ensures report == ValidationOf(d, rules, matches)
    ensures report.passed <==> forall i :: 0 <= i < |report.violations| ==> report.violations[i].severity != "error"
  {
    var violations: seq<Violation> := [];
    for i := 0 to |rules|
      invariant violations == AllViolations(d, rules[..i], matches)
    {
      var found := CheckRule(d, rules[i], matches);
      AllViolationsStep(d, rules, matches, i);
      violations := violations + found;
    }
    assert rules[..|rules|] == rules;
    report := MakeReport(violations);
  }

  // ---------------------------------------------------------------------------
  // Properties
  // ---------------------------------------------------------------------------

  /** A rule whose condition cannot be decoded, or whose `match` is falsy, reports nothing. */
  lemma SkippedRuleReportsNothing(d: Diagram, r: Rule, matches: Matcher)
    requires ConditionOf(r).None? || !Truthy(ConditionOf(r).value.scope)
    ensures RuleViolations(d, r, matches) == []
  {
  }

  /** Rules are independent and reported in order. */
  lemma AllViolationsAppend(d: Diagram, a: seq<Rule>, b: seq<Rule>, matches: Matcher)
    ensures AllViolations(d, a + b, matches) == AllViolations(d, a, matches) + AllViolations(d, b, matches)
  {
    FlatMapAppend(a, b, RuleCheck(d, matches));
  }

  /** VAL-CMP-002 reports exactly one violation per equipment node without a
      description, naming that node, whatever its condition's checks say. */
  lemma DescriptionRuleExact(d: Diagram, r: Rule, matches: Matcher)
    requires r.code == "VAL-CMP-002"
    requires ConditionOf(r).Some? && Truthy(ConditionOf(r).value.scope)
    ensures |RuleViolations(d, r, matches)| == Count(d.nodes, LacksDescription)
    ensures forall v :: v in RuleViolations(d, r, matches) ==>
              v.edgeId.None? && v.ruleCode == "VAL-CMP-002" &&
              exists n :: n in d.nodes && LacksDescription(n) && v.nodeId == Some(n.id)
    ensures forall n :: n in d.nodes && LacksDescription(n) ==>
              NodeViolation(CtxOf(r), WithTag(TemplateOf(r), n.tag), n) in RuleViolations(d, r, matches)
  {
    var f := DescriptionCheck(CtxOf(r));
    FlatMapOptionalCount(d.nodes, f, LacksDescription);
    FlatMapOrigin(d.nodes, f);
    forall n | n in d.nodes && LacksDescription(n)
      ensures NodeViolation(CtxOf(r), WithTag(TemplateOf(r), n.tag), n) in RuleViolations(d, r, matches)
    {
      FlatMapCovers(d.nodes, f, n, NodeViolation(CtxOf(r), WithTag(TemplateOf(r), n.tag), n));
    }
  }

  /** VAL-PIP-007 reports exactly one violation per edge without an insulation code. */
  lemma InsulationRuleExact(d: Diagram, r: Rule, matches: Matcher)
    requires r.code == "VAL-PIP-007"
    requires ConditionOf(r).Some? && Truthy(ConditionOf(r).value.scope)
    ensures |RuleViolations(d, r, matches)| == Count(d.edges, LacksInsulation)
    ensures forall v :: v in RuleViolations(d, r, matches) ==>
              v.nodeId.None? && exists e :: e in d.edges && LacksInsulation(e) && v.edgeId == Some(e.id)
    ensures forall e :: e in d.edges && LacksInsulation(e) ==>
              EdgeViolation(CtxOf(r), WithEdge(TemplateOf(r), e), e) in RuleViolations(d, r, matches)
  {
    var f := InsulationCheck(CtxOf(r));
    FlatMapOptionalCount(d.edges, f, LacksInsulation);
    FlatMapOrigin(d.edges, f);
    forall e | e in d.edges && LacksInsulation(e)
      ensures EdgeViolation(CtxOf(r), WithEdge(TemplateOf(r), e), e) in RuleViolations(d, r, matches)
    {
      FlatMapCovers(d.edges, f, e, EdgeViolation(CtxOf(r), WithEdge(TemplateOf(r), e), e));
    }
  }

  /** VAL-INS-007 reports exactly one violation per instrument without a location. */
  lemma LocationRuleExact(d: Diagram, r: Rule, matches: Matcher)
    requires r.code == "VAL-INS-007"
    requires ConditionOf(r).Some? && Truthy(ConditionOf(r).value.scope)
    ensures |RuleViolations(d, r, matches)| == Count(d.nodes, LacksLocation)
    ensures forall v :: v in RuleViolations(d, r, matches) ==>
              v.edgeId.None? && exists n :: n in d.nodes && LacksLocation(n) && v.nodeId == Some(n.id)
    ensures forall n :: n in d.nodes && LacksLocation(n) ==>
              NodeViolation(CtxOf(r), WithTag(TemplateOf(r), n.tag), n) in RuleViolations(d, r, matches)
  {
    var f := LocationCheck(CtxOf(r));
    FlatMapOptionalCount(d.nodes, f, LacksLocation);
    FlatMapOrigin(d.nodes, f);
    forall n | n in d.nodes && LacksLocation(n)
      ensures NodeViolation(CtxOf(r), WithTag(TemplateOf(r), n.tag), n) in RuleViolations(d, r, matches)
    {
      FlatMapCovers(d.nodes, f, n, NodeViolation(CtxOf(r), WithTag(TemplateOf(r), n.tag), n));
    }
  }

  /** A node rule whose `diagram_type_not` names the diagram's type reports nothing. */
  lemma DiagramTypeNotExempts(d: Diagram, r: Rule, matches: Matcher)
    requires !IsHardCoded(r.code)
    requires ConditionOf(r).Some? && ConditionOf(r).value.scope == JStr("node")
    requires d.diagramType != "" && ConditionOf(r).value.checks.diagramTypeNot == Str(d.diagramType)
    ensures RuleViolations(d, r, matches) == []
  {
  }

  /** Every violation of a node rule names a node that passed the rule's `where` filters. */
  lemma NodeRuleRespectsWhere(d: Diagram, r: Rule, matches: Matcher)
    requires !IsHardCoded(r.code)
    requires ConditionOf(r).Some? && ConditionOf(r).value.scope == JStr("node")
    ensures forall v :: v in RuleViolations(d, r, matches) ==>
              v.edgeId.None? && v.ruleCode == r.code &&
              exists n :: n in d.nodes && PassesWhere(ConditionOf(r).value.filter, n) && v.nodeId == Some(n.id)
  {
    var c := ConditionOf(r).value;
    if !DiagramTypeExcluded(c.checks.diagramTypeNot, d.diagramType) {
      FlatMapOrigin(d.nodes, NodeRule(d, CtxOf(r), c, matches));
    }
  }

  /** Every violation of an edge rule names an edge whose type passed the rule's type filter. */
  lemma EdgeRuleRespectsType(d: Diagram, r: Rule, matches: Matcher)
    requires !IsHardCoded(r.code)
    requires ConditionOf(r).Some? && ConditionOf(r).value.scope == JStr("edge")
    ensures forall v :: v in RuleViolations(d, r, matches) ==>
              v.nodeId.None? && v.ruleCode == r.code &&
              exists e :: e in d.edges && PassesEquality(ConditionOf(r).value.filter.ntype, EdgeTypeValue(e.etype))
                          && v.edgeId == Some(e.id)
  {
    FlatMapOrigin(d.edges, EdgeRule(CtxOf(r), ConditionOf(r).value, matches));
  }

  /** `has_at_least_one_edge` fails exactly for a node no edge starts or ends at. */
  lemma AtLeastOneEdgeIff(d: Diagram, template: string, matches: Matcher, n: Node)
    ensures NodeFailures(d, template, NoChecks.(hasAtLeastOneEdge := true), matches, n) != []
            <==> forall e :: e in d.edges ==> e.fromNode != n.id && e.toNode != n.id
  {
    var out, inc := EdgesFrom(d.edges, n.id), EdgesTo(d.edges, n.id);
    if |out| + |inc| != 0 {
      if |out| != 0 { assert out[0] in out; } else { assert inc[0] in inc; }
    }
  }

  /** A node with a signal edge to an instrument satisfies `connected_instrument`. */
  lemma SignalLinkSatisfiesConnectedInstrument(d: Diagram, template: string, matches: Matcher, n: Node, e: Edge, m: Node)
    requires e in d.edges && IsSignal(e.etype) && e.fromNode == n.id
    requires NodeById(d.nodes, e.toNode) == Some(m) && m.ntype == Instrument
    ensures NodeFailures(d, template, NoChecks.(connectedInstrument := true), matches, n) == []
  {
    assert e in IncidentEdges(d.edges, n.id);
    assert OtherEnd(e, n.id) == e.toNode;
  }

  /** `connected_instrument` fails for a node without any signal edge. */
  lemma NoSignalEdgeFailsConnectedInstrument(d: Diagram, template: string, matches: Matcher, n: Node)
    requires forall e :: e in d.edges ==> !IsSignal(e.etype)
    ensures NodeFailures(d, template, NoChecks.(connectedInstrument := true), matches, n) == [WithTag(template, n.tag)]
  {
  }

  /** `equipment_tags_unique`: one violation per flagged node, in order, naming that
      node; an equipment tag used k >= 1 times is flagged k - 1 times. */
  lemma EquipmentTagsReported(d: Diagram, ctx: Ctx, t: string)
    ensures var flagged := Duplicates(d.nodes, EquipmentTagKey).1;
            var vs := DiagramChecks(d, ctx, NoChecks.(equipmentTagsUnique := true));
            && |vs| == |flagged|
            && (forall i :: 0 <= i < |vs| ==> vs[i].nodeId == Some(flagged[i].id) && EquipmentTagKey(flagged[i]).Some?)
            && var occ := Count(d.nodes, HasKey(EquipmentTagKey, t));
               Count(flagged, HasKey(EquipmentTagKey, t)) == if occ == 0 then 0 else occ - 1
  {
    var flagged := Duplicates(d.nodes, EquipmentTagKey).1;
    FlatMapSingletons(flagged, TagViolation(ctx));
    DuplicatesFlagKeyed(d.nodes, EquipmentTagKey);
    DuplicatesCount(d.nodes, EquipmentTagKey, t);
    assert DiagramChecks(d, ctx, NoChecks.(equipmentTagsUnique := true)) == FlatMap(flagged, TagViolation(ctx)) + [] + [];
  }

  /** `line_numbers_unique`: one violation per flagged edge; a line number used k >= 1 times is flagged k - 1 times. */
  lemma LineNumbersReported(d: Diagram, ctx: Ctx, l: string)
    ensures var flagged := Duplicates(d.edges, LineNumberKey).1;
            var vs := DiagramChecks(d, ctx, NoChecks.(lineNumbersUnique := true));
            && |vs| == |flagged|
            && (forall i :: 0 <= i < |vs| ==> vs[i].edgeId == Some(flagged[i].id) && LineNumberKey(flagged[i]).Some?)
            && var occ := Count(d.edges, HasKey(LineNumberKey, l));
               Count(flagged, HasKey(LineNumberKey, l)) == if occ == 0 then 0 else occ - 1
  {
    var flagged := Duplicates(d.edges, LineNumberKey).1;
    var f := LineViolation(ctx);
    assert forall i :: 0 <= i < |flagged| ==> |f(flagged[i])| == 1;
    FlatMapSingletons(flagged, f);
    LineChecksOnly(d, ctx);
    var vs := DiagramChecks(d, ctx, NoChecks.(lineNumbersUnique := true));
    forall i | 0 <= i < |vs| ensures vs[i].edgeId == Some(flagged[i].id) {
      assert vs[i] == f(flagged[i])[0];
    }
    DuplicatesFlagKeyed(d.edges, LineNumberKey);
    DuplicatesCount(d.edges, LineNumberKey, l);
  }

  /** With only `line_numbers_unique` set, the diagram checks are the line violations. */
  lemma LineChecksOnly(d: Diagram, ctx: Ctx)
    ensures DiagramChecks(d, ctx, NoChecks.(lineNumbersUnique := true))
            == FlatMap(Duplicates(d.edges, LineNumberKey).1, LineViolation(ctx))
  {
    var fm := FlatMap(Duplicates(d.edges, LineNumberKey).1, LineViolation(ctx));
    assert DiagramChecks(d, ctx, NoChecks.(lineNumbersUnique := true)) == [] + fm + [];
    assert [] + fm + [] == fm;
  }

  /** Only items with a key are flagged. */
  lemma {:induction false} DuplicatesFlagKeyed<T>(s: seq<T>, key: T -> Option<string>)
    ensures forall i :: 0 <= i < |Duplicates(s, key).1| ==> key(Duplicates(s, key).1[i]).Some?
    decreases |s|
  {
    if s != [] {
      DuplicatesFlagKeyed(s[..|s| - 1], key);
    }
  }

  /** With no size or spec stored, an edge whose line number has the form
      size-service-spec takes its size from the first segment and its spec from the last. */
  lemma LineNumberSuppliesSizeAndSpec(e: Edge, size: string, service: string, spec: string)
    requires '-' !in size && '-' !in service && '-' !in spec
    requires e.lineNumber == Some(size + "-" + service + "-" + spec)
    requires e.properties.size.None? && e.properties.spec.None?
    ensures EdgePropertyValue(e, "size") == Some(size)
    ensures EdgePropertyValue(e, "spec") == Some(spec)
  {
    var line := size + "-" + service + "-" + spec;
    assert line == size + ['-'] + (service + ['-'] + spec);
    SplitConcat(size, '-', service + ['-'] + spec);
    SplitConcat(service, '-', spec);
    SplitNoSep(spec, '-');
    assert Split(line, '-') == [size, service, spec];
  }

  // ---------------------------------------------------------------------------
  // `connected_instrument` as written
  // ---------------------------------------------------------------------------

  /** What evaluating a check does: pass, report a violation, or raise. */
  datatype Outcome = Satisfied | Violated | Raises(error: string)

  /** `connected_instrument` as written refers to a variable that is never
      defined: with any incident edge the loop body raises NameError; with
      none the check reports a violation. It can never be satisfied. */
  function ConnectedInstrumentAsWritten(d: Diagram, n: Node): (o: Outcome)
    ensures o != Satisfied
    ensures o.Raises? <==> IncidentEdges(d.edges, n.id) != []
  {
    if IncidentEdges(d.edges, n.id) != [] then Raises("NameError") else Violated
  }

  /** A pump with a signal edge from a transmitter: the intended check passes,
      the code as written raises. */
  lemma ConnectedInstrumentDiscrepancy()
    ensures var pump := NewNode("P1", Equipment, "pump", "P-101", Position(0.0, 0.0));
            var tx := NewNode("T1", Instrument, "transmitter", "PT-101", Position(0.0, 0.0));
            var link := NewEdge("E1", SignalElectrical, "T1", "P1", None);
            var d := Diagram(1, "D1", "demo", "pid", None, [pump, tx], [link], map[]);
            InstrumentConnected(d, pump) && ConnectedInstrumentAsWritten(d, pump) == Raises("NameError")
  {
    var pump := NewNode("P1", Equipment, "pump", "P-101", Position(0.0, 0.0));
    var tx := NewNode("T1", Instrument, "transmitter", "PT-101", Position(0.0, 0.0));
    var link := NewEdge("E1", SignalElectrical, "T1", "P1", None);
    var d := Diagram(1, "D1", "demo", "pid", None, [pump, tx], [link], map[]);
    assert link in IncidentEdges(d.edges, pump.id);
    assert OtherEnd(link, pump.id) == "T1";
    assert FirstNodeIndex(d.nodes, "T1", 0) == Some(1);
  }
}

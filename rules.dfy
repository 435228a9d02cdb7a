/** Validation rules as the validator reads them: a rule code, a severity, a
    message template and a condition with a scope (`match`), node or edge
    filters (`where`) and the checks to run (`check`); and the violations and
    report the validator produces. */
module Rules {
  import opened Text
  import opened Canonical

  /** A `where`/`check` entry whose value is a string, a list of strings,
      absent, or some other JSON value (whose truthiness is recorded). */
  datatype Selector = Missing | Str(s: string) | StrList(items: seq<string>) | OtherValue(truthy: bool)

  predicate SelectorTruthy(sel: Selector) {
    match sel
    case Missing => false
    case Str(s) => s != ""
    case StrList(items) => items != []
    case OtherValue(t) => t
  }

  /** Filters written `if sel: if list and v not in sel: skip; elif str and v != sel: skip`:
      a list means membership, a string means equality, any other value filters nothing. */
  predicate PassesMembership(sel: Selector, v: string) {
    !SelectorTruthy(sel) ||
    match sel
    case StrList(items) => v in items
    case Str(s) => v == s
    case _ => true
  }

  /** Filters written `if sel and v != sel: skip`: only an equal string passes;
      a truthy list or other value never equals a string and so rejects every value. */
  predicate PassesEquality(sel: Selector, v: string) {
    !SelectorTruthy(sel) || (sel.Str? && v == sel.s)
  }

  /** `where`: node type and subtype filters, and property filters. */
  datatype Where = Where(ntype: Selector, subtype: Selector, properties: map<string, Json>)

  /** `downstream_node` / `upstream_node`: required type and subtype within a hop bound. */
  datatype HopCheck = HopCheck(reqType: Selector, reqSubtype: Selector, maxDistance: int)

  /** `connected_node`: required type and subtype of a directly connected node. */
  datatype NeighbourCheck = NeighbourCheck(reqType: Selector, reqSubtype: Selector)

  /** `check`. Entries read by key presence are options; entries read by
      truthiness are booleans (true when present and truthy). */
  datatype Check = Check(
    hasField: Option<string>,
    hasProperty: Option<string>,
    tagMatchesPattern: Option<string>,
    downstreamNode: Option<HopCheck>,
    upstreamNode: Option<HopCheck>,
    hasAtLeastOneEdge: bool,
    hasBypass: bool,
    connectedInstrument: bool,
    connectedNode: Option<NeighbourCheck>,
    lineNumberMatchesPattern: Option<string>,
    equipmentTagsUnique: bool,
    lineNumbersUnique: bool,
    nodeCountMin: Option<int>,
    diagramTypeNot: Selector)

  const NoChecks := Check(None, None, None, None, None, false, false, false, None, None, false, false, None, Missing)

  const NoFilter := Where(Missing, Missing, map[])

  /** A decoded condition. `scope` is the raw `match` value. */
  datatype Condition = Condition(scope: Json, filter: Where, checks: Check)

  /** `condition_json` as stored on the rule: an already decoded object, a JSON
      text (with the outcome of decoding it, None for a decode error), or a
      value of any other kind. */
  datatype ConditionSource = Decoded(c: Condition) | JsonText(parsed: Option<Condition>) | OtherSource

  datatype Rule = Rule(code: string, severity: Option<string>, messageTemplate: Option<string>, condition: ConditionSource)

  datatype Violation = Violation(ruleCode: string, severity: string, message: string, nodeId: Option<string>, edgeId: Option<string>)

  datatype Report = Report(passed: bool, errorCount: nat, warningCount: nat, violations: seq<Violation>)

  /** The condition the validator works with, or None when the rule is skipped
      for an undecodable or non-object condition. */
  function ConditionOf(r: Rule): (c: Option<Condition>)
    ensures r.condition.OtherSource? ==> c.None?
    ensures r.condition.JsonText? && r.condition.parsed.None? ==> c.None?
  {
    match r.condition
    case Decoded(c) => Some(c)
    case JsonText(p) => p
    case OtherSource => None
  }

  /** `rule.severity or "error"` */
  function SeverityOf(r: Rule): (s: string)
    ensures s != ""
    ensures r.severity.Some? && r.severity.value != "" ==> s == r.severity.value
  {
    match r.severity
    case Some(s) => if s != "" then s else "error"
    case None => "error"
  }

  /** `rule.message_template or f"Rule {code} failed"` */
  function TemplateOf(r: Rule): (t: string)
    ensures t != ""
    ensures r.messageTemplate.Some? && r.messageTemplate.value != "" ==> t == r.messageTemplate.value
  {
    match r.messageTemplate
    case Some(t) => if t != "" then t else "Rule " + r.code + " failed"
    case None => "Rule " + r.code + " failed"
  }

  /** `tag or "Unknown"` */
  function TagOrUnknown(tag: string): (s: string)
    ensures s != ""
  {
    if tag != "" then tag else "Unknown"
  }

  /** `value or "Unknown"` for an optional string. */
  function OrUnknown(v: Option<string>): (s: string)
    ensures s != ""
  {
    match v
    case Some(s) => if s != "" then s else "Unknown"
    case None => "Unknown"
  }

  /** `not v or v.strip() == ""` for an optional string. */
  predicate IsBlankOpt(v: Option<string>) {
    v.None? || IsBlank(v.value)
  }

  // ---------------------------------------------------------------------------
  // The report
  // ---------------------------------------------------------------------------

  function SeverityCount(vs: seq<Violation>, sev: string): (n: nat)
    ensures n <= |vs|
  {
    if vs == [] then 0 else (if vs[0].severity == sev then 1 else 0) + SeverityCount(vs[1..], sev)
  }

  lemma {:induction false} SeverityCountZero(vs: seq<Violation>, sev: string)
    ensures SeverityCount(vs, sev) == 0 <==> forall i :: 0 <= i < |vs| ==> vs[i].severity != sev
  {
    if vs != [] {
      SeverityCountZero(vs[1..], sev);
      assert forall i :: 1 <= i < |vs| ==> vs[i] == vs[1..][i - 1];
    }
  }

  lemma {:induction false} SeverityCountsBounded(vs: seq<Violation>)
    ensures SeverityCount(vs, "error") + SeverityCount(vs, "warning") <= |vs|
  {
    if vs != [] {
      SeverityCountsBounded(vs[1..]);
    }
  }

  /** The report over a list of violations: errors and warnings are tallied,
      other severities (such as "info") in neither, and the diagram passes
      exactly when no violation is an error. */
  function MakeReport(vs: seq<Violation>): (r: Report)
    ensures r.violations == vs
    ensures r.passed <==> forall i :: 0 <= i < |vs| ==> vs[i].severity != "error"
    ensures r.passed <==> r.errorCount == 0
    ensures r.errorCount + r.warningCount <= |vs|
  {
    SeverityCountZero(vs, "error");
    SeverityCountsBounded(vs);
    var errors := SeverityCount(vs, "error");
    Report(errors == 0, errors, SeverityCount(vs, "warning"), vs)
  }

  lemma {:induction false} SeverityCountAppend(a: seq<Violation>, b: seq<Violation>, sev: string)
    ensures SeverityCount(a + b, sev) == SeverityCount(a, sev) + SeverityCount(b, sev)
  {
    if a == [] {
      assert a + b == b;
    } else {
      assert (a + b)[1..] == a[1..] + b;
      SeverityCountAppend(a[1..], b, sev);
    }
  }

  /** Violations of severity "info" (or any other than error and warning) change neither tally. */
  lemma ReportIgnoresOtherSeverities(vs: seq<Violation>, v: Violation)
    requires v.severity != "error" && v.severity != "warning"
    ensures MakeReport(vs + [v]).errorCount == MakeReport(vs).errorCount
    ensures MakeReport(vs + [v]).warningCount == MakeReport(vs).warningCount
    ensures MakeReport(vs + [v]).passed == MakeReport(vs).passed
  {
    SeverityCountAppend(vs, [v], "error");
    SeverityCountAppend(vs, [v], "warning");
  }
}

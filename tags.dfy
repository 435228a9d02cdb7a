/** Sequential numbering: the next equipment tag for a prefix (`P-101`,
    `P-102`, … → `P-103`), in the server's and the web client's versions, the
    client's tag prefix table, and the next pipe line number
    (`2"-P-104-A1B` after `…-103-…`). */
module Tags {
  import opened Text
  import Seqs
  import opened Canonical

  // ---------------------------------------------------------------------------
  // str.replace over a tag
  // ---------------------------------------------------------------------------

  /** Replacing starts with the occurrence at the front. */
  lemma ReplaceAllFront(pat: string, s: string, rep: string)
    requires |pat| > 0
    ensures ReplaceAll(pat + s, pat, rep) == rep + ReplaceAll(s, pat, rep)
  {
    var t := pat + s;
    assert t[..|pat|] == pat;
    assert t[|pat|..] == s;
  }

  /** A text lacking one of the pattern's characters holds no occurrence and is left as it is. */
  lemma {:induction false} ReplaceAllAbsent(s: string, pat: string, rep: string, c: char)
    requires |pat| > 0 && c in pat && c !in s
    ensures ReplaceAll(s, pat, rep) == s
    decreases |s|
  {
    if |s| >= |pat| {
      assert s[..|pat|] != pat by {
        var k :| 0 <= k < |pat| && pat[k] == c;
        assert s[k] != c;
      }
      ReplaceAllAbsent(s[1..], pat, rep, c);
      assert [s[0]] + s[1..] == s;
    }
  }

  lemma DigitsHaveNoDash(s: string)
    requires IsAllDigits(s)
    ensures '-' !in s
  {
    forall k | 0 <= k < |s| ensures s[k] != '-' {
      assert IsDigit(s[k]);
    }
  }

  // ---------------------------------------------------------------------------
  // generate_sequential_tag (server)
  // ---------------------------------------------------------------------------

  /** The number a tag carries for a prefix: for a non-empty tag starting
      `prefix-`, `int()` of the tag with every `prefix-` removed; None when the
      tag is not of that prefix or `int()` raises ValueError. */
  function TagNumber(tag: string, prefix: string): (r: Option<int>)
    ensures r.Some? ==> tag != [] && StartsWith(tag, prefix + "-")
  {
    if tag != "" && StartsWith(tag, prefix + "-") then ParsePyInt(ReplaceAll(tag, prefix + "-", ""))
    else None
  }

  /** The numbers the tags of the nodes carry, in node order. */
  function TagNumbers(nodes: seq<Node>, prefix: string): (nums: seq<Option<int>>)
    ensures |nums| == |nodes|
  {
    if nodes == [] then [] else [TagNumber(nodes[0].tag, prefix)] + TagNumbers(nodes[1..], prefix)
  }

  lemma {:induction false} TagNumbersAt(nodes: seq<Node>, prefix: string, i: nat)
    requires i < |nodes|
    ensures TagNumbers(nodes, prefix)[i] == TagNumber(nodes[i].tag, prefix)
  {
    if i > 0 {
      TagNumbersAt(nodes[1..], prefix, i - 1);
    }
  }

  /** The running maximum of the loop, starting at 100, over the numbers read
      so far (None for a tag that is skipped). */
  function RunningMax(nums: seq<Option<int>>): (m: int)
    ensures m >= 100
  {
    if nums == [] then 100
    else
      var m := RunningMax(nums[..|nums| - 1]);
      match nums[|nums| - 1]
      case Some(num) => if num > m then num else m
      case None => m
  }

  /** No number read exceeds the running maximum. */
  lemma {:induction false} RunningMaxBound(nums: seq<Option<int>>, i: nat)
    requires i < |nums| && nums[i].Some?
    ensures nums[i].value <= RunningMax(nums)
  {
    if i < |nums| - 1 {
      var init := nums[..|nums| - 1];
      assert init[i] == nums[i];
      RunningMaxBound(init, i);
    }
  }

  /** The running maximum is the starting 100 or one of the numbers read. */
  lemma {:induction false} RunningMaxAttained(nums: seq<Option<int>>)
    ensures RunningMax(nums) == 100 || exists i :: 0 <= i < |nums| && nums[i] == Some(RunningMax(nums))
  {
    if nums != [] {
      var init := nums[..|nums| - 1];
      RunningMaxAttained(init);
      if RunningMax(nums) != RunningMax(init) {
        assert nums[|nums| - 1] == Some(RunningMax(nums));
      } else if RunningMax(init) != 100 {
        var i :| 0 <= i < |init| && init[i] == Some(RunningMax(init));
        assert nums[i] == init[i];
      }
    }
  }

  /** `f"{prefix}-{max_num + 1}"` */
  function SequentialTag(nodes: seq<Node>, prefix: string): string {
    prefix + "-" + NatToString(RunningMax(TagNumbers(nodes, prefix)) + 1)
  }

  /** `generate_sequential_tag` / `_generate_sequential_tag`: scans the nodes
      without changing them. */
  method GenerateSequentialTag(nodes: seq<Node>, prefix: string) returns (tag: string)
    ensures tag == SequentialTag(nodes, prefix)
  {
    var maxNum := 100;
    ghost var nums := TagNumbers(nodes, prefix);
    for i := 0 to |nodes|
      invariant maxNum == RunningMax(nums[..i])
    {
      assert nums[..i + 1][..i] == nums[..i];
      TagNumbersAt(nodes, prefix, i);
      var num := TagNumber(nodes[i].tag, prefix);
      if num.Some? {
        maxNum := if maxNum >= num.value then maxNum else num.value;
      }
    }
    assert nums[..|nodes|] == nums;
    tag := prefix + "-" + NatToString(maxNum + 1);
  }

  /** A generated tag carries exactly the number it was generated with. */
  lemma TagNumberOfGenerated(prefix: string, n: nat)
    ensures TagNumber(prefix + "-" + NatToString(n), prefix) == Some(n)
  {
    var pat := prefix + "-";
    var digits := NatToString(n);
    assert prefix + "-" + digits == pat + digits;
    assert StartsWith(pat + digits, pat) by { assert (pat + digits)[..|pat|] == pat; }
    ReplaceAllFront(pat, digits, "");
    DigitsHaveNoDash(digits);
    ReplaceAllAbsent(digits, pat, "", '-');
    assert "" + digits == digits;
    ParsePyIntOfNat(n);
  }

  lemma {:induction false} TagNumbersAppend(a: seq<Node>, b: seq<Node>, prefix: string)
    ensures TagNumbers(a + b, prefix) == TagNumbers(a, prefix) + TagNumbers(b, prefix)
  {
    if a == [] {
      assert a + b == b;
    } else {
      assert (a + b)[1..] == a[1..] + b;
      TagNumbersAppend(a[1..], b, prefix);
    }
  }

  /** The generated tag is read back with its number, which exceeds every
      parsable number of that prefix and is at least 101. */
  lemma SequentialTagIsNew(nodes: seq<Node>, prefix: string)
    ensures TagNumber(SequentialTag(nodes, prefix), prefix) == Some(RunningMax(TagNumbers(nodes, prefix)) + 1)
    ensures RunningMax(TagNumbers(nodes, prefix)) + 1 >= 101
  {
    TagAfterMax(TagNumbers(nodes, prefix), prefix);
  }

  lemma TagAfterMax(nums: seq<Option<int>>, prefix: string)
    ensures TagNumber(prefix + "-" + NatToString(RunningMax(nums) + 1), prefix) == Some(RunningMax(nums) + 1)
  {
    TagNumberOfGenerated(prefix, RunningMax(nums) + 1);
  }

  /** No node carries the generated tag. */
  lemma SequentialTagNotTaken(nodes: seq<Node>, prefix: string, i: nat)
    requires i < |nodes|
    ensures nodes[i].tag != SequentialTag(nodes, prefix)
  {
    SequentialTagIsNew(nodes, prefix);
    TagNumbersAt(nodes, prefix, i);
    if TagNumber(nodes[i].tag, prefix).Some? {
      RunningMaxBound(TagNumbers(nodes, prefix), i);
    }
  }

  /** Without any tag of the prefix the sequence starts at 101. */
  lemma FirstSequentialTag(nodes: seq<Node>, prefix: string)
    requires forall i :: 0 <= i < |nodes| ==> !StartsWith(nodes[i].tag, prefix + "-")
    ensures SequentialTag(nodes, prefix) == prefix + "-101"
  {
    var nums := TagNumbers(nodes, prefix);
    forall i | 0 <= i < |nums| ensures nums[i].None? {
      TagNumbersAt(nodes, prefix, i);
    }
    RunningMaxAttained(nums);
    assert NatToString(101) == "101";
  }

  /** Appending one past the running maximum makes it the new maximum. */
  lemma RunningMaxNext(nums: seq<Option<int>>, m: int)
    requires RunningMax(nums) + 1 == m
    ensures RunningMax(nums + [Some(m)]) == m
  {
    assert (nums + [Some(m)])[..|nums|] == nums;
  }

  /** Appending the node that carries the generated tag moves the number on by one. */
  lemma SequentialTagNext(nodes: seq<Node>, n: Node, prefix: string)
    requires n.tag == SequentialTag(nodes, prefix)
    ensures RunningMax(TagNumbers(nodes + [n], prefix)) == RunningMax(TagNumbers(nodes, prefix)) + 1
  {
    var m := RunningMax(TagNumbers(nodes, prefix)) + 1;
    TagNumbersAppend(nodes, [n], prefix);
    TagNumberOfGenerated(prefix, m);
    assert TagNumbers([n], prefix) == [Some(m)];
    RunningMaxNext(TagNumbers(nodes, prefix), m);
  }

  /** Tags of two different dash-free prefixes never look like each other's. */
  lemma PrefixesApart(p: string, q: string, digits: string)
    requires '-' !in p && '-' !in q && p != q
    ensures !StartsWith(q + "-" + digits, p + "-")
  {
    var s := q + "-" + digits;
    var pre := p + "-";
    if |pre| <= |s| {
      var k: nat;
      if |p| < |q| {
        k := |p|;
        assert s[k] == q[k] != '-' == pre[k];
      } else if |p| == |q| {
        k :| k < |p| && p[k] != q[k];
        assert s[k] == q[k] && pre[k] == p[k];
      } else {
        k := |q|;
        assert s[k] == '-' != p[k] == pre[k];
      }
      assert s[..|pre|][k] != pre[k];
    }
  }

  /** A node whose tag does not parse leaves the result as it was. */
  lemma UnparsableTagIgnored(nodes: seq<Node>, n: Node, prefix: string)
    requires TagNumber(n.tag, prefix).None?
    ensures RunningMax(TagNumbers(nodes + [n], prefix)) == RunningMax(TagNumbers(nodes, prefix))
    ensures SequentialTag(nodes + [n], prefix) == SequentialTag(nodes, prefix)
  {
    TagNumbersAppend(nodes, [n], prefix);
    var nums := TagNumbers(nodes + [n], prefix);
    assert nums[..|nodes|] == TagNumbers(nodes, prefix);
    assert nums[|nodes|] == TagNumber(n.tag, prefix);
  }

  /** With P-101 and P-102 in the diagram, prefix "P" gives "P-103". */
  lemma SequentialTagExample(a: Node, b: Node)
    requires a.tag == "P-101" && b.tag == "P-102"
    ensures SequentialTag([a, b], "P") == "P-103"
  {
    assert NatToString(101) == "101" && NatToString(102) == "102" && NatToString(103) == "103";
    assert a.tag == "P" + "-" + NatToString(101);
    assert b.tag == "P" + "-" + NatToString(102);
    TagNumberOfGenerated("P", 101);
    TagNumberOfGenerated("P", 102);
    var nums := TagNumbers([a, b], "P");
    assert [a, b][1..] == [b];
    assert TagNumbers([b], "P") == [Some(102)] + TagNumbers([], "P");
    assert nums == [Some(101)] + TagNumbers([b], "P");
    assert nums == [Some(101), Some(102)];
    assert nums[..1] == [Some(101)];
    assert nums[..1][..0] == [];
    assert RunningMax(nums[..1]) == 101;
    assert RunningMax(nums) == 102;
  }

  // ---------------------------------------------------------------------------
  // generateTag (web client)
  // ---------------------------------------------------------------------------

  /** The number a tag carries in the client: for a non-empty tag starting
      `prefix-`, `parseInt` of what follows `prefix-`; None stands for NaN. */
  function ClientTagNumber(tag: string, prefix: string): (r: Option<int>)
    ensures r.Some? ==> StartsWith(tag, prefix + "-")
  {
    if tag != "" && StartsWith(tag, prefix + "-") then ParseJsInt(tag[|prefix| + 1..]) else None
  }

  /** The numbers the client reads from the tags, in order. */
  function ClientNumbers(tags: seq<string>, prefix: string): (nums: seq<Option<int>>)
    ensures |nums| == |tags|
  {
    if tags == [] then [] else [ClientTagNumber(tags[0], prefix)] + ClientNumbers(tags[1..], prefix)
  }

  lemma {:induction false} ClientNumbersAt(tags: seq<string>, prefix: string, i: nat)
    requires i < |tags|
    ensures ClientNumbers(tags, prefix)[i] == ClientTagNumber(tags[i], prefix)
  {
    if i > 0 {
      ClientNumbersAt(tags[1..], prefix, i - 1);
    }
  }

  /** `${prefix}-${maxNumber + 1}` over the tags read from the nodes. */
  function ClientTag(tags: seq<string>, prefix: string): string {
    prefix + "-" + NatToString(RunningMax(ClientNumbers(tags, prefix)) + 1)
  }

  function CanonicalTags(nodes: seq<Node>): (tags: seq<string>)
    ensures |tags| == |nodes| && forall i :: 0 <= i < |nodes| ==> tags[i] == nodes[i].tag
  {
    seq(|nodes|, i requires 0 <= i < |nodes| => nodes[i].tag)
  }

  /** `generateTag` over canonical nodes (domain/services/tag-service.ts). The
      prefix is the value `getTagPrefix(equipmentClass)` gives; that module is
      not part of this model. */
  method GenerateTag(prefix: string, nodes: seq<Node>) returns (tag: string)
    ensures tag == ClientTag(CanonicalTags(nodes), prefix)
  {
    var maxNumber := 100;
    ghost var nums := ClientNumbers(CanonicalTags(nodes), prefix);
    for i := 0 to |nodes|
      invariant maxNumber == RunningMax(nums[..i])
    {
      assert nums[..i + 1][..i] == nums[..i];
      ClientNumbersAt(CanonicalTags(nodes), prefix, i);
      var t := nodes[i].tag;
      if t != "" && StartsWith(t, prefix + "-") {
        var num := ParseJsInt(t[|prefix| + 1..]);
        if num.Some? && num.value > maxNumber {
          maxNumber := num.value;
        }
      }
    }
    assert nums[..|nodes|] == nums;
    tag := prefix + "-" + NatToString(maxNumber + 1);
  }

  /** A value in a ReactFlow node's `data`: a string, or anything else (with its truthiness). */
  datatype JsValue = JsStr(s: string) | JsOther(truthy: bool)

  predicate JsTruthy(v: Option<JsValue>) {
    match v
    case None => false
    case Some(JsStr(s)) => s != ""
    case Some(JsOther(t)) => t
  }

  /** The `tag` and `label` entries of a ReactFlow node's `data`. */
  datatype TagData = TagData(tag: Option<JsValue>, labelValue: Option<JsValue>)

  /** `node.data?.tag || node.data?.label`, kept only when it is a string
      (utils/tagGenerator.ts); "" stands for anything else. */
  function TagOfData(data: Option<TagData>): (t: string)
    ensures data.Some? && data.value.tag.Some? && data.value.tag.value.JsStr? && data.value.tag.value.s != "" ==>
              t == data.value.tag.value.s
  {
    match data
    case None => ""
    case Some(d) =>
      var v := if JsTruthy(d.tag) then d.tag else d.labelValue;
      match v
      case Some(JsStr(s)) => s
      case _ => ""
  }

  function DataTags(nodes: seq<Option<TagData>>): (tags: seq<string>)
    ensures |tags| == |nodes| && forall i :: 0 <= i < |nodes| ==> tags[i] == TagOfData(nodes[i])
  {
    seq(|nodes|, i requires 0 <= i < |nodes| => TagOfData(nodes[i]))
  }

  /** `generateTag` over ReactFlow nodes (utils/tagGenerator.ts). */
  method GenerateTagFromData(prefix: string, nodes: seq<Option<TagData>>) returns (tag: string)
    ensures tag == ClientTag(DataTags(nodes), prefix)
  {
    var maxNumber := 100;
    ghost var nums := ClientNumbers(DataTags(nodes), prefix);
    for i := 0 to |nodes|
      invariant maxNumber == RunningMax(nums[..i])
    {
      assert nums[..i + 1][..i] == nums[..i];
      ClientNumbersAt(DataTags(nodes), prefix, i);
      var t := TagOfData(nodes[i]);
      if t != "" && StartsWith(t, prefix + "-") {
        var num := ParseJsInt(t[|prefix| + 1..]);
        if num.Some? && num.value > maxNumber {
          maxNumber := num.value;
        }
      }
    }
    assert nums[..|nodes|] == nums;
    tag := prefix + "-" + NatToString(maxNumber + 1);
  }

  lemma {:induction false} ClientNumbersAppend(a: seq<string>, b: seq<string>, prefix: string)
    ensures ClientNumbers(a + b, prefix) == ClientNumbers(a, prefix) + ClientNumbers(b, prefix)
  {
    if a == [] {
      assert a + b == b;
    } else {
      assert (a + b)[1..] == a[1..] + b;
      ClientNumbersAppend(a[1..], b, prefix);
    }
  }

  /** The client's generated tag is read back with its own number, which
      exceeds every number read. */
  lemma ClientTagIsNew(tags: seq<string>, prefix: string)
    ensures ClientTagNumber(ClientTag(tags, prefix), prefix) == Some(RunningMax(ClientNumbers(tags, prefix)) + 1)
  {
    ClientAfterMax(ClientNumbers(tags, prefix), prefix);
  }

  /** The client's next tag reads back as one past the maximum it was built from. */
  lemma ClientAfterMax(nums: seq<Option<int>>, prefix: string)
    ensures ClientTagNumber(prefix + "-" + NatToString(RunningMax(nums) + 1), prefix) == Some(RunningMax(nums) + 1)
  {
    ClientReadsBack(prefix, RunningMax(nums) + 1);
  }

  /** The client reads a tag `prefix-n` back as n. */
  lemma ClientReadsBack(prefix: string, n: nat)
    ensures ClientTagNumber(prefix + "-" + NatToString(n), prefix) == Some(n)
  {
    var pat := prefix + "-";
    var digits := NatToString(n);
    var t := prefix + "-" + digits;
    assert t == pat + digits;
    assert t[..|pat|] == pat;
    assert t[|prefix| + 1..] == digits + "";
    ParseJsIntOfNat(n, "");
  }

  /** No tag read from the nodes equals the client's generated tag. */
  lemma ClientTagNotTaken(tags: seq<string>, prefix: string, i: nat)
    requires i < |tags|
    ensures tags[i] != ClientTag(tags, prefix)
  {
    ClientTagIsNew(tags, prefix);
    ClientNumbersAt(tags, prefix, i);
    if ClientTagNumber(tags[i], prefix).Some? {
      RunningMaxBound(ClientNumbers(tags, prefix), i);
    }
  }

  /** Numbers of at most 100 never change the client's result. */
  lemma ClientSmallNumbersIgnored(tags: seq<string>, t: string, prefix: string)
    requires ClientTagNumber(t, prefix).None? || ClientTagNumber(t, prefix).value <= 100
    ensures ClientTag(tags + [t], prefix) == ClientTag(tags, prefix)
  {
    ClientNumbersAppend(tags, [t], prefix);
    var nums := ClientNumbers(tags + [t], prefix);
    assert nums[..|tags|] == ClientNumbers(tags, prefix);
  }

  /** parseInt reads the leading digits, so "P-120a" counts as 120 and gives "P-121". */
  lemma ClientTagLeadingDigits()
    ensures ClientTagNumber("P-120a", "P") == Some(120)
    ensures ClientTag(["P-120a"], "P") == "P-121"
  {
    ReadsLeadingDigits();
    var nums := ClientNumbers(["P-120a"], "P");
    assert ClientNumbers(["P-120a"][1..], "P") == [];
    assert nums == [ClientTagNumber("P-120a", "P")] + ClientNumbers(["P-120a"][1..], "P");
    assert nums == [Some(120)];
    assert nums[..0] == [];
    assert NatToString(121) == "121";
  }

  lemma ReadsLeadingDigits()
    ensures ClientTagNumber("P-120a", "P") == Some(120)
  {
    assert StartsWith("P-120a", "P" + "-") by {
      assert "P-120a"[..2] == "P-";
    }
    assert "P-120a"[2..] == "120" + "a";
    ParseJsIntOfDigits("120", "a");
    assert "120"[..2] == "12" && "12"[..1] == "1" && "1"[..0] == "";
    assert DigitsValue("1") == 1;
    assert DigitsValue("12") == 12;
    assert DigitsValue("120") == 120;
  }

  /** Without nodes the client starts at 101. */
  lemma ClientFirstTag(prefix: string)
    ensures ClientTag([], prefix) == prefix + "-101"
  {
    assert NatToString(101) == "101";
  }

  /** A label stands in for a missing or empty tag; a non-string is never read. */
  lemma TagFallsBackToLabel(text: string)
    ensures TagOfData(Some(TagData(None, Some(JsStr(text))))) == text
    ensures TagOfData(Some(TagData(Some(JsStr("")), Some(JsStr(text))))) == text
    ensures TagOfData(Some(TagData(Some(JsOther(true)), Some(JsStr(text))))) == ""
  {
  }

  // ---------------------------------------------------------------------------
  // TAG_PREFIX_MAP / getTagPrefix
  // ---------------------------------------------------------------------------

  const TagPrefixMap: map<string, string> := map[
    "centrifugal_pump" := "P", "reciprocating_pump" := "P", "metering_pump" := "P",
    "vessel_vertical" := "V", "vessel_horizontal" := "V", "vessel" := "V",
    "heat_exchanger" := "E", "reactor" := "R", "tank" := "TK", "column" := "C",
    "compressor" := "K", "blower" := "K", "filter" := "F", "dryer" := "D",
    "mixer" := "M", "conveyor" := "CV",
    "gate_valve" := "XV", "globe_valve" := "XV", "check_valve" := "XV", "ball_valve" := "XV",
    "butterfly_valve" := "XV", "safety_valve" := "XV", "three_way_valve" := "XV",
    "needle_valve" := "XV", "control_valve" := "CV",
    "field_mounted" := "I", "panel_mounted" := "I", "dcs_shared" := "I", "plc_mounted" := "I"]

  const ValveClasses: set<string> := {"gate_valve", "globe_valve", "check_valve", "ball_valve",
    "butterfly_valve", "safety_valve", "three_way_valve", "needle_valve", "control_valve"}

  /** `TAG_PREFIX_MAP[equipmentClass] || 'EQ'` */
  function TagPrefix(equipmentClass: string): (p: string)
    ensures p != ""
    ensures equipmentClass !in TagPrefixMap ==> p == "EQ"
  {
    if equipmentClass in TagPrefixMap && TagPrefixMap[equipmentClass] != "" then TagPrefixMap[equipmentClass]
    else "EQ"
  }

  /** Pumps share "P"; every valve but the control valve is "XV"; instruments are "I". */
  lemma TagPrefixFamilies(c: string)
    ensures c in {"centrifugal_pump", "reciprocating_pump", "metering_pump"} ==> TagPrefix(c) == "P"
    ensures c in ValveClasses ==> (TagPrefix(c) == "CV" <==> c == "control_valve")
    ensures c in ValveClasses && c != "control_valve" ==> TagPrefix(c) == "XV"
    ensures c in {"field_mounted", "panel_mounted", "dcs_shared", "plc_mounted"} ==> TagPrefix(c) == "I"
  {
  }

  /** Two classes share a prefix: conveyors and control valves both give "CV". */
  lemma TagPrefixNotInjective()
    ensures TagPrefix("conveyor") == TagPrefix("control_valve") == "CV"
  {
  }

  // ---------------------------------------------------------------------------
  // _next_line_number
  // ---------------------------------------------------------------------------

  /** The sequence number a line number carries: for a non-empty line number
      with at least three dash-separated parts, the second-to-last part when it
      is all digits. */
  function LineSeq(lineNumber: Option<string>): (r: Option<nat>)
  {
    match lineNumber
    case None => None
    case Some(ln) =>
      if ln == "" then None
      else
        var parts := Split(ln, '-');
        if |parts| >= 3 && IsAllDigits(parts[|parts| - 2]) then Some(DigitsValue(parts[|parts| - 2]))
        else None
  }

  /** `existing_seqs` after the loop over the given edges. */
  function ExistingSeqs(edges: seq<Edge>): (r: seq<nat>)
  {
    if edges == [] then []
    else
      ExistingSeqs(edges[..|edges| - 1]) +
      match LineSeq(edges[|edges| - 1].lineNumber)
      case Some(s) => [s]
      case None => []
  }

  /** The list holds the sequence number of each numbered edge, and nothing else. */
  lemma {:induction false} ExistingSeqsMembers(edges: seq<Edge>)
    ensures forall i :: 0 <= i < |edges| && LineSeq(edges[i].lineNumber).Some? ==>
              LineSeq(edges[i].lineNumber).value in ExistingSeqs(edges)
    ensures forall x :: x in ExistingSeqs(edges) ==>
              exists i :: 0 <= i < |edges| && LineSeq(edges[i].lineNumber) == Some(x)
    ensures (forall i :: 0 <= i < |edges| ==> LineSeq(edges[i].lineNumber).None?) ==> ExistingSeqs(edges) == []
  {
    if edges != [] {
      var init := edges[..|edges| - 1];
      ExistingSeqsMembers(init);
      assert forall i :: 0 <= i < |init| ==> init[i] == edges[i];
    }
  }

  /** `max(existing_seqs, default=100) + 1` */
  function NextSeq(edges: seq<Edge>): (n: nat)
  {
    var seqs: seq<int> := ExistingSeqs(edges);
    var m := Seqs.MaxOr(seqs, 100);
    assert m >= 0 by { if seqs != [] { assert m in seqs; } }
    m + 1
  }

  /** `f'{size}-{fluid}-{seq:03d}-{cls}'` */
  function NextLineNumber(edges: seq<Edge>, fluid: string, size: string, cls: string): string {
    size + "-" + fluid + "-" + Pad3(NextSeq(edges)) + "-" + cls
  }

  /** `_next_line_number`, accumulating the existing sequence numbers in a list. */
  method ComputeNextLineNumber(edges: seq<Edge>, fluid: string, size: string, cls: string)
    returns (lineNumber: string)
    ensures lineNumber == NextLineNumber(edges, fluid, size, cls)
  {
    var existing: seq<nat> := [];
    for i := 0 to |edges|
      invariant existing == ExistingSeqs(edges[..i])
    {
      assert edges[..i + 1][..i] == edges[..i];
      var ln := edges[i].lineNumber;
      if ln.Some? && ln.value != "" {
        var parts := Split(ln.value, '-');
        if |parts| >= 3 && IsAllDigits(parts[|parts| - 2]) {
          existing := existing + [DigitsValue(parts[|parts| - 2])];
        }
      }
    }
    assert edges[..|edges|] == edges;
    var m := Seqs.MaxOr(existing, 100);
    assert m >= 0 by { if existing != [] { assert m in existing; } }
    lineNumber := size + "-" + fluid + "-" + Pad3(m + 1) + "-" + cls;
  }

  /** The new sequence number exceeds every existing one; without any it is 101. */
  lemma NextSeqExceeds(edges: seq<Edge>)
    ensures forall i :: 0 <= i < |edges| && LineSeq(edges[i].lineNumber).Some? ==>
              LineSeq(edges[i].lineNumber).value < NextSeq(edges)
    ensures (forall i :: 0 <= i < |edges| ==> LineSeq(edges[i].lineNumber).None?) ==> NextSeq(edges) == 101
  {
    ExistingSeqsMembers(edges);
  }

  /** The generated line number is read back with the new sequence number when
      its size, fluid and class hold no dash, so it is a line number no edge carries. */
  lemma NextLineNumberIsNew(edges: seq<Edge>, fluid: string, size: string, cls: string)
    requires '-' !in size && '-' !in fluid && '-' !in cls
    ensures LineSeq(Some(NextLineNumber(edges, fluid, size, cls))) == Some(NextSeq(edges))
    ensures forall i :: 0 <= i < |edges| ==> edges[i].lineNumber != Some(NextLineNumber(edges, fluid, size, cls))
  {
    var p := Pad3(NextSeq(edges));
    DigitsHaveNoDash(p);
    var ln := NextLineNumber(edges, fluid, size, cls);
    assert ln == size + ['-'] + (fluid + ['-'] + (p + ['-'] + cls));
    SplitConcat(size, '-', fluid + ['-'] + (p + ['-'] + cls));
    SplitConcat(fluid, '-', p + ['-'] + cls);
    SplitConcat(p, '-', cls);
    SplitNoSep(cls, '-');
    assert Split(ln, '-') == [size, fluid, p, cls];
    Pad3Value(NextSeq(edges));
    NextSeqExceeds(edges);
  }

  /** Appending an edge that carries the generated line number moves the sequence on by one. */
  lemma NextSeqAfter(edges: seq<Edge>, e: Edge, fluid: string, size: string, cls: string)
    requires '-' !in size && '-' !in fluid && '-' !in cls
    requires e.lineNumber == Some(NextLineNumber(edges, fluid, size, cls))
    ensures NextSeq(edges + [e]) == NextSeq(edges) + 1
  {
    NextLineNumberIsNew(edges, fluid, size, cls);
    var all := edges + [e];
    assert all[..|all| - 1] == edges;
    var s: seq<int> := ExistingSeqs(edges);
    var n := NextSeq(edges);
    assert ExistingSeqs(all) == ExistingSeqs(edges) + [n];
    var m := Seqs.MaxOr(s + [n], 100);
    assert n in s + [n];
    assert m in s + [n];
    assert m !in s by {
      assert forall x :: x in s ==> x <= Seqs.MaxOr(s, 100);
    }
  }

  /** With no numbered edge the first line number is `2"-P-101-A1B`. */
  lemma FirstLineNumber()
    ensures NextLineNumber([], "P", "2\"", "A1B") == "2\"-P-101-A1B"
  {
    assert NatToString(101) == "101";
  }
}

/**
 * Tool descriptions for the MCP tool list: a builder that collects a
 * summary, a usage guide, constraints, error hints, examples and security
 * notes, renders them as a Markdown prompt (full or compact), and wraps
 * the result into a tool definition.
 */
module PromptBuilder {
  import opened Wrappers
  import opened Strs
  import opened Json

  datatype ToolExample = ToolExample(title: string, description: string, input: Json, expectedOutput: string)

  /**
   * The builder's state. `with_*` take the builder by value and return
   * it, so each is a functional update here.
   */
  datatype ToolDescription = ToolDescription(
    summary: string,
    usageGuide: string,
    constraints: seq<string>,
    errorHints: map<string, string>,
    examples: seq<ToolExample>,
    securityNotes: seq<string>)

  function New(summary: string): ToolDescription {
    ToolDescription(summary, "", [], map[], [], [])
  }

  function WithUsageGuide(d: ToolDescription, guide: string): ToolDescription {
    d.(usageGuide := guide)
  }

  function WithConstraint(d: ToolDescription, constraint: string): ToolDescription {
    d.(constraints := d.constraints + [constraint])
  }

  function WithErrorHint(d: ToolDescription, errorType: string, hint: string): ToolDescription {
    d.(errorHints := d.errorHints[errorType := hint])
  }

  function WithExample(d: ToolDescription, example: ToolExample): ToolDescription {
    d.(examples := d.examples + [example])
  }

  function WithSecurityNote(d: ToolDescription, note: string): ToolDescription {
    d.(securityNotes := d.securityNotes + [note])
  }

  /** A fresh builder holds only its summary, and its prompt is exactly that summary. */
  lemma NewIsEmpty(summary: string)
    ensures var d := New(summary);
      d.summary == summary && d.usageGuide == "" && d.constraints == [] && |d.errorHints| == 0
      && d.examples == [] && d.securityNotes == []
    ensures PromptOf(New(summary), [], j => "") == summary
    ensures CompactOf(New(summary)) == summary
  {
  }

  /** Constraints added one after another, in order. */
  function AddConstraints(d: ToolDescription, cs: seq<string>): ToolDescription {
    if |cs| == 0 then d else WithConstraint(AddConstraints(d, cs[..|cs| - 1]), cs[|cs| - 1])
  }

  /** Chained `with_constraint` calls append at the end, in call order, and touch nothing else. */
  lemma {:induction false} ConstraintsKeepOrder(d: ToolDescription, cs: seq<string>)
    ensures AddConstraints(d, cs) == d.(constraints := d.constraints + cs)
  {
    if |cs| > 0 {
      ConstraintsKeepOrder(d, cs[..|cs| - 1]);
      assert d.constraints + cs[..|cs| - 1] + [cs[|cs| - 1]] == d.constraints + cs;
    }
  }

  /** Security notes and examples are appended the same way; earlier entries keep their places. */
  lemma AppendsKeepEarlier(d: ToolDescription, note: string, example: ToolExample)
    ensures var n := WithSecurityNote(d, note).securityNotes;
      |n| == |d.securityNotes| + 1 && n[..|d.securityNotes|] == d.securityNotes && n[|d.securityNotes|] == note
    ensures var e := WithExample(d, example).examples;
      |e| == |d.examples| + 1 && e[..|d.examples|] == d.examples && e[|d.examples|] == example
  {
  }

  /**
   * `with_error_hint` inserts a new key or overwrites an existing one:
   * the key then maps to the new hint, every other key keeps its hint,
   * and the number of hints grows exactly when the key was new.
   */
  lemma ErrorHintInsertsOrOverwrites(d: ToolDescription, errorType: string, hint: string)
    ensures var h := WithErrorHint(d, errorType, hint).errorHints;
      errorType in h && h[errorType] == hint
      && (forall k :: k in d.errorHints && k != errorType ==> k in h && h[k] == d.errorHints[k])
      && h.Keys == d.errorHints.Keys + {errorType}
      && (|h| == |d.errorHints| + 1 <==> errorType !in d.errorHints)
      && (|h| == |d.errorHints| <==> errorType in d.errorHints)
  {
    var h := WithErrorHint(d, errorType, hint).errorHints;
    assert h.Keys == d.errorHints.Keys + {errorType};
    if errorType in d.errorHints {
      assert h.Keys == d.errorHints.Keys;
    } else {
      assert |h.Keys| == |d.errorHints.Keys| + 1;
    }
  }

  // ---------------------------------------------------------------------
  // build_prompt
  // ---------------------------------------------------------------------

  const Warn := "\U{26A0}\U{FE0F}"

  /**
   * The order a `HashMap` yields its keys in: every key exactly once.
   * Rust leaves that order unspecified, so the model takes it as a
   * parameter.
   */
  ghost predicate IsEnumeration(order: seq<string>, m: map<string, string>) {
    (forall k :: k in order <==> k in m)
    && (forall i, j :: 0 <= i < j < |order| ==> order[i] != order[j])
  }

  /** One `\n- ` line per item, each behind the same prefix, in order. */
  function Bullets(prefix: string, items: seq<string>): string {
    if |items| == 0 then ""
    else Bullets(prefix, items[..|items| - 1]) + "\n- " + prefix + items[|items| - 1]
  }

  const UsageHeader := "\n\n## Usage Guide\n"
  const ConstraintsHeader := "\n\n## Constraints"
  const SecurityHeader := "\n\n## Security Notes"
  const ExamplesHeader := "\n\n## Examples"
  const TroubleshootingHeader := "\n\n## Troubleshooting"
  const NotePrefix := Warn + " "

  function UsageSection(d: ToolDescription): string {
    if d.usageGuide == "" then "" else UsageHeader + d.usageGuide
  }

  /** A header and one bullet per item, or nothing at all for no items. */
  function ListText(header: string, prefix: string, items: seq<string>): string {
    if |items| == 0 then "" else header + Bullets(prefix, items)
  }

  function ConstraintSection(d: ToolDescription): string {
    ListText(ConstraintsHeader, "", d.constraints)
  }

  function SecuritySection(d: ToolDescription): string {
    ListText(SecurityHeader, NotePrefix, d.securityNotes)
  }

  /** The block of the example numbered `number`; `pretty` renders its JSON input. */
  function ExampleBlock(number: nat, e: ToolExample, pretty: Json -> string): string {
    "\n\n### Example " + NatToString(number) + ": " + e.title + "\n" + e.description
    + "\n\n**Input:**\n```json\n" + pretty(e.input) + "\n```\n\n**Expected Output:**\n" + e.expectedOutput
  }

  /** The blocks of all examples; the last one is numbered with its one-based position. */
  function ExampleBlocks(examples: seq<ToolExample>, pretty: Json -> string): string {
    if |examples| == 0 then ""
    else ExampleBlocks(examples[..|examples| - 1], pretty) + ExampleBlock(|examples|, examples[|examples| - 1], pretty)
  }

  function ExampleSection(d: ToolDescription, pretty: Json -> string): string {
    if |d.examples| == 0 then "" else ExamplesHeader + ExampleBlocks(d.examples, pretty)
  }

  function HintLines(hints: map<string, string>, order: seq<string>): string
    requires forall k :: k in order ==> k in hints
  {
    if |order| == 0 then ""
    else
      var k := order[|order| - 1];
      HintLines(hints, order[..|order| - 1]) + "\n- **" + k + "**: " + hints[k]
  }

  function TroubleshootingSection(d: ToolDescription, order: seq<string>): string
    requires IsEnumeration(order, d.errorHints)
  {
    if |d.errorHints| == 0 then "" else TroubleshootingHeader + HintLines(d.errorHints, order)
  }

  /** The full prompt: the summary, then each section whose field is set, in a fixed order. */
  function PromptOf(d: ToolDescription, order: seq<string>, pretty: Json -> string): string
    requires IsEnumeration(order, d.errorHints)
  {
    d.summary + UsageSection(d) + ConstraintSection(d) + SecuritySection(d)
    + ExampleSection(d, pretty) + TroubleshootingSection(d, order)
  }

  /** `build_prompt`: the summary, then each non-empty section, appended piece by piece. */
  method BuildPrompt(d: ToolDescription, order: seq<string>, pretty: Json -> string) returns (prompt: string)
    requires IsEnumeration(order, d.errorHints)
    ensures prompt == PromptOf(d, order, pretty)
  {
    prompt := d.summary;
    if d.usageGuide != "" {
      prompt := prompt + (UsageHeader + d.usageGuide);
    }
    var section := ListSection(ConstraintsHeader, "", d.constraints);
    prompt := prompt + section;
    section := ListSection(SecurityHeader, NotePrefix, d.securityNotes);
    prompt := prompt + section;
    section := ExamplesPart(d, pretty);
    prompt := prompt + section;
    section := TroubleshootingPart(d, order);
    prompt := prompt + section;
  }

  /** A header and one bullet per item, or nothing for no items. */
  method ListSection(header: string, prefix: string, items: seq<string>) returns (section: string)
    ensures section == ListText(header, prefix, items)
  {
    section := "";
    if |items| > 0 {
      section := AppendBullets(header, prefix, items);
    }
  }

  method ExamplesPart(d: ToolDescription, pretty: Json -> string) returns (section: string)
    ensures section == ExampleSection(d, pretty)
  {
    section := "";
    if |d.examples| > 0 {
      section := AppendExamples(ExamplesHeader, d.examples, pretty);
    }
  }

  method TroubleshootingPart(d: ToolDescription, order: seq<string>) returns (section: string)
    requires IsEnumeration(order, d.errorHints)
    ensures section == TroubleshootingSection(d, order)
  {
    section := "";
    if |d.errorHints| > 0 {
      section := AppendHints(TroubleshootingHeader, d.errorHints, order);
    }
  }

  method AppendBullets(before: string, prefix: string, items: seq<string>) returns (s: string)
    ensures s == before + Bullets(prefix, items)
  {
    s := before;
    var i := 0;
    while i < |items|
      invariant 0 <= i <= |items|
      invariant s == before + Bullets(prefix, items[..i])
    {
      assert items[..i + 1][..i] == items[..i];
      var line := "\n- " + prefix + items[i];
      assert Bullets(prefix, items[..i + 1]) == Bullets(prefix, items[..i]) + line;
      ConcatAssoc(before, Bullets(prefix, items[..i]), line);
      s := s + line;
      i := i + 1;
    }
    assert items[..i] == items;
  }

  /** Examples are numbered from 1 in the order they were added. */
  method AppendExamples(before: string, examples: seq<ToolExample>, pretty: Json -> string) returns (s: string)
    ensures s == before + ExampleBlocks(examples, pretty)
  {
    s := before;
    var i := 0;
    while i < |examples|
      invariant 0 <= i <= |examples|
      invariant s == before + ExampleBlocks(examples[..i], pretty)
    {
      assert examples[..i + 1][..i] == examples[..i];
      var block := ExampleBlock(i + 1, examples[i], pretty);
      assert ExampleBlocks(examples[..i + 1], pretty) == ExampleBlocks(examples[..i], pretty) + block;
      ConcatAssoc(before, ExampleBlocks(examples[..i], pretty), block);
      s := s + block;
      i := i + 1;
    }
    assert examples[..i] == examples;
  }

  method AppendHints(before: string, hints: map<string, string>, order: seq<string>) returns (s: string)
    requires forall k :: k in order ==> k in hints
    ensures s == before + HintLines(hints, order)
  {
    s := before;
    var i := 0;
    while i < |order|
      invariant 0 <= i <= |order|
      invariant s == before + HintLines(hints, order[..i])
    {
      assert order[..i + 1][..i] == order[..i];
      var line := "\n- **" + order[i] + "**: " + hints[order[i]];
      assert HintLines(hints, order[..i + 1]) == HintLines(hints, order[..i]) + line;
      ConcatAssoc(before, HintLines(hints, order[..i]), line);
      s := s + line;
      i := i + 1;
    }
    assert order[..i] == order;
  }

  // ---------------------------------------------------------------------
  // What the prompt looks like
  // ---------------------------------------------------------------------

  /** An enumeration is empty exactly when the map is. */
  lemma EnumerationEmpty(order: seq<string>, m: map<string, string>)
    requires IsEnumeration(order, m)
    ensures |order| == 0 <==> |m| == 0
  {
    if |order| > 0 {
      assert order[0] in m;
    }
  }

  /** The prompt begins with the summary, whatever else is set. */
  lemma PromptStartsWithSummary(d: ToolDescription, order: seq<string>, pretty: Json -> string)
    requires IsEnumeration(order, d.errorHints)
    ensures StartsWith(PromptOf(d, order, pretty), d.summary)
  {
    var p1 := d.summary + UsageSection(d);
    var p2 := p1 + ConstraintSection(d);
    var p3 := p2 + SecuritySection(d);
    var p4 := p3 + ExampleSection(d, pretty);
    KeepsPrefix(d.summary, UsageSection(d), d.summary);
    KeepsPrefix(p1, ConstraintSection(d), d.summary);
    KeepsPrefix(p2, SecuritySection(d), d.summary);
    KeepsPrefix(p3, ExampleSection(d, pretty), d.summary);
    KeepsPrefix(p4, TroubleshootingSection(d, order), d.summary);
  }

  lemma KeepsPrefix(x: string, y: string, p: string)
    requires StartsWith(x, p)
    ensures StartsWith(x + y, p)
  {
    assert (x + y)[..|p|] == x[..|p|];
  }

  /** With every optional field empty, the prompt is exactly the summary, and only then. */
  lemma PromptIsSummaryIffBare(d: ToolDescription, order: seq<string>, pretty: Json -> string)
    requires IsEnumeration(order, d.errorHints)
    ensures PromptOf(d, order, pretty) == d.summary
            <==> d.usageGuide == "" && d.constraints == [] && d.securityNotes == [] && d.examples == []
                 && |d.errorHints| == 0
  {
    var p := PromptOf(d, order, pretty);
    assert |p| == |d.summary| + |UsageSection(d)| + |ConstraintSection(d)| + |SecuritySection(d)|
                  + |ExampleSection(d, pretty)| + |TroubleshootingSection(d, order)|;
  }

  /** Each section is present exactly when its field is set, and then opens with its header. */
  lemma SectionsIffSet(d: ToolDescription, order: seq<string>, pretty: Json -> string)
    requires IsEnumeration(order, d.errorHints)
    ensures UsageSection(d) != "" <==> d.usageGuide != ""
    ensures d.usageGuide != "" ==> StartsWith(UsageSection(d), "\n\n## Usage Guide\n")
    ensures ConstraintSection(d) != "" <==> |d.constraints| > 0
    ensures |d.constraints| > 0 ==> StartsWith(ConstraintSection(d), "\n\n## Constraints")
    ensures SecuritySection(d) != "" <==> |d.securityNotes| > 0
    ensures |d.securityNotes| > 0 ==> StartsWith(SecuritySection(d), "\n\n## Security Notes")
    ensures ExampleSection(d, pretty) != "" <==> |d.examples| > 0
    ensures |d.examples| > 0 ==> StartsWith(ExampleSection(d, pretty), "\n\n## Examples")
    ensures TroubleshootingSection(d, order) != "" <==> |d.errorHints| > 0
    ensures |d.errorHints| > 0 ==> StartsWith(TroubleshootingSection(d, order), "\n\n## Troubleshooting")
  {
  }

  /** `x` occurs in any text that has it between two other pieces. */
  lemma ContainsMiddle(a: string, x: string, b: string)
    ensures Contains(a + x + b, x)
  {
    assert (a + x + b)[|a|..|a| + |x|] == x;
    ContainsAt(a + x + b, x, |a|);
  }

  lemma {:induction false} ExampleBlocksPrefix(examples: seq<ToolExample>, pretty: Json -> string, n: nat)
    requires n <= |examples|
    ensures StartsWith(ExampleBlocks(examples, pretty), ExampleBlocks(examples[..n], pretty))
    decreases |examples|
  {
    if n < |examples| {
      var init := examples[..|examples| - 1];
      assert init[..n] == examples[..n];
      ExampleBlocksPrefix(init, pretty, n);
    } else {
      assert examples[..n] == examples;
    }
  }

  lemma SplitAt<T>(s: seq<T>, n: nat)
    requires n <= |s|
    ensures s == s[..n] + s[n..]
  {
  }

  /** `x` occurs in any text that ends with it. */
  lemma ContainsEnd(a: string, x: string)
    ensures Contains(a + x, x)
  {
    assert (a + x)[|a|..|a| + |x|] == x;
    ContainsAt(a + x, x, |a|);
  }

  /** The example at zero-based position `k` is rendered as example number `k + 1`. */
  lemma ExampleNumbered(examples: seq<ToolExample>, pretty: Json -> string, k: nat)
    requires k < |examples|
    ensures Contains(ExampleBlocks(examples, pretty), ExampleBlock(k + 1, examples[k], pretty))
  {
    var upTo := examples[..k + 1];
    assert |upTo| == k + 1 && upTo[k] == examples[k] && upTo[..k] == examples[..k];
    var block := ExampleBlock(k + 1, examples[k], pretty);
    var before := ExampleBlocks(examples[..k], pretty);
    var p := ExampleBlocks(upTo, pretty);
    assert p == before + block;
    ContainsEnd(before, block);
    ExampleBlocksPrefix(examples, pretty, k + 1);
    var all := ExampleBlocks(examples, pretty);
    assert all[..|p|] == p;
    SplitAt(all, |p|);
    ContainsPrefix(all[|p|..], p, block);
  }

  lemma {:induction false} HintLinesCover(hints: map<string, string>, order: seq<string>, k: nat)
    requires forall key :: key in order ==> key in hints
    requires k < |order|
    ensures Contains(HintLines(hints, order), "\n- **" + order[k] + "**: " + hints[order[k]])
  {
    var init := order[..|order| - 1];
    var last := order[|order| - 1];
    var lastLine := "\n- **" + last + "**: " + hints[last];
    assert HintLines(hints, order) == HintLines(hints, init) + lastLine;
    if k == |order| - 1 {
      ContainsEnd(HintLines(hints, init), lastLine);
    } else {
      assert init[k] == order[k];
      HintLinesCover(hints, init, k);
      ContainsPrefix(lastLine, HintLines(hints, init), "\n- **" + order[k] + "**: " + hints[order[k]]);
    }
  }

  /**
   * Every error hint is listed, whatever order the map yields its keys
   * in: the Troubleshooting section holds one `**key**: hint` line per key.
   */
  lemma EveryHintListed(d: ToolDescription, order: seq<string>, errorType: string)
    requires IsEnumeration(order, d.errorHints) && errorType in d.errorHints
    ensures Contains(TroubleshootingSection(d, order), "\n- **" + errorType + "**: " + d.errorHints[errorType])
  {
    var k :| 0 <= k < |order| && order[k] == errorType;
    HintLinesCover(d.errorHints, order, k);
    ContainsSuffixOf(TroubleshootingHeader, HintLines(d.errorHints, order),
                     "\n- **" + errorType + "**: " + d.errorHints[errorType]);
  }

  /** An occurrence in the tail is an occurrence in the whole. */
  lemma {:induction false} ContainsSuffixOf(p: string, s: string, sub: string)
    requires Contains(s, sub)
    ensures Contains(p + s, sub)
    decreases |p|
  {
    if |p| > 0 {
      ContainsSuffixOf(p[1..], s, sub);
      assert (p + s)[1..] == p[1..] + s;
    } else {
      assert p + s == s;
    }
  }

  // ---------------------------------------------------------------------
  // build_compact_prompt
  // ---------------------------------------------------------------------

  /** The summary, then the constraints joined by ", ", then the security notes joined by "; ". */
  function CompactOf(d: ToolDescription): string {
    d.summary
    + (if |d.constraints| > 0 then " Constraints: " + Join(d.constraints, ", ") else "")
    + (if |d.securityNotes| > 0 then " " + Warn + " Security: " + Join(d.securityNotes, "; ") else "")
  }

  /** The compact prompt begins with the summary and is only the summary when neither list is set. */
  lemma CompactShape(d: ToolDescription)
    ensures StartsWith(CompactOf(d), d.summary)
    ensures CompactOf(d) == d.summary <==> d.constraints == [] && d.securityNotes == []
  {
    var c := if |d.constraints| > 0 then " Constraints: " + Join(d.constraints, ", ") else "";
    var s := if |d.securityNotes| > 0 then " " + Warn + " Security: " + Join(d.securityNotes, "; ") else "";
    assert CompactOf(d) == d.summary + (c + s);
    assert |CompactOf(d)| == |d.summary| + |c| + |s|;
  }

  /** A single constraint and a single note appear verbatim after their labels. */
  lemma CompactSingle(d: ToolDescription, constraint: string, note: string)
    requires d.constraints == [constraint] && d.securityNotes == [note]
    ensures CompactOf(d) == d.summary + " Constraints: " + constraint + " " + Warn + " Security: " + note
  {
  }

  // ---------------------------------------------------------------------
  // McpToolBuilder
  // ---------------------------------------------------------------------

  datatype McpToolBuilder = McpToolBuilder(
    name: string,
    description: ToolDescription,
    inputSchema: Json,
    outputSchema: Option<Json>)

  /** `{"type": "object", "properties": {}}`, keys in the map's sorted order. */
  function DefaultInputSchema(): Json {
    Obj([("properties", Obj([])), ("type", Str("object"))])
  }

  function NewTool(name: string, description: ToolDescription): McpToolBuilder {
    McpToolBuilder(name, description, DefaultInputSchema(), None)
  }

  function WithInputSchema(b: McpToolBuilder, schema: Json): McpToolBuilder {
    b.(inputSchema := schema)
  }

  function WithOutputSchema(b: McpToolBuilder, schema: Json): McpToolBuilder {
    b.(outputSchema := Some(schema))
  }

  /** The tool object around a rendered description; `outputSchema` is added when one was set. */
  function ToolObject(b: McpToolBuilder, description: string): Json {
    Obj([("description", Str(description)), ("inputSchema", b.inputSchema), ("name", Str(b.name))]
        + (match b.outputSchema case Some(s) => [("outputSchema", s)] case None => []))
  }

  /** `build`: the tool object with the full prompt. */
  function Build(b: McpToolBuilder, order: seq<string>, pretty: Json -> string): Json
    requires IsEnumeration(order, b.description.errorHints)
  {
    ToolObject(b, PromptOf(b.description, order, pretty))
  }

  /** `build_compact`: the tool object with the compact prompt. */
  function BuildCompact(b: McpToolBuilder): Json {
    ToolObject(b, CompactOf(b.description))
  }

  /** The tool object carries the name, the rendered description and the input schema. */
  lemma ToolObjectFields(b: McpToolBuilder, description: string)
    ensures var t := ToolObject(b, description);
      Get(t, "name") == Some(Str(b.name)) && Get(t, "description") == Some(Str(description))
      && Get(t, "inputSchema") == Some(b.inputSchema)
  {
    var t := ToolObject(b, description);
    LookupAt(t.members, "description", 0);
    LookupAt(t.members, "inputSchema", 1);
    LookupAt(t.members, "name", 2);
  }

  /** The tool object has an output schema exactly when one was set. */
  lemma ToolObjectOutputSchema(b: McpToolBuilder, description: string)
    ensures Get(ToolObject(b, description), "outputSchema") == b.outputSchema
  {
    var t := ToolObject(b, description);
    if b.outputSchema.Some? {
      LookupAt(t.members, "outputSchema", 3);
    }
  }

  /** The first member with the key is the one found. */
  lemma {:induction false} LookupAt(members: seq<(string, Json)>, key: string, i: nat)
    requires i < |members| && members[i].0 == key
    requires forall j :: 0 <= j < i ==> members[j].0 != key
    ensures Lookup(members, key) == Some(members[i].1)
  {
    if i > 0 {
      LookupAt(members[1..], key, i - 1);
    }
  }

  /** A fresh tool has the default object schema and no output schema; setting one makes it appear. */
  lemma DefaultsAndOutputSchema(name: string, d: ToolDescription, schema: Json)
    ensures Get(BuildCompact(NewTool(name, d)), "outputSchema").None?
    ensures Get(BuildCompact(NewTool(name, d)), "inputSchema") == Some(DefaultInputSchema())
    ensures Get(BuildCompact(WithOutputSchema(NewTool(name, d), schema)), "outputSchema") == Some(schema)
    ensures Get(DefaultInputSchema(), "type") == Some(Str("object"))
  {
    ToolObjectFields(NewTool(name, d), CompactOf(d));
    ToolObjectOutputSchema(NewTool(name, d), CompactOf(d));
    ToolObjectOutputSchema(WithOutputSchema(NewTool(name, d), schema), CompactOf(d));
  }

  // ---------------------------------------------------------------------
  // Common content
  // ---------------------------------------------------------------------

  function CommonConstraints(): seq<string> {
    ["Ensure Terraform is initialized before running operations",
     "Validate directory permissions before executing commands",
     "Check security policy settings for dangerous operations",
     "Use proper namespace format (e.g., 'hashicorp/aws' or auto-fallback)",
     "Provider search queries should be specific but not overly narrow"]
  }

  function CommonErrorHints(): map<string, string> {
    map[
      "Init Required" := "Run 'terraform init' first to initialize the working directory",
      "Permission Denied" := "Check if TFMCP_ALLOW_DANGEROUS_OPS environment variable is set for apply/destroy operations",
      "Provider Not Found" := "Verify provider name and namespace, or try without specifying namespace for auto-fallback",
      "Invalid Configuration" := "Run validation tools to check Terraform configuration syntax and semantics"]
  }

  function CommonSecurityNotes(): seq<string> {
    ["Apply and destroy operations are disabled by default for safety",
     "Set TFMCP_ALLOW_DANGEROUS_OPS=true to enable infrastructure modifications",
     "All operations are logged to ~/.tfmcp/audit.log for security monitoring",
     "Production directory patterns are automatically blocked"]
  }
}

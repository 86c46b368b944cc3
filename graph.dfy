/**
 * The dependency graph that `terraform graph` prints in Graphviz DOT
 * (src/terraform/graph.rs): the line-by-line reading of node and edge
 * statements, the classification of node ids and edges, and the
 * statistics over the result, including the depth of the longest path
 * from a root.  Running `terraform graph` is not part of this model: the
 * DOT text is an input.
 */
module Graph {
  import opened Wrappers
  import opened Strs
  import opened Process

  datatype GraphNodeType = Resource | DataSource | Module | Provider | Variable | Output | Root

  datatype GraphEdgeType = DependsOn | Reference | ProviderEdge | ModuleEdge

  datatype GraphNode = GraphNode(id: string, labelText: string, nodeType: GraphNodeType, provider: Option<string>)

  datatype GraphEdge = GraphEdge(source: string, target: string, edgeType: GraphEdgeType)

  datatype GraphStatistics = GraphStatistics(totalNodes: nat, totalEdges: nat, resourceCount: nat,
                                             dataSourceCount: nat, moduleCount: nat, providerCount: nat,
                                             maxDepth: nat)

  datatype TerraformGraph = TerraformGraph(nodes: seq<GraphNode>, edges: seq<GraphEdge>, dotOutput: string,
                                           statistics: GraphStatistics)

  datatype GraphType = Plan | Apply

  const PlanText := "plan"
  const ApplyText := "apply"

  /** `GraphType::from_str`: "plan" or "apply" in any letter case. */
  function ParseGraphType(s: string): (r: Result<GraphType, string>)
    ensures r == Ok(Plan) <==> ToLower(s) == PlanText
    ensures r == Ok(Apply) <==> ToLower(s) == ApplyText
    ensures r.Err? <==> ToLower(s) != PlanText && ToLower(s) != ApplyText
  {
    var lower := ToLower(s);
    if lower == PlanText then Ok(Plan)
    else if lower == ApplyText then Ok(Apply)
    else Err("Unknown graph type: " + s + ". Valid types: plan, apply")
  }

  // ---------------------------------------------------------------------
  // Node and edge classification
  // ---------------------------------------------------------------------

  const RootTag := "[root]"
  const RootId := "root"
  const ProviderBracket := "provider["
  const ProviderDot := "provider."
  const ModulePrefix := "module."
  const VarPrefix := "var."
  const OutputPrefix := "output."
  const DataPrefix := "data."

  predicate IsRootId(id: string) {
    StartsWith(id, RootTag) || id == RootId
  }

  predicate IsProviderId(id: string) {
    StartsWith(id, ProviderBracket) || StartsWith(id, ProviderDot)
  }

  /** The leading "[root]" and "data." that `extract_provider_from_resource` strips, then the surrounding whitespace. */
  function StripPrefixes(id: string): string {
    Trim(TrimStartMatchesStr(TrimStartMatchesStr(id, RootTag), DataPrefix))
  }

  /**
   * `extract_provider_from_resource`: the type segment of the id, with a
   * leading "[root]" and "data." removed, up to its first '_'.
   */
  function ExtractProviderFromResource(id: string): (r: Option<string>)
    ensures r.Some?
    ensures '_' !in r.value && '.' !in r.value
  {
    Some(TypeProvider(StripPrefixes(id)))
  }

  /** The provider of a resource type segment: up to the first '.', then up to the first '_'. */
  function TypeProvider(s: string): (r: string)
    ensures '_' !in r && '.' !in r
  {
    var resourceType := FirstSegment(s, '.');
    var provider := FirstSegment(resourceType, '_');
    assert forall k :: 0 <= k < |provider| ==> provider[k] == resourceType[k];
    provider
  }

  /**
   * `determine_node_type`: the first rule that matches decides, in the
   * order root, provider, module, variable, output, data source, and a
   * resource otherwise.
   */
  function DetermineNodeType(id: string): (r: (GraphNodeType, Option<string>))
    ensures r.0 == Root <==> IsRootId(id)
    ensures r.0 == Provider <==> !IsRootId(id) && IsProviderId(id)
    ensures r.0 == Module <==> !IsRootId(id) && !IsProviderId(id) && StartsWith(id, ModulePrefix)
    ensures r.0 == Variable <==>
      !IsRootId(id) && !IsProviderId(id) && !StartsWith(id, ModulePrefix) && StartsWith(id, VarPrefix)
    ensures r.0 == Output <==>
      !IsRootId(id) && !IsProviderId(id) && !StartsWith(id, ModulePrefix) && !StartsWith(id, VarPrefix)
      && StartsWith(id, OutputPrefix)
    ensures r.0 == DataSource <==>
      !IsRootId(id) && !IsProviderId(id) && !StartsWith(id, ModulePrefix) && !StartsWith(id, VarPrefix)
      && !StartsWith(id, OutputPrefix) && StartsWith(id, DataPrefix)
    ensures r.0 in {Root, Module, Variable, Output} ==> r.1 == None
    ensures r.0 in {Resource, DataSource} ==> r.1 == ExtractProviderFromResource(id)
    ensures r.0 == Provider ==> r.1 == Some(ProviderNodeName(id))
  {
    if IsRootId(id) then (Root, None)
    else if IsProviderId(id) then (Provider, Some(ProviderNodeName(id)))
    else if StartsWith(id, ModulePrefix) then (Module, None)
    else if StartsWith(id, VarPrefix) then (Variable, None)
    else if StartsWith(id, OutputPrefix) then (Output, None)
    else if StartsWith(id, DataPrefix) then (DataSource, ExtractProviderFromResource(id))
    else (Resource, ExtractProviderFromResource(id))
  }

  /** The name of a provider node: its last '/'-segment without the closing `"]`. */
  function ProviderNodeName(id: string): (r: string)
    ensures '/' !in r
  {
    var last := LastPart(id, "/");
    LastPartNoSep(id, "/");
    CharContains(last, '/');
    var name := TrimEndMatches(TrimEndMatches(last, ']'), '"');
    assert name == last[..|name|];
    name
  }

  /**
   * A provider node of the form `provider["<host>/<namespace>/<name>"]`
   * is named by its last path segment.
   */
  lemma ProviderNodeNameOf(path: string, name: string)
    requires '/' !in name && (|name| == 0 || name[|name| - 1] != '"')
    ensures ProviderNodeName(path + "/" + name + "\"]") == name
  {
    var tail := name + "\"]";
    assert path + "/" + name + "\"]" == path + ['/'] + tail;
    LastSegmentOf(path, tail);
    ClosingStripped(name);
  }

  lemma LastSegmentOf(path: string, tail: string)
    requires '/' !in tail
    ensures LastPart(path + ['/'] + tail, "/") == tail
  {
    LastPartJoin(path, tail, '/');
    CharContains(tail, '/');
    LastPartNone(tail, "/");
  }

  lemma ClosingStripped(name: string)
    requires |name| == 0 || name[|name| - 1] != '"'
    ensures TrimEndMatches(TrimEndMatches(name + "\"]", ']'), '"') == name
  {
    var quoted := name + ['"'];
    assert name + "\"]" == quoted + [']'];
    StripLast(quoted, ']');
    StripLast(name, '"');
  }

  lemma StripLast(x: string, c: char)
    requires |x| == 0 || x[|x| - 1] != c
    ensures TrimEndMatches(x + [c], c) == x
  {
    assert (x + [c])[..|x|] == x;
  }

  /** Stripping finds nothing to strip in an id that starts with neither prefix nor whitespace. */
  lemma StripNothing(id: string)
    requires |id| > 0 && !IsSpace(id[0]) && !IsSpace(id[|id| - 1])
    requires !StartsWith(id, RootTag) && !StartsWith(id, DataPrefix)
    ensures StripPrefixes(id) == id
  {
    assert TrimStart(id) == id;
  }

  /**
   * An id `<provider>_<rest>.<name>` is attributed to `<provider>`.
   */
  lemma ResourceProvider(p: string, rest: string, name: string)
    requires |p| > 0 && !IsSpace(p[0]) && '_' !in p && '.' !in p && '[' !in p
    requires |name| > 0 && !IsSpace(name[|name| - 1])
    ensures ExtractProviderFromResource(p + "_" + rest + "." + name) == Some(p)
  {
    var id := p + "_" + rest + "." + name;
    assert id[|p|] == '_';
    assert id[..|p|] == p;
    ProviderOfPrefix(id, p);
    assert !StartsWith(id, RootTag) by {
      assert id[0] == p[0];
    }
    assert !StartsWith(id, DataPrefix) by {
      if |p| >= 5 {
        assert id[4] == p[4];
      }
    }
    StripNothing(id);
  }

  lemma ProviderOfPrefix(id: string, p: string)
    requires |p| < |id| && id[..|p|] == p && id[|p|] == '_' && '_' !in p && '.' !in p
    ensures TypeProvider(id) == p
  {
    assert id[..|p| + 1] == p + "_";
    FirstSegmentKeeps(id, '.', |p| + 1);
    var t := FirstSegment(id, '.');
    assert t[..|p|] == p by {
      assert t[..|p|] == t[..|p| + 1][..|p|];
    }
    FirstSegmentAt(t, '_', |p|);
  }

  /** A "[root] " in front does not change the provider of a resource id. */
  lemma RootPrefixIgnored(id: string)
    requires !StartsWith(id, RootTag) && !StartsWith(id, DataPrefix)
    ensures StripPrefixes(RootTag + " " + id) == StripPrefixes(id)
  {
    var spaced := " " + id;
    var r := RootTag + spaced;
    assert RootTag + " " + id == r;
    assert r[..|RootTag|] == RootTag && r[|RootTag|..] == spaced;
    assert !StartsWith(spaced, RootTag) && !StartsWith(spaced, DataPrefix) by {
      if |spaced| >= 5 {
        assert spaced[..5][0] == ' ';
      }
      if |spaced| >= 6 {
        assert spaced[..6][0] == ' ';
      }
    }
    assert TrimStartMatchesStr(r, RootTag) == spaced;
    LeadingSpaceTrimmed(id);
  }

  lemma LeadingSpaceTrimmed(id: string)
    ensures Trim(" " + id) == Trim(id)
  {
    assert (" " + id)[1..] == id;
    assert TrimStart(" " + id) == TrimStart(id);
  }

  /** A "data." in front does not change the provider of a resource id. */
  lemma DataPrefixIgnored(id: string)
    requires !StartsWith(id, RootTag) && !StartsWith(id, DataPrefix)
    ensures StripPrefixes(DataPrefix + id) == StripPrefixes(id)
  {
    var d := DataPrefix + id;
    assert d[..|DataPrefix|] == DataPrefix && d[|DataPrefix|..] == id;
    assert !StartsWith(d, RootTag) by {
      assert d[0] == 'd';
    }
    assert TrimStartMatchesStr(d, DataPrefix) == id;
  }

  // ---------------------------------------------------------------------
  // Edge lines
  // ---------------------------------------------------------------------

  const Arrow := "->"
  const AttributeOpen := " ["

  /** The cleaning applied to both ends of an edge: whitespace, then quotes, then semicolons. */
  function CleanEnd(part: string): string {
    TrimMatches(TrimMatches(Trim(part), '"'), ';')
  }

  /**
   * `parse_edge_line` as written: exactly one "->", both ends cleaned, and
   * the target cut at its first '['.
   */
  function ParseEdgeLineAsWritten(line: string): (r: Option<(string, string)>)
    ensures r.Some? ==> |r.value.0| > 0 && |r.value.1| > 0
  {
    var parts := Split(line, Arrow);
    if |parts| != 2 then None
    else
      var source := CleanEnd(parts[0]);
      var target := TrimMatches(Trim(FirstSegment(CleanEnd(parts[1]), '[')), '"');
      if source == [] || target == [] then None else Some((source, target))
  }

  /**
   * `parse_edge_line` with the target cut where an attribute list starts
   * (" [") rather than at any '[', so that targets such as
   * `provider["registry.terraform.io/hashicorp/aws"]` and `[root] x`
   * keep their brackets.
   */
  function ParseEdgeLine(line: string): (r: Option<(string, string)>)
    ensures r.Some? ==> |r.value.0| > 0 && |r.value.1| > 0
  {
    var parts := Split(line, Arrow);
    if |parts| != 2 then None
    else
      var source := CleanEnd(parts[0]);
      var target := TrimMatches(Trim(Split(CleanEnd(parts[1]), AttributeOpen)[0]), '"');
      if source == [] || target == [] then None else Some((source, target))
  }

  /** A line without "->" is not an edge. */
  lemma NoArrowNoEdge(line: string)
    requires !Contains(line, Arrow)
    ensures ParseEdgeLineAsWritten(line).None? && ParseEdgeLine(line).None?
  {
    SplitNoSep(line, Arrow);
  }

  /**
   * An id as `terraform graph` quotes it: not empty, free of "->", with no
   * whitespace, quote or semicolon at either end.
   */
  predicate PlainId(x: string) {
    |x| > 0 && !Contains(x, Arrow)
    && !IsSpace(x[0]) && x[0] != '"' && x[0] != ';'
    && !IsSpace(x[|x| - 1]) && x[|x| - 1] != '"' && x[|x| - 1] != ';'
  }

  /** The DOT statement `"<source>" -> "<target>"`. */
  function EdgeText(source: string, target: string): string {
    "\"" + source + "\" -> \"" + target + "\""
  }

  /** The edge statement splits on "->" into the quoted source and the quoted target. */
  lemma EdgeTextParts(source: string, target: string)
    requires PlainId(source) && PlainId(target)
    ensures Split(EdgeText(source, target), Arrow) == ["\"" + source + "\" ", " \"" + target + "\""]
  {
    var a := "\"" + source + "\" ";
    var b := " \"" + target + "\"";
    var line := EdgeText(source, target);
    assert line == a + (Arrow + b);
    NoSubIn("\"", source, "\" ", Arrow);
    FindAfter(a, Arrow + b, Arrow);
    SplitHead(line, Arrow, |a|);
    assert line[..|a|] == a;
    assert line[|a| + 2..] == b;
    NoSubIn(" \"", target, "\"", Arrow);
    SplitNoSep(b, Arrow);
  }

  /** Quotes around an id, and surrounding whitespace, are what the cleaning removes. */
  lemma CleanQuoted(x: string)
    requires PlainId(x)
    ensures CleanEnd("\"" + x + "\" ") == x
    ensures CleanEnd(" \"" + x + "\"") == x
  {
    var q := "\"" + x + "\"";
    assert "\"" + x + "\" " == q + " ";
    assert " \"" + x + "\"" == " " + q;
    TrimSpaced(q);
    StripBoth(x, '"');
    StripBoth(x, ';');
  }

  /** A quoted text loses a space on either side to trimming and nothing else. */
  lemma TrimSpaced(q: string)
    requires |q| > 0 && !IsSpace(q[0]) && !IsSpace(q[|q| - 1])
    ensures Trim(q + " ") == q && Trim(" " + q) == q
  {
    assert TrimStart(q) == q;
    assert TrimEnd(q) == q;
    assert (q + " ")[..|q|] == q;
    assert (" " + q)[1..] == q;
    assert TrimStart(q + " ") == q + " ";
    assert TrimEnd(" " + q) == " " + q;
  }

  lemma StripBoth(x: string, c: char)
    requires |x| > 0 && x[0] != c && x[|x| - 1] != c
    ensures TrimMatches([c] + x + [c], c) == x
    ensures TrimMatches(x, c) == x
  {
    assert ([c] + x + [c])[1..] == x + [c];
    assert TrimStartMatches(x + [c], c) == x + [c];
    assert (x + [c])[..|x|] == x;
    assert TrimStartMatches(x, c) == x;
    assert TrimEndMatches(x, c) == x;
    assert TrimEndMatches(x + [c], c) == x;
  }

  /** A plain id without an attribute opener is left as it is by the target's cut and cleaning. */
  lemma TargetKept(t: string)
    requires PlainId(t) && !Contains(t, AttributeOpen)
    ensures TrimMatches(Trim(Split(t, AttributeOpen)[0]), '"') == t
  {
    SplitNoSep(t, AttributeOpen);
    assert TrimStart(t) == t;
    assert TrimEnd(t) == t;
    StripBoth(t, '"');
  }

  /**
   * Reading back an edge statement gives its two ends, for every pair of
   * plain ids whose target has no attribute opener.
   */
  lemma EdgeRoundTrip(source: string, target: string)
    requires PlainId(source) && PlainId(target) && !Contains(target, AttributeOpen)
    ensures ParseEdgeLine(EdgeText(source, target)) == Some((source, target))
  {
    EdgeTextParts(source, target);
    CleanQuoted(source);
    CleanQuoted(target);
    TargetKept(target);
  }

  /** The written parser reads back the same edge when the target holds no '['. */
  lemma EdgeRoundTripAsWritten(source: string, target: string)
    requires PlainId(source) && PlainId(target) && '[' !in target
    ensures ParseEdgeLineAsWritten(EdgeText(source, target)) == Some((source, target))
  {
    EdgeTextParts(source, target);
    CleanQuoted(source);
    CleanQuoted(target);
    FirstSegmentNone(target, '[');
    assert TrimStart(target) == target;
    StripBoth(target, '"');
  }

  lemma FirstSegmentNone(s: string, c: char)
    requires c !in s
    ensures FirstSegment(s, c) == s
  {
  }

  /** Every target the written parser returns is free of '[', so it never starts with "provider[". */
  lemma AsWrittenTargetNoBracket(line: string)
    requires ParseEdgeLineAsWritten(line).Some?
    ensures '[' !in ParseEdgeLineAsWritten(line).value.1
    ensures !StartsWith(ParseEdgeLineAsWritten(line).value.1, ProviderBracket)
  {
    var parts := Split(line, Arrow);
    var cut := FirstSegment(CleanEnd(parts[1]), '[');
    var t := ParseEdgeLineAsWritten(line).value.1;
    NoCharTrim(cut, '[');
    NoCharTrimMatches(Trim(cut), '[', '"');
    PrefixCharIn(t, ProviderBracket, 8);
  }

  lemma PrefixCharIn(s: string, p: string, k: nat)
    ensures StartsWith(s, p) && k < |p| ==> p[k] in s
  {
    if StartsWith(s, p) && k < |p| {
      assert s[k] == s[..|p|][k];
    }
  }

  lemma NoCharTrim(s: string, c: char)
    requires c !in s
    ensures c !in Trim(s)
  {
    var t := TrimStart(s);
    TrimStartSuffix(s);
    TrimEndPrefix(t);
    assert forall k :: 0 <= k < |Trim(s)| ==> Trim(s)[k] == s[|s| - |t| + k];
  }

  lemma NoCharTrimMatches(s: string, c: char, d: char)
    requires c !in s
    ensures c !in TrimMatches(s, d)
  {
    var t := TrimStartMatches(s, d);
    TrimStartMatchesSuffix(s, d);
    assert forall k :: 0 <= k < |TrimMatches(s, d)| ==> TrimMatches(s, d)[k] == s[|s| - |t| + k];
  }

  /** The written parser keeps only the part of a target before its first '['. */
  lemma AsWrittenCutsTarget(source: string, target: string, w: string)
    requires PlainId(source) && PlainId(target)
    requires |w| < |target| && target[..|w|] == w && target[|w|] == '[' && '[' !in w
    ensures var cut := TrimMatches(Trim(w), '"');
      ParseEdgeLineAsWritten(EdgeText(source, target)) == if cut == [] then None else Some((source, cut))
  {
    EdgeTextParts(source, target);
    CleanQuoted(source);
    CleanQuoted(target);
    FirstSegmentAt(target, '[', |w|);
  }

  /** A target `<word>[…` comes back from the written parser as `<word>`. */
  lemma AsWrittenCutsAtWord(source: string, target: string, w: string)
    requires PlainId(source) && PlainId(target)
    requires |w| < |target| && target[..|w|] == w && target[|w|] == '[' && '[' !in w
    requires |w| > 0 && !IsSpace(w[0]) && !IsSpace(w[|w| - 1]) && w[0] != '"' && w[|w| - 1] != '"'
    ensures ParseEdgeLineAsWritten(EdgeText(source, target)) == Some((source, w))
  {
    AsWrittenCutsTarget(source, target, w);
    PlainWord(w);
  }

  /**
   * The written parser cuts a provider target at its bracket, so an edge
   * into `provider["…"]` comes back with target "provider" and is
   * classified as a reference; the corrected parser keeps the target and
   * classifies the edge as a provider edge.
   */
  lemma ProviderTargetTruncated(source: string, target: string)
    requires PlainId(source) && !StartsWith(source, ProviderBracket) && !StartsWith(source, ModulePrefix)
    requires PlainId(target) && StartsWith(target, ProviderBracket) && !Contains(target, AttributeOpen)
    ensures ParseEdgeLineAsWritten(EdgeText(source, target)) == Some((source, ProviderName))
    ensures DetermineEdgeType(source, ProviderName) == Reference
    ensures ParseEdgeLine(EdgeText(source, target)) == Some((source, target))
    ensures DetermineEdgeType(source, target) == ProviderEdge
  {
    EdgeRoundTrip(source, target);
    ProviderTargetCut(source, target);
    ProviderNameIsReference(source);
  }

  lemma ProviderTargetCut(source: string, target: string)
    requires PlainId(source) && PlainId(target) && StartsWith(target, ProviderBracket)
    ensures ParseEdgeLineAsWritten(EdgeText(source, target)) == Some((source, ProviderName))
  {
    PrefixCut(target, ProviderBracket, ProviderName, '[');
    NameWithoutBracket();
    AsWrittenCutsAtWord(source, target, ProviderName);
  }

  const ProviderName := "provider"

  lemma NameWithoutBracket()
    ensures '[' !in ProviderName
  {
    var w := ProviderName;
    assert forall k :: 0 <= k < |w| ==> w[k] != '[';
  }

  lemma ProviderNameIsReference(source: string)
    requires !StartsWith(source, ProviderBracket) && !StartsWith(source, ModulePrefix)
    ensures DetermineEdgeType(source, ProviderName) == Reference
  {
    assert |ProviderName| < |ProviderBracket|;
    assert ProviderName[0] != ModulePrefix[0];
  }

  lemma PrefixCut(t: string, p: string, w: string, c: char)
    requires p == w + [c] && StartsWith(t, p)
    ensures |w| < |t| && t[..|w|] == w && t[|w|] == c
  {
    assert t[..|p|][..|w|] == t[..|w|];
  }

  lemma PlainWord(w: string)
    requires |w| > 0 && !IsSpace(w[0]) && !IsSpace(w[|w| - 1]) && w[0] != '"' && w[|w| - 1] != '"'
    ensures Trim(w) == w && TrimMatches(w, '"') == w
  {
    assert TrimStart(w) == w;
    assert TrimEnd(w) == w;
    StripBoth(w, '"');
  }

  /**
   * The written parser drops every edge whose target is a "[root] …" id,
   * which the corrected parser reads back whole.
   */
  lemma RootTargetDropped(source: string, target: string)
    requires PlainId(source) && PlainId(target) && StartsWith(target, RootTag) && !Contains(target, AttributeOpen)
    ensures ParseEdgeLineAsWritten(EdgeText(source, target)).None?
    ensures ParseEdgeLine(EdgeText(source, target)) == Some((source, target))
  {
    EdgeRoundTrip(source, target);
    assert target[0] == '[' by {
      assert target[..6][0] == '[';
    }
    AsWrittenCutsTarget(source, target, []);
    assert TrimStart([]) == [];
  }

  /** Framing a text without `sub` by characters that do not occur in `sub` adds no occurrence. */
  lemma NoSubIn(p: string, x: string, q: string, sub: string)
    requires |sub| > 0 && !Contains(x, sub)
    requires forall c :: c in p ==> c !in sub
    requires forall c :: c in q ==> c !in sub
    ensures !Contains(p + x + q, sub)
  {
    NoSubBefore(x, q, sub);
    NoSubAfter(p, x + q, sub);
    assert p + x + q == p + (x + q);
  }

  lemma {:induction false} NoSubAfter(p: string, y: string, sub: string)
    requires |sub| > 0 && !Contains(y, sub)
    requires forall c :: c in p ==> c !in sub
    ensures !Contains(p + y, sub)
    decreases |p|
  {
    if |p| == 0 {
      assert p + y == y;
    } else {
      assert (p + y)[0] == p[0] && p[0] in p && sub[0] in sub;
      assert (p + y)[1..] == p[1..] + y;
      assert forall c :: c in p[1..] ==> c in p;
      NoSubAfter(p[1..], y, sub);
    }
  }

  lemma {:induction false} NoSubBefore(y: string, q: string, sub: string)
    requires |sub| > 0 && !Contains(y, sub)
    requires forall c :: c in q ==> c !in sub
    ensures !Contains(y + q, sub)
    decreases |y|
  {
    if |y| == 0 {
      assert y + q == q;
      ContainsChars(q, sub, sub[0]);
    } else {
      if |sub| <= |y| {
        assert (y + q)[..|sub|] == y[..|sub|];
      } else if |sub| <= |y| + |q| {
        assert (y + q)[|sub| - 1] == q[|sub| - 1 - |y|] && q[|sub| - 1 - |y|] in q && sub[|sub| - 1] in sub;
      }
      assert (y + q)[1..] == y[1..] + q;
      NoSubBefore(y[1..], q, sub);
    }
  }

  /**
   * `determine_edge_type`: a provider edge when either end is a provider,
   * else a module edge when either end is a module, else a reference.
   */
  function DetermineEdgeType(source: string, target: string): (r: GraphEdgeType)
    ensures r == ProviderEdge <==> StartsWith(source, ProviderBracket) || StartsWith(target, ProviderBracket)
    ensures r == ModuleEdge <==>
      !StartsWith(source, ProviderBracket) && !StartsWith(target, ProviderBracket)
      && (StartsWith(source, ModulePrefix) || StartsWith(target, ModulePrefix))
    ensures r != DependsOn
  {
    if StartsWith(source, ProviderBracket) || StartsWith(target, ProviderBracket) then ProviderEdge
    else if StartsWith(source, ModulePrefix) || StartsWith(target, ModulePrefix) then ModuleEdge
    else Reference
  }

  /** The edge type does not depend on which end is which. */
  lemma EdgeTypeSymmetric(a: string, b: string)
    ensures DetermineEdgeType(a, b) == DetermineEdgeType(b, a)
  {
  }

  // ---------------------------------------------------------------------
  // Node lines
  // ---------------------------------------------------------------------

  const LabelKey := "label"

  /** `create_node_from_id_with_label`: the kind and provider come from the id alone. */
  function CreateNode(id: string, labelText: string): (r: GraphNode)
    ensures r.id == id && r.labelText == labelText
    ensures (r.nodeType, r.provider) == DetermineNodeType(id)
  {
    var (nodeType, provider) := DetermineNodeType(id);
    GraphNode(id, labelText, nodeType, provider)
  }

  /**
   * The label of a node statement: the first quoted text after the first
   * "label", or the id when there is none.
   */
  function LabelOf(line: string, id: string): (r: string)
    ensures r == id || '"' !in r
  {
    match Find(line, LabelKey)
    case None => id
    case Some(at) =>
      match Quoted(line[at..])
      case None => id
      case Some(text) => text
  }

  /**
   * `parse_node_line`: the id is the first quoted text of the statement,
   * the label as `LabelOf` finds it; a statement without two quotes is no
   * node.
   */
  function ParseNodeLine(line: string): (r: Option<GraphNode>)
    ensures r.Some? ==> '"' !in r.value.id && (r.value.labelText == r.value.id || '"' !in r.value.labelText)
    ensures r.Some? ==> r.value == CreateNode(r.value.id, r.value.labelText)
  {
    match Quoted(line)
    case None => None
    case Some(id) => Some(CreateNode(id, LabelOf(line, id)))
  }

  /** A statement is read as a node exactly when it holds two double quotes. */
  lemma NodeLineNeedsTwoQuotes(line: string)
    ensures ParseNodeLine(line).Some? <==> exists i, j :: 0 <= i < j < |line| && line[i] == '"' && line[j] == '"'
  {
    QuoteFree(line);
    if Find(line, Quote).Some? {
      var start := Find(line, Quote).value;
      var rest := line[start + 1..];
      QuoteFree(rest);
      if Find(rest, Quote).Some? {
        var len := Find(rest, Quote).value;
        assert line[start + 1 + len] == rest[len];
      } else {
        forall i, j | 0 <= i < j < |line| && line[i] == '"' ensures line[j] != '"' {
          assert line[j] == rest[j - start - 1];
        }
      }
    } else {
      forall i | 0 <= i < |line| ensures line[i] != '"' {
        assert line[i] in line;
      }
    }
  }

  /**
   * A statement whose first quoted text is `id` and which has no "label"
   * is the node `id`, labelled with its id.
   */
  lemma NodeLineWithoutLabel(a: string, id: string, b: string)
    requires '"' !in a && '"' !in id
    requires !Contains(a + Quote + id + Quote + b, LabelKey)
    ensures ParseNodeLine(a + Quote + id + Quote + b) == Some(CreateNode(id, id))
  {
    QuotedAfter(a, id, b);
    FindSpec(a + Quote + id + Quote + b, LabelKey);
  }

  /** The statement `"<id>" [label = "<text>"<more>]`. */
  function NodeText(id: string, text: string, more: string): string {
    NodeHead(id) + LabelTail(text, more)
  }

  function NodeHead(id: string): string {
    Quote + id + "\" ["
  }

  const LabelLead := "label = \""

  /**
   * A node statement as `terraform graph` prints it reads back as the node
   * with that id and label, whatever attributes follow the label.
   */
  lemma NodeRoundTrip(id: string, text: string, more: string)
    requires '"' !in id && '"' !in text && !Contains(id, LabelKey)
    ensures ParseNodeLine(NodeText(id, text, more)) == Some(CreateNode(id, text))
  {
    var line := NodeText(id, text, more);
    var tail := LabelTail(text, more);
    TailQuoted(text, more);
    NodeTextId(id, tail);
    NodeTextLabelAt(id, tail);
    assert line[|NodeHead(id)|..] == tail;
    assert LabelOf(line, id) == text;
  }

  function LabelTail(text: string, more: string): string {
    LabelLead + text + Quote + more + "]"
  }

  lemma NodeTextId(id: string, tail: string)
    requires '"' !in id
    ensures Quoted(NodeHead(id) + tail) == Some(id)
  {
    assert NodeHead(id) + tail == [] + Quote + id + Quote + (" [" + tail);
    QuotedAfter([], id, " [" + tail);
  }

  lemma NodeTextLabelAt(id: string, tail: string)
    requires !Contains(id, LabelKey) && StartsWith(tail, LabelKey)
    ensures Find(NodeHead(id) + tail, LabelKey) == Some(|NodeHead(id)|)
  {
    HeadHasNoLabel(id);
    FindAfter(NodeHead(id), tail, LabelKey);
  }

  lemma TailQuoted(text: string, more: string)
    requires '"' !in text
    ensures StartsWith(LabelTail(text, more), LabelKey)
    ensures Quoted(LabelTail(text, more)) == Some(text)
  {
    var tail := LabelTail(text, more);
    LeadShape();
    assert tail == LabelLead[..8] + Quote + text + Quote + (more + "]");
    QuotedAfter(LabelLead[..8], text, more + "]");
    assert tail[..5] == LabelLead[..5];
  }

  lemma HeadHasNoLabel(id: string)
    requires !Contains(id, LabelKey)
    ensures !Contains(NodeHead(id), LabelKey)
    ensures NodeHead(id)[|NodeHead(id)| - 1] !in LabelKey
  {
    var k := LabelKey;
    assert forall c :: c in Quote ==> c !in k;
    assert forall c :: c in "\" [" ==> c !in k;
    NoSubIn(Quote, id, "\" [", k);
  }

  lemma LeadShape()
    ensures LabelLead[..5] == LabelKey
    ensures |LabelLead| == 9 && LabelLead == LabelLead[..8] + Quote && '"' !in LabelLead[..8]
  {
  }

  // ---------------------------------------------------------------------
  // Reading the DOT text
  // ---------------------------------------------------------------------

  /** The graph header, closing brace and layout statements that are skipped. */
  predicate SkipLine(line: string) {
    line == [] || StartsWith(line, DigraphWord) || StartsWith(line, CloseBrace) || StartsWith(line, CompoundWord)
    || StartsWith(line, NewrankWord) || StartsWith(line, SubgraphWord)
  }

  const DigraphWord := "digraph"
  const CloseBrace := "}"
  const CompoundWord := "compound"
  const NewrankWord := "newrank"
  const SubgraphWord := "subgraph"

  datatype LineKind = Skip | EdgeStatement | NodeStatement | BareNode | Other

  /** How `parse_dot_output` treats a trimmed line, tests taken in its order. */
  function KindOf(line: string): LineKind {
    if SkipLine(line) then Skip
    else if Contains(line, Arrow) then EdgeStatement
    else if '[' in line && ']' in line then NodeStatement
    else if StartsWith(line, Quote) && EndsWith(line, Quote) then BareNode
    else Other
  }

  /**
   * What the reading loop has gathered: the node map, the order in which
   * ids first entered it, and the edges in the order of their lines.
   */
  datatype DotState = DotState(nodeMap: map<string, GraphNode>, order: seq<string>, edges: seq<GraphEdge>)

  const EmptyDot := DotState(map[], [], [])

  /** `node_map.insert(node.id, node)`: a definition replaces an earlier one. */
  function Define(st: DotState, n: GraphNode): DotState {
    DotState(st.nodeMap[n.id := n], if n.id in st.nodeMap then st.order else st.order + [n.id], st.edges)
  }

  /** One line of the loop in `parse_dot_output`. */
  function DotStep(st: DotState, raw: string): DotState {
    var line := Trim(raw);
    match KindOf(line)
    case Skip => st
    case Other => st
    case EdgeStatement => st.(edges := st.edges + Maybe(EdgeOfLine(raw)))
    case NodeStatement =>
      (match ParseNodeLine(line)
       case None => st
       case Some(n) => Define(st, n))
    case BareNode =>
      var id := TrimMatches(line, '"');
      if id in st.nodeMap then st else Define(st, CreateNode(id, id))
  }

  /**
   * The edge of an edge statement: its two ends as `parse_edge_line` reads
   * them as written (`ParseEdgeLineAsWritten`, target cut at its first '['),
   * typed by `DetermineEdgeType`.
   */
  function EdgeOfLine(raw: string): (r: Option<GraphEdge>)
    ensures r.Some? <==> KindOf(Trim(raw)) == EdgeStatement && ParseEdgeLineAsWritten(Trim(raw)).Some?
    ensures r.Some? ==> ParseEdgeLineAsWritten(Trim(raw)) == Some((r.value.source, r.value.target))
                        && r.value.edgeType == DetermineEdgeType(r.value.source, r.value.target)
  {
    var line := Trim(raw);
    if KindOf(line) != EdgeStatement then None
    else
      match ParseEdgeLineAsWritten(line)
      case None => None
      case Some((a, b)) => Some(GraphEdge(a, b, DetermineEdgeType(a, b)))
  }

  /** An edge statement as `terraform graph` prints it is trimmed to itself and read as an edge statement. */
  lemma EdgeStatementKind(source: string, target: string)
    requires PlainId(source) && PlainId(target)
    ensures Trim(EdgeText(source, target)) == EdgeText(source, target)
    ensures KindOf(EdgeText(source, target)) == EdgeStatement
  {
    var line := EdgeText(source, target);
    var a := "\"" + source + "\" ";
    assert line == a + (Arrow + " \"" + target + "\"");
    assert line[|a|..|a| + 2] == Arrow;
    ContainsAt(line, Arrow, |a|);
    assert line[0] == '"' && line[|line| - 1] == '"';
    assert TrimStart(line) == line;
    assert TrimEnd(line) == line;
    assert !SkipLine(line) by {
      assert line[..1] == "\"";
    }
  }

  /**
   * The reading loop drops the statement of an edge into a "[root] …" id:
   * the state is left as it was.
   */
  lemma DotDropsRootEdge(st: DotState, source: string, target: string)
    requires PlainId(source) && PlainId(target) && StartsWith(target, RootTag) && !Contains(target, AttributeOpen)
    ensures DotStep(st, EdgeText(source, target)) == st
  {
    RootEdgeNone(source, target);
    StepNoEdge(st, EdgeText(source, target));
  }

  lemma StepNoEdge(st: DotState, raw: string)
    requires KindOf(Trim(raw)) == EdgeStatement && EdgeOfLine(raw).None?
    ensures DotStep(st, raw) == st
  {
    assert st.edges + Maybe(EdgeOfLine(raw)) == st.edges;
  }

  lemma RootEdgeNone(source: string, target: string)
    requires PlainId(source) && PlainId(target) && StartsWith(target, RootTag) && !Contains(target, AttributeOpen)
    ensures Trim(EdgeText(source, target)) == EdgeText(source, target)
    ensures KindOf(EdgeText(source, target)) == EdgeStatement && EdgeOfLine(EdgeText(source, target)).None?
  {
    EdgeStatementKind(source, target);
    RootTargetDropped(source, target);
  }

  /**
   * The reading loop records an edge into `provider["…"]` with the target
   * "provider", typed as a reference.
   */
  lemma DotCutsProviderEdge(st: DotState, source: string, target: string)
    requires PlainId(source) && !StartsWith(source, ProviderBracket) && !StartsWith(source, ModulePrefix)
    requires PlainId(target) && StartsWith(target, ProviderBracket) && !Contains(target, AttributeOpen)
    ensures DotStep(st, EdgeText(source, target))
            == st.(edges := st.edges + [GraphEdge(source, ProviderName, Reference)])
  {
    EdgeStatementKind(source, target);
    ProviderTargetTruncated(source, target);
  }

  function Maybe<T>(o: Option<T>): seq<T> {
    if o.Some? then [o.value] else []
  }

  /** The state after the given lines. */
  function DotOf(lines: seq<string>): DotState {
    if |lines| == 0 then EmptyDot else DotStep(DotOf(lines[..|lines| - 1]), lines[|lines| - 1])
  }

  /** Every id is listed once, exactly the ids of the map are listed, and each node sits under its own id. */
  ghost predicate DotWellFormed(st: DotState) {
    (forall k :: k in st.nodeMap <==> k in st.order)
    && (forall i, j :: 0 <= i < j < |st.order| ==> st.order[i] != st.order[j])
    && (forall k :: k in st.nodeMap ==> st.nodeMap[k].id == k)
  }

  lemma DefineWellFormed(st: DotState, n: GraphNode)
    requires DotWellFormed(st)
    ensures DotWellFormed(Define(st, n))
  {
  }

  lemma DotStepWellFormed(st: DotState, raw: string)
    requires DotWellFormed(st)
    ensures DotWellFormed(DotStep(st, raw))
  {
    var line := Trim(raw);
    match KindOf(line) {
      case NodeStatement =>
        if ParseNodeLine(line).Some? {
          DefineWellFormed(st, ParseNodeLine(line).value);
        }
      case BareNode =>
        var id := TrimMatches(line, '"');
        if id !in st.nodeMap {
          DefineWellFormed(st, CreateNode(id, id));
        }
      case _ =>
    }
  }

  lemma {:induction false} DotOfWellFormed(lines: seq<string>)
    ensures DotWellFormed(DotOf(lines))
  {
    if |lines| > 0 {
      DotOfWellFormed(lines[..|lines| - 1]);
      DotStepWellFormed(DotOf(lines[..|lines| - 1]), lines[|lines| - 1]);
    }
  }

  /** The edge a line contributes, if any. */
  predicate YieldsEdge(raw: string, e: GraphEdge) {
    EdgeOfLine(raw) == Some(e)
  }

  /** The id a line declares a node for, if any. */
  predicate DeclaresNode(raw: string, id: string) {
    var line := Trim(raw);
    (KindOf(line) == NodeStatement && ParseNodeLine(line).Some? && ParseNodeLine(line).value.id == id)
    || (KindOf(line) == BareNode && TrimMatches(line, '"') == id)
  }

  /**
   * The edges are exactly those of the edge statements that parse, one
   * per line at most.
   */
  lemma {:induction false} DotEdges(lines: seq<string>)
    ensures |DotOf(lines).edges| <= |lines|
    ensures forall e :: e in DotOf(lines).edges <==> exists i :: 0 <= i < |lines| && YieldsEdge(lines[i], e)
  {
    DotOfEdges(lines);
    EdgesOfSpec(lines);
  }

  /** The edges of the lines, in order. */
  function EdgesOf(lines: seq<string>): seq<GraphEdge> {
    if |lines| == 0 then [] else EdgesOf(lines[..|lines| - 1]) + Maybe(EdgeOfLine(lines[|lines| - 1]))
  }

  lemma {:induction false} DotOfEdges(lines: seq<string>)
    ensures DotOf(lines).edges == EdgesOf(lines)
  {
    if |lines| > 0 {
      DotOfEdges(lines[..|lines| - 1]);
      StepEdge(DotOf(lines[..|lines| - 1]), lines[|lines| - 1]);
    }
  }

  lemma StepEdge(st: DotState, raw: string)
    ensures DotStep(st, raw).edges == st.edges + Maybe(EdgeOfLine(raw))
  {
  }

  lemma {:induction false} EdgesOfSpec(lines: seq<string>)
    ensures |EdgesOf(lines)| <= |lines|
    ensures forall e :: e in EdgesOf(lines) <==> exists i :: 0 <= i < |lines| && YieldsEdge(lines[i], e)
  {
    if |lines| > 0 {
      var init := lines[..|lines| - 1];
      var last := lines[|lines| - 1];
      EdgesOfSpec(init);
      forall e ensures e in EdgesOf(lines) <==> exists i :: 0 <= i < |lines| && YieldsEdge(lines[i], e) {
        ExistsSnoc(lines, init, raw => YieldsEdge(raw, e));
        assert e in Maybe(EdgeOfLine(last)) <==> YieldsEdge(last, e);
      }
    }
  }

  lemma ExistsSnoc<T>(s: seq<T>, init: seq<T>, p: T -> bool)
    requires |s| > 0 && init == s[..|s| - 1]
    ensures (exists i :: 0 <= i < |s| && p(s[i])) <==> (exists i :: 0 <= i < |init| && p(init[i])) || p(s[|s| - 1])
  {
    if exists i :: 0 <= i < |s| && p(s[i]) {
      var i :| 0 <= i < |s| && p(s[i]);
      if i < |init| {
        assert init[i] == s[i];
      }
    }
    if exists i :: 0 <= i < |init| && p(init[i]) {
      var i :| 0 <= i < |init| && p(init[i]);
      assert s[i] == init[i];
    }
  }

  lemma StepNodes(st: DotState, raw: string)
    ensures forall id :: id in DotStep(st, raw).nodeMap <==> id in st.nodeMap || DeclaresNode(raw, id)
  {
  }

  /** An id is in the node map exactly when some line declares it. */
  lemma {:induction false} DotNodes(lines: seq<string>)
    ensures forall id :: id in DotOf(lines).nodeMap <==> exists i :: 0 <= i < |lines| && DeclaresNode(lines[i], id)
  {
    if |lines| > 0 {
      var init := lines[..|lines| - 1];
      DotNodes(init);
      var last := lines[|lines| - 1];
      StepNodes(DotOf(init), last);
      forall id ensures (exists i :: 0 <= i < |lines| && DeclaresNode(lines[i], id))
                       <==> (exists i :: 0 <= i < |init| && DeclaresNode(init[i], id)) || DeclaresNode(last, id) {
        ExistsSnoc(lines, init, raw => DeclaresNode(raw, id));
      }
    }
  }

  /** A node statement replaces whatever the map held for its id. */
  lemma DefinitionReplaces(st: DotState, raw: string)
    requires KindOf(Trim(raw)) == NodeStatement && ParseNodeLine(Trim(raw)).Some?
    ensures var n := ParseNodeLine(Trim(raw)).value;
      n.id in DotStep(st, raw).nodeMap && DotStep(st, raw).nodeMap[n.id] == n
  {
  }

  /**
   * A bare `"id"` line adds the node with its id as label only when the id
   * is new: it never replaces a node that is already there.
   */
  lemma BareIdKeeps(st: DotState, raw: string)
    requires KindOf(Trim(raw)) == BareNode
    ensures var id := TrimMatches(Trim(raw), '"');
      && (id in st.nodeMap ==> DotStep(st, raw) == st)
      && (id !in st.nodeMap ==> DotStep(st, raw).nodeMap == st.nodeMap[id := CreateNode(id, id)])
  {
  }

  /** The body of the reading loop, on the map, the id order and the edges. */
  method ReadLine(nodeMap: map<string, GraphNode>, order: seq<string>, edges: seq<GraphEdge>, raw: string)
    returns (nodeMapOut: map<string, GraphNode>, orderOut: seq<string>, edgesOut: seq<GraphEdge>)
    ensures DotState(nodeMapOut, orderOut, edgesOut) == DotStep(DotState(nodeMap, order, edges), raw)
  {
    nodeMapOut, orderOut, edgesOut := nodeMap, order, edges;
    var line := Trim(raw);
    var kind := KindOf(line);
    if kind == EdgeStatement {
      var edge := EdgeOfLine(raw);
      if edge.Some? {
        edgesOut := edges + [edge.value];
      }
    } else if kind == NodeStatement {
      var parsed := ParseNodeLine(line);
      if parsed.Some? {
        var n := parsed.value;
        if n.id !in nodeMap {
          orderOut := order + [n.id];
        }
        nodeMapOut := nodeMap[n.id := n];
      }
    } else if kind == BareNode {
      var id := TrimMatches(line, '"');
      if id !in nodeMap {
        orderOut := order + [id];
        nodeMapOut := nodeMap[id := CreateNode(id, id)];
      }
    }
  }

  /**
   * `parse_dot_output`: the lines of the DOT text are read one by one; the
   * nodes are the values of the node map, each id once, and the edges come
   * in the order of their lines.
   */
  method ParseDotOutput(dot: string) returns (nodes: seq<GraphNode>, edges: seq<GraphEdge>)
    ensures var st := DotOf(Lines(dot));
      && edges == st.edges
      && |nodes| == |st.order|
      && (forall i :: 0 <= i < |nodes| ==> st.order[i] in st.nodeMap && nodes[i] == st.nodeMap[st.order[i]])
    ensures forall i, j :: 0 <= i < j < |nodes| ==> nodes[i].id != nodes[j].id
  {
    var lines := Lines(dot);
    var nodeMap: map<string, GraphNode> := map[];
    var order: seq<string> := [];
    edges := [];
    for i := 0 to |lines|
      invariant DotState(nodeMap, order, edges) == DotOf(lines[..i])
    {
      assert lines[..i + 1][..i] == lines[..i];
      nodeMap, order, edges := ReadLine(nodeMap, order, edges, lines[i]);
    }
    assert lines[..|lines|] == lines;
    DotOfWellFormed(lines);
    nodes := NodesInOrder(nodeMap, order);
  }

  /**
   * `nodes.extend(node_map.into_values())`. The map's iteration order is
   * unspecified; the model fixes it to the order in which ids were first
   * inserted.
   */
  method NodesInOrder(nodeMap: map<string, GraphNode>, order: seq<string>) returns (nodes: seq<GraphNode>)
    requires forall k :: k in order ==> k in nodeMap
    ensures |nodes| == |order| && forall i :: 0 <= i < |order| ==> nodes[i] == nodeMap[order[i]]
  {
    nodes := [];
    for k := 0 to |order|
      invariant |nodes| == k
      invariant forall i :: 0 <= i < k ==> nodes[i] == nodeMap[order[i]]
    {
      nodes := nodes + [nodeMap[order[k]]];
    }
  }

  // ---------------------------------------------------------------------
  // Statistics
  // ---------------------------------------------------------------------

  /** The number of nodes of kind `t`. */
  function CountType(nodes: seq<GraphNode>, t: GraphNodeType): nat {
    if |nodes| == 0 then 0
    else CountType(nodes[..|nodes| - 1], t) + (if nodes[|nodes| - 1].nodeType == t then 1 else 0)
  }

  /** A kind is counted exactly when some node has it, and never more often than there are nodes. */
  lemma {:induction false} CountTypeSpec(nodes: seq<GraphNode>, t: GraphNodeType)
    ensures CountType(nodes, t) <= |nodes|
    ensures CountType(nodes, t) > 0 <==> exists i :: 0 <= i < |nodes| && nodes[i].nodeType == t
  {
    if |nodes| > 0 {
      var init := nodes[..|nodes| - 1];
      CountTypeSpec(init, t);
      ExistsSnoc(nodes, init, (n: GraphNode) => n.nodeType == t);
    }
  }

  /** The four kinds counted are distinct, so together they never exceed the number of nodes. */
  lemma {:induction false} CountsWithinTotal(nodes: seq<GraphNode>)
    ensures CountType(nodes, Resource) + CountType(nodes, DataSource) + CountType(nodes, Module)
            + CountType(nodes, Provider) <= |nodes|
  {
    if |nodes| > 0 {
      CountsWithinTotal(nodes[..|nodes| - 1]);
    }
  }

  /**
   * `calculate_statistics`: the node and edge totals, one count per
   * counted kind, and the maximum depth.
   */
  method CalculateStatistics(nodes: seq<GraphNode>, edges: seq<GraphEdge>, fuel: nat)
    returns (stats: GraphStatistics, finished: bool)
    ensures stats.totalNodes == |nodes| && stats.totalEdges == |edges|
    ensures stats.resourceCount == CountType(nodes, Resource)
    ensures stats.dataSourceCount == CountType(nodes, DataSource)
    ensures stats.moduleCount == CountType(nodes, Module)
    ensures stats.providerCount == CountType(nodes, Provider)
    ensures stats.maxDepth == 0 || exists p :: IsRootPath(RootIds(nodes), AdjOf(edges), p) && |p| == stats.maxDepth + 1
    ensures finished ==> forall p :: IsRootPath(RootIds(nodes), AdjOf(edges), p) ==> |p| <= stats.maxDepth + 1
  {
    var resourceCount, dataSourceCount, moduleCount, providerCount := 0, 0, 0, 0;
    for i := 0 to |nodes|
      invariant resourceCount == CountType(nodes[..i], Resource)
      invariant dataSourceCount == CountType(nodes[..i], DataSource)
      invariant moduleCount == CountType(nodes[..i], Module)
      invariant providerCount == CountType(nodes[..i], Provider)
    {
      assert nodes[..i + 1][..i] == nodes[..i];
      match nodes[i].nodeType {
        case Resource => resourceCount := resourceCount + 1;
        case DataSource => dataSourceCount := dataSourceCount + 1;
        case Module => moduleCount := moduleCount + 1;
        case Provider => providerCount := providerCount + 1;
        case _ =>
      }
    }
    assert nodes[..|nodes|] == nodes;
    var maxDepth;
    maxDepth, finished := CalculateMaxDepth(nodes, edges, fuel);
    stats := GraphStatistics(|nodes|, |edges|, resourceCount, dataSourceCount, moduleCount, providerCount, maxDepth);
  }

  // ---------------------------------------------------------------------
  // Maximum depth
  // ---------------------------------------------------------------------

  /** The targets recorded for `n`, in edge order. */
  function Succ(adj: map<string, seq<string>>, n: string): seq<string> {
    if n in adj then adj[n] else []
  }

  /** The adjacency list: `adj.entry(from).or_default().push(to)` for every edge in order. */
  function AdjOf(edges: seq<GraphEdge>): map<string, seq<string>> {
    if |edges| == 0 then map[]
    else
      var adj := AdjOf(edges[..|edges| - 1]);
      var e := edges[|edges| - 1];
      adj[e.source := Succ(adj, e.source) + [e.target]]
  }

  /** `b` is a successor of `a` exactly when some edge leads from `a` to `b`. */
  lemma {:induction false} AdjOfSpec(edges: seq<GraphEdge>)
    ensures forall a, b :: b in Succ(AdjOf(edges), a) <==> exists e :: e in edges && e.source == a && e.target == b
  {
    if |edges| > 0 {
      var init := edges[..|edges| - 1];
      var last := edges[|edges| - 1];
      AdjOfSpec(init);
      assert edges == init + [last];
      forall a, b ensures b in Succ(AdjOf(edges), a) <==> exists e :: e in edges && e.source == a && e.target == b {
        if a == last.source {
          assert Succ(AdjOf(edges), a) == Succ(AdjOf(init), a) + [last.target];
        } else {
          assert Succ(AdjOf(edges), a) == Succ(AdjOf(init), a);
        }
        if exists e :: e in edges && e.source == a && e.target == b {
          var e :| e in edges && e.source == a && e.target == b;
          assert e in init || e == last;
        }
      }
    }
  }

  method BuildAdjacency(edges: seq<GraphEdge>) returns (adj: map<string, seq<string>>)
    ensures adj == AdjOf(edges)
  {
    adj := map[];
    for i := 0 to |edges|
      invariant adj == AdjOf(edges[..i])
    {
      assert edges[..i + 1][..i] == edges[..i];
      var e := edges[i];
      var targets := if e.source in adj then adj[e.source] else [];
      adj := adj[e.source := targets + [e.target]];
    }
    assert edges[..|edges|] == edges;
  }

  /** The nodes the depth search starts from: the root kind, or an id mentioning "[root]". */
  predicate IsRootNode(n: GraphNode) {
    n.nodeType == Root || Contains(n.id, RootTag)
  }

  function RootIds(nodes: seq<GraphNode>): seq<string> {
    if |nodes| == 0 then []
    else RootIds(nodes[..|nodes| - 1]) + (if IsRootNode(nodes[|nodes| - 1]) then [nodes[|nodes| - 1].id] else [])
  }

  /** The starting points are exactly the ids of the root nodes. */
  lemma {:induction false} RootIdsSpec(nodes: seq<GraphNode>)
    ensures forall r :: r in RootIds(nodes) <==> exists n :: n in nodes && IsRootNode(n) && n.id == r
  {
    if |nodes| > 0 {
      RootIdsSpec(nodes[..|nodes| - 1]);
      assert nodes == nodes[..|nodes| - 1] + [nodes[|nodes| - 1]];
    }
  }

  /** A walk along the adjacency list. */
  ghost predicate IsPath(adj: map<string, seq<string>>, p: seq<string>) {
    |p| > 0 && forall i :: 0 <= i < |p| - 1 ==> p[i + 1] in Succ(adj, p[i])
  }

  ghost predicate IsRootPath(roots: seq<string>, adj: map<string, seq<string>>, p: seq<string>) {
    IsPath(adj, p) && p[0] in roots
  }

  lemma PathSnoc(adj: map<string, seq<string>>, p: seq<string>, m: string)
    requires IsPath(adj, p) && m in Succ(adj, p[|p| - 1])
    ensures IsPath(adj, p + [m])
  {
    var q := p + [m];
    forall i | 0 <= i < |q| - 1 ensures q[i + 1] in Succ(adj, q[i]) {
      if i < |p| - 1 {
        assert q[i] == p[i] && q[i + 1] == p[i + 1];
      }
    }
  }

  lemma PathJoin(adj: map<string, seq<string>>, a: seq<string>, b: seq<string>)
    requires IsPath(adj, a) && IsPath(adj, b) && b[0] == a[|a| - 1]
    ensures IsPath(adj, a + b[1..])
  {
    var q := a + b[1..];
    forall i | 0 <= i < |q| - 1 ensures q[i + 1] in Succ(adj, q[i]) {
      if i < |a| - 1 {
        assert q[i] == a[i] && q[i + 1] == a[i + 1];
      } else {
        var j := i - |a| + 1;
        assert q[i] == b[j] && q[i + 1] == b[j + 1];
      }
    }
  }

  /** Every visited node's successors are pending or were reached at least one level deeper. */
  ghost predicate Closed(adj: map<string, seq<string>>, visited: map<string, nat>, queue: seq<(string, nat)>) {
    forall n, m {:trigger m in Succ(adj, n)} :: n in visited && m in Succ(adj, n) ==>
      (m, visited[n] + 1) in queue || (m in visited && visited[m] >= visited[n] + 1)
  }

  /** Each recorded depth is the length of a walk from a root. */
  ghost predicate Witnessed(roots: seq<string>, adj: map<string, seq<string>>, visited: map<string, nat>,
                            walkTo: map<string, seq<string>>) {
    forall n :: n in visited ==>
      n in walkTo && IsRootPath(roots, adj, walkTo[n]) && |walkTo[n]| == visited[n] + 1
      && walkTo[n][|walkTo[n]| - 1] == n
  }

  /** Each pending (node, depth) comes with a walk from a root of that length. */
  ghost predicate Trails(roots: seq<string>, adj: map<string, seq<string>>, queue: seq<(string, nat)>,
                         trails: seq<seq<string>>) {
    |trails| == |queue|
    && forall k :: 0 <= k < |queue| ==>
      IsRootPath(roots, adj, trails[k]) && |trails[k]| == queue[k].1 + 1 && trails[k][|trails[k]| - 1] == queue[k].0
  }

  /** What the search keeps true between steps. */
  ghost predicate SearchInv(roots: seq<string>, adj: map<string, seq<string>>, visited: map<string, nat>,
                            walkTo: map<string, seq<string>>, queue: seq<(string, nat)>, trails: seq<seq<string>>,
                            maxDepth: nat) {
    Closed(adj, visited, queue) && Witnessed(roots, adj, visited, walkTo) && Trails(roots, adj, queue, trails)
    && (forall n :: n in visited ==> visited[n] <= maxDepth)
    && (maxDepth == 0 || exists p :: IsRootPath(roots, adj, p) && |p| == maxDepth + 1)
  }

  /** The entries under the top of the stack keep their walks, and the top one has its own. */
  lemma TrailsPop(roots: seq<string>, adj: map<string, seq<string>>, rest: seq<(string, nat)>,
                  restTrails: seq<seq<string>>, node: string, depth: nat, trail: seq<string>)
    requires Trails(roots, adj, rest + [(node, depth)], restTrails + [trail])
    ensures Trails(roots, adj, rest, restTrails)
    ensures IsRootPath(roots, adj, trail) && |trail| == depth + 1 && trail[|trail| - 1] == node
  {
    var q := rest + [(node, depth)];
    var t := restTrails + [trail];
    assert q[|rest|] == (node, depth) && t[|rest|] == trail;
    forall k | 0 <= k < |rest|
      ensures IsRootPath(roots, adj, restTrails[k]) && |restTrails[k]| == rest[k].1 + 1
              && restTrails[k][|restTrails[k]| - 1] == rest[k].0
    {
      assert q[k] == rest[k] && t[k] == restTrails[k];
    }
  }

  /** Popping a node already reached at least as deep only drops it. */
  lemma SkipStep(roots: seq<string>, adj: map<string, seq<string>>, visited: map<string, nat>,
                 walkTo: map<string, seq<string>>, queue: seq<(string, nat)>, trails: seq<seq<string>>, maxDepth: nat)
    requires SearchInv(roots, adj, visited, walkTo, queue, trails, maxDepth) && |queue| > 0
    requires queue[|queue| - 1].0 in visited && visited[queue[|queue| - 1].0] >= queue[|queue| - 1].1
    ensures SearchInv(roots, adj, visited, walkTo, queue[..|queue| - 1], trails[..|trails| - 1], maxDepth)
  {
    var (node, depth) := queue[|queue| - 1];
    var rest, restTrails := queue[..|queue| - 1], trails[..|trails| - 1];
    assert queue == rest + [(node, depth)];
    assert trails == restTrails + [trails[|trails| - 1]];
    ClosedAfterSkip(adj, visited, rest, node, depth);
    TrailsPop(roots, adj, rest, restTrails, node, depth, trails[|trails| - 1]);
  }

  lemma WitnessedAfterVisit(roots: seq<string>, adj: map<string, seq<string>>, visited: map<string, nat>,
                            walkTo: map<string, seq<string>>, node: string, depth: nat, trail: seq<string>)
    requires Witnessed(roots, adj, visited, walkTo)
    requires IsRootPath(roots, adj, trail) && |trail| == depth + 1 && trail[|trail| - 1] == node
    ensures Witnessed(roots, adj, visited[node := depth], walkTo[node := trail])
  {
  }

  /** Popping a node reached deeper than before records it and schedules its successors one level down. */
  lemma VisitStep(roots: seq<string>, adj: map<string, seq<string>>, visited: map<string, nat>,
                  walkTo: map<string, seq<string>>, queue: seq<(string, nat)>, trails: seq<seq<string>>, maxDepth: nat,
                  node: string, depth: nat, trail: seq<string>)
    requires SearchInv(roots, adj, visited, walkTo, queue, trails, maxDepth) && |queue| > 0
    requires queue[|queue| - 1] == (node, depth) && trail == trails[|trails| - 1]
    requires !(node in visited && visited[node] >= depth)
    ensures SearchInv(roots, adj, visited[node := depth], walkTo[node := trail],
                      queue[..|queue| - 1] + Tagged(Succ(adj, node), depth + 1),
                      trails[..|trails| - 1] + Extended(trail, Succ(adj, node)),
                      if depth > maxDepth then depth else maxDepth)
  {
    var rest, restTrails := queue[..|queue| - 1], trails[..|trails| - 1];
    assert queue == rest + [(node, depth)];
    assert trails == restTrails + [trail];
    TrailsPop(roots, adj, rest, restTrails, node, depth, trail);
    ClosedAfterVisit(adj, visited, rest, node, depth);
    TrailsExtend(roots, adj, rest, restTrails, trail, node, depth);
    WitnessedAfterVisit(roots, adj, visited, walkTo, node, depth, trail);
    DeepestAfterVisit(roots, adj, visited, visited[node := depth], maxDepth, node, depth, trail);
  }

  /** The deepest level seen so far still bounds every visit and is reached by a walk from a root. */
  lemma DeepestAfterVisit(roots: seq<string>, adj: map<string, seq<string>>, visited: map<string, nat>,
                          visited': map<string, nat>, maxDepth: nat, node: string, depth: nat, trail: seq<string>)
    requires forall n :: n in visited ==> visited[n] <= maxDepth
    requires visited' == visited[node := depth]
    requires maxDepth == 0 || exists p :: IsRootPath(roots, adj, p) && |p| == maxDepth + 1
    requires IsRootPath(roots, adj, trail) && |trail| == depth + 1
    ensures var m := if depth > maxDepth then depth else maxDepth;
      (forall n :: n in visited' ==> visited'[n] <= m)
      && (m == 0 || exists p :: IsRootPath(roots, adj, p) && |p| == m + 1)
  {
  }

  function Tagged(ns: seq<string>, d: nat): (r: seq<(string, nat)>)
    ensures |r| == |ns| && forall k :: 0 <= k < |ns| ==> r[k] == (ns[k], d)
  {
    seq(|ns|, k requires 0 <= k < |ns| => (ns[k], d))
  }

  ghost function Extended(trail: seq<string>, ns: seq<string>): (r: seq<seq<string>>)
    ensures |r| == |ns| && forall k :: 0 <= k < |ns| ==> r[k] == trail + [ns[k]]
  {
    seq(|ns|, k requires 0 <= k < |ns| => trail + [ns[k]])
  }

  lemma ClosedAfterSkip(adj: map<string, seq<string>>, visited: map<string, nat>, queue: seq<(string, nat)>,
                        node: string, depth: nat)
    requires Closed(adj, visited, queue + [(node, depth)])
    requires node in visited && visited[node] >= depth
    ensures Closed(adj, visited, queue)
  {
    forall n, m | n in visited && m in Succ(adj, n)
      ensures (m, visited[n] + 1) in queue || (m in visited && visited[m] >= visited[n] + 1)
    {
      assert (m, visited[n] + 1) in queue + [(node, depth)] || (m in visited && visited[m] >= visited[n] + 1);
    }
  }

  lemma ClosedAfterVisit(adj: map<string, seq<string>>, visited: map<string, nat>, queue: seq<(string, nat)>,
                         node: string, depth: nat)
    requires Closed(adj, visited, queue + [(node, depth)])
    requires !(node in visited && visited[node] >= depth)
    ensures Closed(adj, visited[node := depth], queue + Tagged(Succ(adj, node), depth + 1))
  {
    var v := visited[node := depth];
    var q := queue + Tagged(Succ(adj, node), depth + 1);
    forall n, m | n in v && m in Succ(adj, n)
      ensures (m, v[n] + 1) in q || (m in v && v[m] >= v[n] + 1)
    {
      if n == node {
        var k :| 0 <= k < |Succ(adj, node)| && Succ(adj, node)[k] == m;
        assert q[|queue| + k] == (m, depth + 1);
      } else {
        assert (m, visited[n] + 1) in queue + [(node, depth)] || (m in visited && visited[m] >= visited[n] + 1);
        if (m, visited[n] + 1) in queue {
          assert (m, v[n] + 1) in q;
        }
      }
    }
  }

  lemma TrailsExtend(roots: seq<string>, adj: map<string, seq<string>>, queue: seq<(string, nat)>,
                     trails: seq<seq<string>>, trail: seq<string>, node: string, depth: nat)
    requires Trails(roots, adj, queue, trails)
    requires IsRootPath(roots, adj, trail) && |trail| == depth + 1 && trail[|trail| - 1] == node
    ensures Trails(roots, adj, queue + Tagged(Succ(adj, node), depth + 1), trails + Extended(trail, Succ(adj, node)))
  {
    var ns := Succ(adj, node);
    var q := queue + Tagged(ns, depth + 1);
    var t := trails + Extended(trail, ns);
    forall k | 0 <= k < |q|
      ensures IsRootPath(roots, adj, t[k]) && |t[k]| == q[k].1 + 1 && t[k][|t[k]| - 1] == q[k].0
    {
      if k >= |queue| {
        var j := k - |queue|;
        assert ns[j] in ns;
        PathSnoc(adj, trail, ns[j]);
        assert t[k] == trail + [ns[j]] && q[k] == (ns[j], depth + 1);
      } else {
        assert t[k] == trails[k] && q[k] == queue[k];
      }
    }
  }

  /** Once the search is closed with every root visited, each walk from a root ends no shallower than its length. */
  lemma {:induction false} ClosedReach(roots: seq<string>, adj: map<string, seq<string>>, visited: map<string, nat>,
                                       p: seq<string>)
    requires Closed(adj, visited, []) && (forall k :: 0 <= k < |roots| ==> roots[k] in visited)
    requires IsRootPath(roots, adj, p)
    ensures p[|p| - 1] in visited && visited[p[|p| - 1]] >= |p| - 1
    decreases |p|
  {
    if |p| > 1 {
      var q := p[..|p| - 1];
      assert IsRootPath(roots, adj, q) by {
        forall i | 0 <= i < |q| - 1 ensures q[i + 1] in Succ(adj, q[i]) {
          assert q[i] == p[i] && q[i + 1] == p[i + 1];
        }
      }
      ClosedReach(roots, adj, visited, q);
      assert p[|p| - 1] in Succ(adj, p[|p| - 2]);
    } else {
      var k :| 0 <= k < |roots| && roots[k] == p[0];
    }
  }

  /**
   * `calculate_max_depth`: a depth-first walk from each root in turn,
   * sharing one map of the deepest level each node was reached at; a node
   * is walked again whenever it is reached deeper than before.  The walk
   * is bounded by `fuel` steps; `finished` says it ended by itself.  The
   * result is the length of some walk from a root, and once finished no
   * walk from a root is longer.
   */
  method CalculateMaxDepth(nodes: seq<GraphNode>, edges: seq<GraphEdge>, fuel: nat)
    returns (maxDepth: nat, finished: bool)
    ensures maxDepth == 0 || exists p :: IsRootPath(RootIds(nodes), AdjOf(edges), p) && |p| == maxDepth + 1
    ensures finished ==> forall p :: IsRootPath(RootIds(nodes), AdjOf(edges), p) ==> |p| <= maxDepth + 1
    ensures |RootIds(nodes)| == 0 ==> finished && maxDepth == 0
  {
    var adj := BuildAdjacency(edges);
    var roots := RootIds(nodes);
    maxDepth := 0;
    finished := true;
    var visited: map<string, nat> := map[];
    ghost var walkTo: map<string, seq<string>> := map[];
    var steps := fuel;
    for r := 0 to |roots|
      invariant SearchInv(roots, adj, visited, walkTo, [], [], maxDepth)
      invariant forall k :: 0 <= k < r ==> roots[k] in visited
      invariant finished
    {
      var done;
      visited, walkTo, maxDepth, steps, done := WalkFrom(roots, adj, r, visited, walkTo, maxDepth, steps);
      if !done {
        finished := false;
        return;
      }
    }
    Completeness(roots, adj, visited, walkTo, maxDepth);
  }

  /** One pop of the stack: a node reached no deeper than before is dropped, otherwise it is recorded and its successors pushed. */
  method SearchStep(roots: seq<string>, adj: map<string, seq<string>>, visited: map<string, nat>,
                    ghost walkTo: map<string, seq<string>>, queue: seq<(string, nat)>, ghost trails: seq<seq<string>>,
                    maxDepth: nat)
    returns (visitedOut: map<string, nat>, ghost walkOut: map<string, seq<string>>, queueOut: seq<(string, nat)>,
             ghost trailsOut: seq<seq<string>>, maxOut: nat)
    requires SearchInv(roots, adj, visited, walkTo, queue, trails, maxDepth) && |queue| > 0
    ensures SearchInv(roots, adj, visitedOut, walkOut, queueOut, trailsOut, maxOut)
    ensures |trailsOut| == |queueOut|
    ensures forall n :: n in visited ==> n in visitedOut
    ensures queue[|queue| - 1].0 in visitedOut
  {
    var (node, depth) := queue[|queue| - 1];
    if node in visited && visited[node] >= depth {
      SkipStep(roots, adj, visited, walkTo, queue, trails, maxDepth);
      visitedOut, walkOut, maxOut := visited, walkTo, maxDepth;
      queueOut, trailsOut := queue[..|queue| - 1], trails[..|trails| - 1];
    } else {
      ghost var trail := trails[|trails| - 1];
      VisitStep(roots, adj, visited, walkTo, queue, trails, maxDepth, node, depth, trail);
      visitedOut := visited[node := depth];
      walkOut := walkTo[node := trail];
      maxOut := if depth > maxDepth then depth else maxDepth;
      queueOut := queue[..|queue| - 1] + Tagged(Succ(adj, node), depth + 1);
      trailsOut := trails[..|trails| - 1] + Extended(trail, Succ(adj, node));
    }
  }

  /**
   * The walk from `roots[r]`: the stack starts with the root at depth 0
   * and each step pops its top entry.  `done` says the stack emptied
   * before the steps ran out.
   */
  method WalkFrom(roots: seq<string>, adj: map<string, seq<string>>, r: nat, visited: map<string, nat>,
                  ghost walkTo: map<string, seq<string>>, maxDepth: nat, steps: nat)
    returns (visitedOut: map<string, nat>, ghost walkOut: map<string, seq<string>>, maxOut: nat, stepsOut: nat,
             done: bool)
    requires r < |roots| && SearchInv(roots, adj, visited, walkTo, [], [], maxDepth)
    requires forall k :: 0 <= k < r ==> roots[k] in visited
    ensures maxOut == 0 || exists p :: IsRootPath(roots, adj, p) && |p| == maxOut + 1
    ensures done ==> SearchInv(roots, adj, visitedOut, walkOut, [], [], maxOut)
    ensures done ==> forall k :: 0 <= k <= r ==> roots[k] in visitedOut
  {
    visitedOut, walkOut, maxOut, stepsOut := visited, walkTo, maxDepth, steps;
    var queue: seq<(string, nat)> := [(roots[r], 0)];
    ghost var trails: seq<seq<string>> := [[roots[r]]];
    RootStart(roots, adj, visited, walkTo, r, maxDepth);
    while |queue| > 0 && stepsOut > 0
      invariant SearchInv(roots, adj, visitedOut, walkOut, queue, trails, maxOut)
      invariant forall k :: 0 <= k < r ==> roots[k] in visitedOut
      invariant roots[r] in visitedOut || (|queue| == 1 && queue[0].0 == roots[r])
      invariant |trails| == |queue|
      decreases stepsOut
    {
      stepsOut := stepsOut - 1;
      visitedOut, walkOut, queue, trails, maxOut := SearchStep(roots, adj, visitedOut, walkOut, queue, trails, maxOut);
    }
    done := |queue| == 0;
  }

  lemma Completeness(roots: seq<string>, adj: map<string, seq<string>>, visited: map<string, nat>,
                     walkTo: map<string, seq<string>>, maxDepth: nat)
    requires SearchInv(roots, adj, visited, walkTo, [], [], maxDepth)
    requires forall k :: 0 <= k < |roots| ==> roots[k] in visited
    ensures forall p :: IsRootPath(roots, adj, p) ==> |p| <= maxDepth + 1
  {
    forall p | IsRootPath(roots, adj, p) ensures |p| <= maxDepth + 1 {
      ClosedReach(roots, adj, visited, p);
    }
  }

  lemma RootStart(roots: seq<string>, adj: map<string, seq<string>>, visited: map<string, nat>,
                  walkTo: map<string, seq<string>>, r: nat, maxDepth: nat)
    requires r < |roots| && SearchInv(roots, adj, visited, walkTo, [], [], maxDepth)
    ensures SearchInv(roots, adj, visited, walkTo, [(roots[r], 0)], [[roots[r]]], maxDepth)
  {
    assert roots[r] in roots;
  }

  /** Some walk from a root reaches a cycle. */
  ghost predicate ReachesCycle(roots: seq<string>, adj: map<string, seq<string>>) {
    exists p, c :: IsRootPath(roots, adj, p) && IsPath(adj, c) && |c| >= 2 && c[0] == p[|p| - 1] && c[|c| - 1] == p[|p| - 1]
  }

  lemma {:induction false} Pump(roots: seq<string>, adj: map<string, seq<string>>, p: seq<string>, c: seq<string>, k: nat)
    returns (q: seq<string>)
    requires IsRootPath(roots, adj, p) && IsPath(adj, c) && |c| >= 2 && c[0] == p[|p| - 1] && c[|c| - 1] == p[|p| - 1]
    ensures IsRootPath(roots, adj, q) && q[|q| - 1] == p[|p| - 1] && |q| >= |p| + k
  {
    if k == 0 {
      q := p;
    } else {
      var shorter := Pump(roots, adj, p, c, k - 1);
      PathJoin(adj, shorter, c);
      q := shorter + c[1..];
      assert q[0] == shorter[0];
    }
  }

  /**
   * Once a root reaches a cycle there are walks from a root longer than
   * any bound, so `CalculateMaxDepth` never finishes: the depth-first walk
   * of the source goes round the cycle for ever.
   */
  lemma CycleUnbounded(roots: seq<string>, adj: map<string, seq<string>>, bound: nat)
    requires ReachesCycle(roots, adj)
    ensures exists q :: IsRootPath(roots, adj, q) && |q| > bound
  {
    var p, c :| IsRootPath(roots, adj, p) && IsPath(adj, c) && |c| >= 2 && c[0] == p[|p| - 1] && c[|c| - 1] == p[|p| - 1];
    var q := Pump(roots, adj, p, c, bound);
  }

  // ---------------------------------------------------------------------
  // Generating the graph
  // ---------------------------------------------------------------------

  const GraphCommand := "graph"
  const TypeFlag := "-type="

  /** The arguments of `terraform graph`, with the `-type=` filter when one is asked for. */
  function GraphArgs(graphType: Option<GraphType>): (r: seq<string>)
    ensures |r| >= 1 && r[0] == GraphCommand
    ensures |r| == 1 <==> graphType.None?
  {
    match graphType
    case None => [GraphCommand]
    case Some(Plan) => [GraphCommand, TypeFlag + PlanText]
    case Some(Apply) => [GraphCommand, TypeFlag + ApplyText]
  }

  /** The `-type=` argument names the graph type in the form `ParseGraphType` reads back. */
  lemma GraphArgsRoundTrip(graphType: GraphType)
    ensures |GraphArgs(Some(graphType))| == 2
    ensures var arg := GraphArgs(Some(graphType))[1];
      StartsWith(arg, TypeFlag) && ParseGraphType(arg[|TypeFlag|..]) == Ok(graphType)
  {
    var arg := GraphArgs(Some(graphType))[1];
    var name := if graphType == Plan then PlanText else ApplyText;
    assert arg == TypeFlag + name;
    assert arg[|TypeFlag|..] == name;
    LowerId(name);
  }

  /**
   * `generate_graph`, given what `terraform graph` printed: a failed run
   * is an error carrying its stderr; otherwise the DOT text is read into
   * nodes and edges and the statistics are computed over them.
   */
  method GenerateGraph(out: CmdOutput, fuel: nat) returns (r: Result<TerraformGraph, string>, finished: bool)
    ensures !out.success ==> r == Err("Failed to generate graph: " + out.stderr)
    ensures out.success ==> r.Ok? && r.value.dotOutput == out.stdout
    ensures out.success ==> var st := DotOf(Lines(out.stdout));
      && r.value.edges == st.edges
      && |r.value.nodes| == |st.order|
      && (forall i :: 0 <= i < |r.value.nodes| ==> st.order[i] in st.nodeMap && r.value.nodes[i] == st.nodeMap[st.order[i]])
    ensures out.success ==> var g := r.value;
      && g.statistics.totalNodes == |g.nodes| && g.statistics.totalEdges == |g.edges|
      && g.statistics.resourceCount == CountType(g.nodes, Resource)
      && g.statistics.dataSourceCount == CountType(g.nodes, DataSource)
      && g.statistics.moduleCount == CountType(g.nodes, Module)
      && g.statistics.providerCount == CountType(g.nodes, Provider)
    ensures out.success ==> var g := r.value;
      && (g.statistics.maxDepth == 0
          || exists p :: IsRootPath(RootIds(g.nodes), AdjOf(g.edges), p) && |p| == g.statistics.maxDepth + 1)
      && (finished ==> forall p :: IsRootPath(RootIds(g.nodes), AdjOf(g.edges), p) ==> |p| <= g.statistics.maxDepth + 1)
  {
    finished := true;
    if !out.success {
      return Err("Failed to generate graph: " + out.stderr), finished;
    }
    var nodes, edges := ParseDotOutput(out.stdout);
    var statistics;
    statistics, finished := CalculateStatistics(nodes, edges, fuel);
    r := Ok(TerraformGraph(nodes, edges, out.stdout, statistics));
  }
}

/**
 * Post-processing of the regex matches in the HCL parser
 * (src/terraform/parser.rs).  The regexes themselves are inputs: a
 * `Matches` value holds what each pattern captures in the file's content,
 * group 0 being the whole match.  The block-field patterns are lookups by
 * block type, block name and field name.  `serde_json::from_str` is the
 * `parse` oracle.
 */
module Parser {
  import opened Wrappers
  import opened Strs
  import Json

  datatype TerraformResource = TerraformResource(resourceType: string, name: string, file: string, provider: string)

  datatype TerraformVariable = TerraformVariable(name: string, description: Option<string>, typeName: Option<string>,
                                                 default: Option<Json.Json>)

  datatype TerraformOutput = TerraformOutput(name: string, description: Option<string>, value: Option<Json.Json>)

  datatype TerraformProvider = TerraformProvider(name: string, version: Option<string>)

  /** What the patterns find in one file's content. */
  datatype Matches = Matches(
    /** `resource "T" "N"` headers: whole match, type, name. */
    resources: seq<seq<string>>,
    /** `variable "N"` headers: whole match, name. */
    variables: seq<seq<string>>,
    /** `output "N"` headers: whole match, name. */
    outputs: seq<seq<string>>,
    /** `provider "N"` headers: whole match, name. */
    providers: seq<seq<string>>,
    /** `B "N" { … F = "V"`: the quoted value V of field F in block B named N. */
    quotedField: (string, string, string) -> Option<string>,
    /** `B "N" { … F = V`: the rest of the line after `F =`, untrimmed. */
    lineField: (string, string, string) -> Option<string>,
    /** `variable "N" { … type = T`: the unquoted word T. */
    typeField: string -> Option<string>,
    /** `required_providers { … N = { … version = "V"`: the version V for provider N. */
    requiredVersion: string -> Option<string>,
    /**
     * The first `required_providers { … }` block, when there is one: its
     * `name = { … version = "V"` entries in order.
     */
    requiredBlock: Option<seq<(string, string)>>
  )

  // ---------------------------------------------------------------------
  // parse_resources
  // ---------------------------------------------------------------------

  /** `resource_type.split('_').next()`: the type up to its first '_', or all of it. */
  function ProviderOfType(resourceType: string): (r: string)
    ensures '_' !in r && |r| <= |resourceType| && r == resourceType[..|r|]
    ensures '_' !in resourceType ==> r == resourceType
  {
    FirstSegment(resourceType, '_')
  }

  /** A type whose first '_' follows `p` has provider `p`. */
  lemma ProviderOfPrefixed(p: string, rest: string)
    requires '_' !in p
    ensures ProviderOfType(p + "_" + rest) == p
  {
    var t := p + "_" + rest;
    assert t[|p|] == '_' && t[..|p|] == p;
    FirstSegmentAt(t, '_', |p|);
  }

  /** The resource one header capture stands for; a capture without both groups gives none. */
  function ResourceOf(file: string): seq<string> -> Option<TerraformResource> {
    c => if |c| >= 3 then Some(TerraformResource(c[1], c[2], file, ProviderOfType(c[1]))) else None
  }

  /** `parse_resources`: one resource per header capture, in capture order. */
  function ParseResources(m: Matches, file: string): (r: seq<TerraformResource>)
  {
    FilterMap(m.resources, ResourceOf(file))
  }

  /** Every resource carries the file name and the provider its type starts with, and comes from a capture. */
  lemma ResourcesFromCaptures(m: Matches, file: string, res: TerraformResource)
    requires res in ParseResources(m, file)
    ensures res.file == file && res.provider == ProviderOfType(res.resourceType)
    ensures exists i :: 0 <= i < |m.resources| && |m.resources[i]| >= 3
                        && m.resources[i][1] == res.resourceType && m.resources[i][2] == res.name
  {
    FilterMapMembers(m.resources, ResourceOf(file), res);
    var i :| 0 <= i < |m.resources| && ResourceOf(file)(m.resources[i]) == Some(res);
  }

  /** With both groups in every capture, the i-th resource is the i-th header's. */
  lemma ResourcesInOrder(m: Matches, file: string)
    requires forall i :: 0 <= i < |m.resources| ==> |m.resources[i]| >= 3
    ensures |ParseResources(m, file)| == |m.resources|
    ensures forall i :: 0 <= i < |m.resources| ==>
      ParseResources(m, file)[i] == TerraformResource(m.resources[i][1], m.resources[i][2], file,
                                                      ProviderOfType(m.resources[i][1]))
  {
    FilterMapTotal(m.resources, ResourceOf(file));
  }

  // ---------------------------------------------------------------------
  // Field lookups
  // ---------------------------------------------------------------------

  /** `extract_field_value`: the quoted value of a field inside the named block. */
  function FieldValue(m: Matches, name: string, blockType: string, field: string): Option<string> {
    m.quotedField(blockType, name, field)
  }

  /** `extract_field_type`: the word after `type =`, trimmed. */
  function FieldType(m: Matches, name: string): (r: Option<string>)
    ensures r.Some? <==> m.typeField(name).Some?
    ensures r.Some? ==> |r.value| <= |m.typeField(name).value|
    ensures r.Some? && r.value != [] ==> !IsSpace(r.value[0]) && !IsSpace(r.value[|r.value| - 1])
  {
    match m.typeField(name)
    case None => None
    case Some(t) => Some(Trim(t))
  }

  /**
   * `extract_field_json`: the rest of the line after `field =`, trimmed,
   * as the JSON it parses to, or as a JSON string when it does not parse.
   */
  function FieldJson(m: Matches, name: string, blockType: string, field: string, parse: string -> Option<Json.Json>)
    : (r: Option<Json.Json>)
    ensures r.Some? <==> m.lineField(blockType, name, field).Some?
  {
    match m.lineField(blockType, name, field)
    case None => None
    case Some(raw) =>
      var text := Trim(raw);
      match parse(text)
      case Some(v) => Some(v)
      case None => Some(Json.Str(text))
  }

  /** Valid JSON is kept as parsed; anything else becomes the trimmed text as a string. */
  lemma FieldJsonFallback(m: Matches, name: string, blockType: string, field: string,
                          parse: string -> Option<Json.Json>, raw: string)
    requires m.lineField(blockType, name, field) == Some(raw)
    ensures parse(Trim(raw)).Some? ==> FieldJson(m, name, blockType, field, parse) == parse(Trim(raw))
    ensures parse(Trim(raw)).None? ==> FieldJson(m, name, blockType, field, parse) == Some(Json.Str(Trim(raw)))
    ensures FieldJson(m, name, blockType, field, parse).value.Str? && parse(Trim(raw)).None? ==>
      var s := FieldJson(m, name, blockType, field, parse).value.s;
      s == [] || (!IsSpace(s[0]) && !IsSpace(s[|s| - 1]))
  {
  }

  // ---------------------------------------------------------------------
  // parse_variables and parse_outputs
  // ---------------------------------------------------------------------

  function VariableOf(m: Matches, parse: string -> Option<Json.Json>): seq<string> -> Option<TerraformVariable> {
    c => if |c| >= 2 then
           Some(TerraformVariable(c[1], FieldValue(m, c[1], "variable", "description"), FieldType(m, c[1]),
                                  FieldJson(m, c[1], "variable", "default", parse)))
         else None
  }

  /** `parse_variables`: one variable per `variable "…"` capture, in capture order. */
  function ParseVariables(m: Matches, parse: string -> Option<Json.Json>): seq<TerraformVariable> {
    FilterMap(m.variables, VariableOf(m, parse))
  }

  /**
   * Every variable comes from a capture and reads its own block's fields:
   * the description and type are absent exactly when the block has none.
   */
  lemma VariablesFromCaptures(m: Matches, parse: string -> Option<Json.Json>, v: TerraformVariable)
    requires v in ParseVariables(m, parse)
    ensures exists i :: 0 <= i < |m.variables| && |m.variables[i]| >= 2 && m.variables[i][1] == v.name
    ensures v.description.None? <==> m.quotedField("variable", v.name, "description").None?
    ensures v.typeName.None? <==> m.typeField(v.name).None?
    ensures v.default.None? <==> m.lineField("variable", v.name, "default").None?
  {
    FilterMapMembers(m.variables, VariableOf(m, parse), v);
    var i :| 0 <= i < |m.variables| && VariableOf(m, parse)(m.variables[i]) == Some(v);
  }

  /** With the name group in every capture, there is one variable per capture, in order. */
  lemma VariablesInOrder(m: Matches, parse: string -> Option<Json.Json>)
    requires forall i :: 0 <= i < |m.variables| ==> |m.variables[i]| >= 2
    ensures |ParseVariables(m, parse)| == |m.variables|
    ensures forall i :: 0 <= i < |m.variables| ==> ParseVariables(m, parse)[i].name == m.variables[i][1]
  {
    FilterMapTotal(m.variables, VariableOf(m, parse));
  }

  function OutputOf(m: Matches): seq<string> -> Option<TerraformOutput> {
    c => if |c| >= 2 then Some(TerraformOutput(c[1], FieldValue(m, c[1], "output", "description"), None)) else None
  }

  /** `parse_outputs`: one output per `output "…"` capture, in capture order, never with a value. */
  function ParseOutputs(m: Matches): seq<TerraformOutput> {
    FilterMap(m.outputs, OutputOf(m))
  }

  /** No output carries a value, and the description is absent exactly when the block has none. */
  lemma OutputsHaveNoValue(m: Matches, o: TerraformOutput)
    requires o in ParseOutputs(m)
    ensures o.value.None?
    ensures o.description == m.quotedField("output", o.name, "description")
    ensures exists i :: 0 <= i < |m.outputs| && |m.outputs[i]| >= 2 && m.outputs[i][1] == o.name
  {
    FilterMapMembers(m.outputs, OutputOf(m), o);
    var i :| 0 <= i < |m.outputs| && OutputOf(m)(m.outputs[i]) == Some(o);
  }

  /** With the name group in every capture, there is one output per capture, in order. */
  lemma OutputsInOrder(m: Matches)
    requires forall i :: 0 <= i < |m.outputs| ==> |m.outputs[i]| >= 2
    ensures |ParseOutputs(m)| == |m.outputs|
    ensures forall i :: 0 <= i < |m.outputs| ==> ParseOutputs(m)[i].name == m.outputs[i][1]
  {
    FilterMapTotal(m.outputs, OutputOf(m));
  }

  // ---------------------------------------------------------------------
  // parse_providers
  // ---------------------------------------------------------------------

  /** `extract_provider_version`: the provider block's own `version`, else the one in required_providers. */
  function ProviderVersion(m: Matches, name: string): (r: Option<string>)
    ensures m.quotedField("provider", name, "version").Some? ==> r == m.quotedField("provider", name, "version")
    ensures m.quotedField("provider", name, "version").None? ==> r == m.requiredVersion(name)
  {
    match FieldValue(m, name, "provider", "version")
    case Some(v) => Some(v)
    case None => m.requiredVersion(name)
  }

  /** `extract_required_providers`' map: one version per name, a later entry overwriting an earlier one. */
  function RequiredMap(entries: seq<(string, string)>): map<string, string> {
    if |entries| == 0 then map[]
    else RequiredMap(entries[..|entries| - 1])[entries[|entries| - 1].0 := entries[|entries| - 1].1]
  }

  /** A name is in the map iff some entry has it, and its version is that of the last such entry. */
  lemma {:induction false} RequiredMapLast(entries: seq<(string, string)>, n: string)
    ensures n in RequiredMap(entries) <==> exists i :: 0 <= i < |entries| && entries[i].0 == n
    ensures n in RequiredMap(entries) ==>
      exists i :: 0 <= i < |entries| && entries[i] == (n, RequiredMap(entries)[n])
                  && forall j :: i < j < |entries| ==> entries[j].0 != n
  {
    if |entries| > 0 {
      var init := entries[..|entries| - 1];
      RequiredMapLast(init, n);
      assert forall i :: 0 <= i < |init| ==> init[i] == entries[i];
      if n != entries[|entries| - 1].0 && n in RequiredMap(entries) {
        var i :| 0 <= i < |init| && init[i] == (n, RequiredMap(init)[n])
                 && forall j :: i < j < |init| ==> init[j].0 != n;
        assert entries[i] == (n, RequiredMap(entries)[n]);
      }
    }
  }

  /** The required providers, when the content has a required_providers block. */
  function Required(m: Matches): map<string, string> {
    match m.requiredBlock
    case None => map[]
    case Some(entries) => RequiredMap(entries)
  }

  /** The map after the provider-block loop over the first `caps`: later headers overwrite earlier ones. */
  function BlockMap(m: Matches, caps: seq<seq<string>>): map<string, TerraformProvider> {
    if |caps| == 0 then map[]
    else
      var acc := BlockMap(m, caps[..|caps| - 1]);
      var c := caps[|caps| - 1];
      if |c| >= 2 then acc[c[1] := TerraformProvider(c[1], ProviderVersion(m, c[1]))] else acc
  }

  /** A provider block's entry is keyed by its name and carries that provider's version. */
  lemma {:induction false} BlockMapSpec(m: Matches, caps: seq<seq<string>>, n: string)
    ensures n in BlockMap(m, caps) <==> exists i :: 0 <= i < |caps| && |caps[i]| >= 2 && caps[i][1] == n
    ensures n in BlockMap(m, caps) ==> BlockMap(m, caps)[n] == TerraformProvider(n, ProviderVersion(m, n))
  {
    if |caps| > 0 {
      var init := caps[..|caps| - 1];
      BlockMapSpec(m, init, n);
      assert forall i :: 0 <= i < |init| ==> init[i] == caps[i];
    }
  }

  /**
   * What `parse_providers` collects: every provider block, plus every
   * required provider that no block names, with its required version.
   */
  function ProvidersOf(m: Matches): map<string, TerraformProvider> {
    var block := BlockMap(m, m.providers);
    var req := Required(m);
    map n | n in block.Keys + req.Keys :: if n in block then block[n] else TerraformProvider(n, Some(req[n]))
  }

  /**
   * The names are exactly those of the provider blocks and of the required
   * providers, each entry is keyed by its own name, a provider block is
   * never replaced by a required_providers entry of the same name, and a
   * name only in required_providers gets the version of its last entry.
   */
  lemma ProvidersOfSpec(m: Matches, n: string)
    ensures n in ProvidersOf(m) <==>
      (exists i :: 0 <= i < |m.providers| && |m.providers[i]| >= 2 && m.providers[i][1] == n)
      || (m.requiredBlock.Some? && exists i :: 0 <= i < |m.requiredBlock.value| && m.requiredBlock.value[i].0 == n)
    ensures n in ProvidersOf(m) ==> ProvidersOf(m)[n].name == n
    ensures n in BlockMap(m, m.providers) ==> ProvidersOf(m)[n].version == ProviderVersion(m, n)
    ensures n !in BlockMap(m, m.providers) && n in ProvidersOf(m) ==>
      m.requiredBlock.Some? && exists i :: (0 <= i < |m.requiredBlock.value|
        && m.requiredBlock.value[i] == (n, ProvidersOf(m)[n].version.value)
        && forall j :: i < j < |m.requiredBlock.value| ==> m.requiredBlock.value[j].0 != n)
  {
    BlockMapSpec(m, m.providers, n);
    if m.requiredBlock.Some? {
      RequiredMapLast(m.requiredBlock.value, n);
    }
  }

  /** `parse_providers`: the provider-block loop, then the `or_insert` loop over the required providers. */
  method ParseProviders(m: Matches) returns (providers: map<string, TerraformProvider>)
    ensures providers == ProvidersOf(m)
  {
    providers := map[];
    var i := 0;
    while i < |m.providers|
      invariant 0 <= i <= |m.providers|
      invariant providers == BlockMap(m, m.providers[..i])
    {
      assert m.providers[..i + 1][..i] == m.providers[..i];
      var c := m.providers[i];
      if |c| >= 2 {
        var name := c[1];
        providers := providers[name := TerraformProvider(name, ProviderVersion(m, name))];
      }
      i := i + 1;
    }
    assert m.providers[..i] == m.providers;
    ghost var block := providers;
    if m.requiredBlock.Some? {
      var required := RequiredMap(m.requiredBlock.value);
      var todo := required.Keys;
      while todo != {}
        invariant todo <= required.Keys
        invariant providers.Keys == block.Keys + (required.Keys - todo)
        invariant forall n :: n in providers ==>
          providers[n] == if n in block then block[n] else TerraformProvider(n, Some(required[n]))
        decreases todo
      {
        var name :| name in todo;
        if name !in providers {
          providers := providers[name := TerraformProvider(name, Some(required[name]))];
        }
        todo := todo - {name};
      }
    }
  }
}

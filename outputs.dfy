/**
 * `terraform output` (src/terraform/output.rs): the type name given to a
 * JSON value, the mapping of the `-json` object onto output records, the
 * error and message selection of `get_outputs`, and the `name = value`
 * lines read by `get_outputs_simple`.  The command's outcome and the JSON
 * parser (`parse`, standing for `serde_json::from_str`, with its error
 * text) are inputs.
 */
module Outputs {
  import opened Wrappers
  import opened Strs
  import opened Json
  import opened Process

  datatype OutputValue = OutputValue(
    name: string,
    value: Json,
    valueType: string,
    sensitive: bool,
    description: Option<string>)

  datatype OutputResult = OutputResult(success: bool, outputs: seq<OutputValue>, message: string)

  /** `get_value_type`: a list is named after its first element. */
  function ValueType(v: Json): (r: string)
    ensures |r| > 0
  {
    match v
    case Null => "null"
    case Bool(_) => "bool"
    case Number(_) => "number"
    case Str(_) => "string"
    case Obj(_) => "object"
    case Arr(items) => if |items| == 0 then "list" else "list(" + ValueType(items[0]) + ")"
  }

  /** The two values have the same kind, and arrays agree on emptiness and first element's type. */
  predicate SameShape(a: Json, b: Json)
  {
    match (a, b)
    case (Null, Null) => true
    case (Bool(_), Bool(_)) => true
    case (Number(_), Number(_)) => true
    case (Str(_), Str(_)) => true
    case (Obj(_), Obj(_)) => true
    case (Arr(x), Arr(y)) =>
      (|x| == 0 && |y| == 0) || (|x| > 0 && |y| > 0 && ValueType(x[0]) == ValueType(y[0]))
    case _ => false
  }

  /** Each type name starts with the name of the value's kind. */
  lemma ValueTypeHead(v: Json)
    ensures v.Null? <==> ValueType(v) == "null"
    ensures v.Bool? <==> ValueType(v) == "bool"
    ensures v.Number? <==> ValueType(v) == "number"
    ensures v.Str? <==> ValueType(v) == "string"
    ensures v.Obj? <==> ValueType(v) == "object"
    ensures v.Arr? <==> (ValueType(v) == "list" || (|ValueType(v)| > 5 && ValueType(v)[..5] == "list("))
  {
    var r := ValueType(v);
    if v.Arr? && |v.items| > 0 {
      assert r[..5] == "list(";
      assert r[0] == 'l' && r[1] == 'i';
    }
  }

  /** Equal type names mean values of the same shape: the name loses only the contents. */
  lemma ValueTypeFaithful(a: Json, b: Json)
    requires ValueType(a) == ValueType(b)
    ensures SameShape(a, b)
  {
    ValueTypeHead(a);
    ValueTypeHead(b);
    if a.Arr? && b.Arr? && |a.items| > 0 && |b.items| > 0 {
      var ta, tb := ValueType(a.items[0]), ValueType(b.items[0]);
      assert ValueType(a) == "list(" + ta + ")";
      assert ValueType(b) == "list(" + tb + ")";
      assert ta == ValueType(a)[5..|ValueType(a)| - 1];
      assert tb == ValueType(b)[5..|ValueType(b)| - 1];
    }
  }

  /** The type name of a list whose first element is a number, as in the source's own test. */
  lemma ValueTypeNumberList(v: Json)
    requires v == Arr([Number(1), Number(2), Number(3)])
    ensures ValueType(v) == "list(number)"
  {
  }

  /** One member of the all-outputs object: value Null, sensitive false and an inferred type by default. */
  function OutputOf(name: string, obj: Json): (o: OutputValue)
    ensures o.name == name && o.description.None?
    ensures o.value == (if Get(obj, "value").Some? then Get(obj, "value").value else Null)
    ensures o.sensitive <==> GetBool(obj, "sensitive") == Some(true)
    ensures GetStr(obj, "type").Some? ==> o.valueType == GetStr(obj, "type").value
    ensures GetStr(obj, "type").None? ==> o.valueType == ValueType(o.value)
  {
    var value := match Get(obj, "value") case Some(v) => v case None => Null;
    var sensitive := match GetBool(obj, "sensitive") case Some(b) => b case None => false;
    var valueType := match GetStr(obj, "type") case Some(t) => t case None => ValueType(value);
    OutputValue(name, value, valueType, sensitive, None)
  }

  /** The loop over the members of the all-outputs object, in the order the map yields them. */
  method OutputsOf(members: seq<(string, Json)>) returns (outputs: seq<OutputValue>)
    ensures |outputs| == |members|
    ensures forall i :: 0 <= i < |members| ==> outputs[i] == OutputOf(members[i].0, members[i].1)
  {
    outputs := [];
    var i := 0;
    while i < |members|
      invariant 0 <= i <= |members|
      invariant |outputs| == i
      invariant forall k :: 0 <= k < i ==> outputs[k] == OutputOf(members[k].0, members[k].1)
    {
      outputs := outputs + [OutputOf(members[i].0, members[i].1)];
      i := i + 1;
    }
  }

  /** Arguments of `get_outputs`: a requested name is the last argument. */
  function OutputArgs(name: Option<string>): (r: seq<string>)
    ensures |r| >= 2 && r[..2] == ["output", "-json"]
    ensures name.None? ==> |r| == 2
    ensures name.Some? ==> |r| == 3 && r[2] == name.value
  {
    ["output", "-json"] + (if name.Some? then [name.value] else [])
  }

  /** The message of `get_outputs`, from the number of outputs. */
  function CountMessage(n: nat): (m: string)
    ensures n == 0 <==> m == "No outputs found"
    ensures n > 0 ==> m == "Found " + NatToString(n) + " outputs"
  {
    if n == 0 then "No outputs found"
    else
      var m := "Found " + NatToString(n) + " outputs";
      assert m[0] == 'F';
      m
  }

  /**
   * `get_outputs` once `terraform output -json [name]` has run.  A failed
   * command with no outputs reports success with none; a named output
   * becomes one record with sensitive false and no description.
   */
  method GetOutputs(name: Option<string>, out: CmdOutput, parse: string -> Result<Json, string>)
    returns (r: Result<OutputResult, string>)
    ensures !out.success && (Contains(out.stderr, "No outputs found") || Trim(out.stdout) == "") ==>
      r == Ok(OutputResult(true, [], "No outputs defined in this configuration"))
    ensures !out.success && !(Contains(out.stderr, "No outputs found") || Trim(out.stdout) == "") ==>
      r.Err? && (if Contains(out.stderr, "output") && Contains(out.stderr, "not found")
                 then r.error == "Output '" + (if name.Some? then name.value else "unknown") + "' not found"
                 else r.error == "Failed to get outputs: " + out.stderr)
    ensures out.success && Trim(out.stdout) == "" ==> r == Ok(OutputResult(true, [], "No outputs found"))
    ensures out.success && name.Some? && Trim(out.stdout) != "" ==>
      match parse(out.stdout)
      case Err(e) => r == Err("Failed to parse output JSON: " + e)
      case Ok(v) => r == Ok(OutputResult(true, [OutputValue(name.value, v, ValueType(v), false, None)], "Found 1 outputs"))
    ensures out.success && name.None? && Trim(out.stdout) == "{}" ==> r == Ok(OutputResult(true, [], "No outputs found"))
    ensures out.success && name.None? && Trim(out.stdout) != "" && Trim(out.stdout) != "{}" ==>
      match parse(out.stdout)
      case Err(e) => r == Err("Failed to parse outputs JSON: " + e)
      case Ok(Obj(members)) =>
        r.Ok? && |r.value.outputs| == |members|
        && (forall i :: 0 <= i < |members| ==> r.value.outputs[i] == OutputOf(members[i].0, members[i].1))
        && r.value.message == CountMessage(|members|)
      case Ok(_) => r == Err("Unexpected output format")
    ensures r.Ok? ==> r.value.success && r.value.message != ""
  {
    if !out.success {
      if Contains(out.stderr, "No outputs found") || Trim(out.stdout) == "" {
        return Ok(OutputResult(true, [], "No outputs defined in this configuration"));
      }
      if Contains(out.stderr, "output") && Contains(out.stderr, "not found") {
        return Err("Output '" + (if name.Some? then name.value else "unknown") + "' not found");
      }
      return Err("Failed to get outputs: " + out.stderr);
    }
    var outputs: seq<OutputValue>;
    var text := Trim(out.stdout);
    if name.Some? {
      if text == "" {
        outputs := [];
      } else {
        match parse(out.stdout)
        case Err(e) =>
          return Err("Failed to parse output JSON: " + e);
        case Ok(v) =>
          outputs := [OutputValue(name.value, v, ValueType(v), false, None)];
          assert NatToString(1) == "1";
          assert CountMessage(|outputs|) == "Found 1 outputs";
      }
    } else {
      if text == "" || text == "{}" {
        outputs := [];
      } else {
        match parse(out.stdout)
        case Err(e) =>
          return Err("Failed to parse outputs JSON: " + e);
        case Ok(v) =>
          if !v.Obj? {
            return Err("Unexpected output format");
          }
          outputs := OutputsOf(v.members);
      }
    }
    r := Ok(OutputResult(true, outputs, CountMessage(|outputs|)));
  }

  /** One `name = value` line of plain `terraform output`, both sides trimmed. */
  function SimplePair(line: string): (r: Option<(string, string)>)
    ensures r.Some? <==> Contains(line, " = ")
  {
    var f := Find(line, " = ");
    FindSpec(line, " = ");
    if f.None? then None
    else Some((Trim(line[..f.value]), Trim(line[f.value + 3..])))
  }

  /** The pairs of a run of lines, in line order. */
  function SimplePairs(lines: seq<string>): (r: seq<(string, string)>)
    ensures |r| <= |lines|
  {
    if |lines| == 0 then []
    else
      var p := SimplePair(lines[|lines| - 1]);
      SimplePairs(lines[..|lines| - 1]) + (if p.Some? then [p.value] else [])
  }

  lemma SimplePairsSnoc(lines: seq<string>, i: nat)
    requires i < |lines|
    ensures SimplePair(lines[i]).None? ==> SimplePairs(lines[..i + 1]) == SimplePairs(lines[..i])
    ensures SimplePair(lines[i]).Some? ==> SimplePairs(lines[..i + 1]) == SimplePairs(lines[..i]) + [SimplePair(lines[i]).value]
  {
    var prefix := lines[..i + 1];
    assert prefix[..i] == lines[..i];
    assert prefix[i] == lines[i];
    if SimplePair(lines[i]).None? {
      assert SimplePairs(prefix) == SimplePairs(lines[..i]) + [];
    }
  }

  method ParseSimpleLines(lines: seq<string>) returns (pairs: seq<(string, string)>)
    ensures pairs == SimplePairs(lines)
  {
    pairs := [];
    var i := 0;
    while i < |lines|
      invariant 0 <= i <= |lines|
      invariant pairs == SimplePairs(lines[..i])
    {
      SimplePairsSnoc(lines, i);
      var p := SimplePair(lines[i]);
      if p.Some? {
        pairs := pairs + [p.value];
      }
      i := i + 1;
    }
    assert lines[..|lines| - 0] == lines;
  }

  /** `get_outputs_simple` once plain `terraform output` has run. */
  method GetOutputsSimple(out: CmdOutput) returns (r: Result<seq<(string, string)>, string>)
    ensures !out.success && Contains(out.stderr, "No outputs found") ==> r == Ok([])
    ensures !out.success && !Contains(out.stderr, "No outputs found") ==> r == Err("Failed to get outputs: " + out.stderr)
    ensures out.success ==> r == Ok(SimplePairs(Lines(out.stdout)))
  {
    if !out.success {
      if Contains(out.stderr, "No outputs found") {
        return Ok([]);
      }
      return Err("Failed to get outputs: " + out.stderr);
    }
    var pairs := ParseSimpleLines(Lines(out.stdout));
    r := Ok(pairs);
  }
}

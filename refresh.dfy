/**
 * `terraform apply -refresh-only` and its preview (src/terraform/refresh.rs):
 * the argument lists, the reading of the JSON event stream line by line,
 * and the counts and messages built from the changes found.  The command's
 * outcome is an input, and so is the JSON parser: `parse` maps one line to
 * the value `serde_json::from_str` would give, or None when it fails.
 */
module Refresh {
  import opened Wrappers
  import opened Strs
  import opened Json
  import opened Process

  datatype ChangeType = Updated | Drifted | Unchanged

  datatype RefreshChange = RefreshChange(address: string, changeType: ChangeType, detail: Option<string>)

  datatype RefreshResult = RefreshResult(
    success: bool,
    resourcesUpdated: nat,
    output: string,
    changes: seq<RefreshChange>,
    message: string)

  const DriftDetail: string := "Resource has drifted from state"
  const UpdateDetail: string := "State will be updated"

  /** Arguments of `execute_refresh`; a target adds one `-target=` argument at the end. */
  function RefreshArgs(target: Option<string>): (r: seq<string>)
    ensures |r| >= 4 && r[..4] == ["apply", "-refresh-only", "-auto-approve", "-json"]
    ensures target.None? ==> |r| == 4
    ensures target.Some? ==> |r| == 5 && r[4] == "-target=" + target.value
  {
    ["apply", "-refresh-only", "-auto-approve", "-json"]
      + (if target.Some? then ["-target=" + target.value] else [])
  }

  /** Arguments of `preview_refresh`: a plan, so nothing is approved or applied. */
  function PreviewArgs(target: Option<string>): (r: seq<string>)
    ensures |r| >= 3 && r[..3] == ["plan", "-refresh-only", "-json"]
    ensures "-auto-approve" !in r && "apply" !in r
    ensures target.None? ==> |r| == 3
    ensures target.Some? ==> |r| == 4 && r[3] == "-target=" + target.value
  {
    var r := ["plan", "-refresh-only", "-json"] + (if target.Some? then ["-target=" + target.value] else []);
    assert target.Some? ==> r[3][1] == 't' && |r[3]| >= 8;
    r
  }

  /** `change.resource.addr` of an event, when it is a string. */
  function Addr(event: Json): Option<string> {
    match Get(event, "change")
    case None => None
    case Some(change) =>
      match Get(change, "resource")
      case None => None
      case Some(resource) => GetStr(resource, "addr")
  }

  /** `change.action` of an event, "update" when it is missing or not a string. */
  function Action(event: Json): string {
    match Get(event, "change")
    case None => "update"
    case Some(change) =>
      match GetStr(change, "action")
      case None => "update"
      case Some(a) => a
  }

  /** The `type` field of the event on a line, when the line parses and has one. */
  function EventType(line: string, parse: string -> Option<Json>): Option<string> {
    if parse(line).None? then None else GetStr(parse(line).value, "type")
  }

  /**
   * What one line of the event stream contributes: a drift event with an
   * address gives a Drifted change, a planned change with an address and
   * the action "update" an Updated one, and everything else (blank lines,
   * unparsable lines, other events) nothing.
   */
  function ChangeOf(line: string, parse: string -> Option<Json>): (r: Option<RefreshChange>)
    ensures r.Some? ==> Trim(line) != "" && parse(line).Some? && Addr(parse(line).value) == Some(r.value.address)
    ensures r.Some? ==> r.value.changeType != Unchanged
    ensures r.Some? && r.value.changeType == Drifted ==>
      EventType(line, parse) == Some("resource_drift") && r.value.detail == Some(DriftDetail)
    ensures r.Some? && r.value.changeType == Updated ==>
      EventType(line, parse) == Some("planned_change") && Action(parse(line).value) == "update"
      && r.value.detail == Some(UpdateDetail)
    ensures Trim(line) != "" && EventType(line, parse) == Some("resource_drift") && Addr(parse(line).value).Some? ==>
      r.Some? && r.value.changeType == Drifted
    ensures Trim(line) != "" && EventType(line, parse) == Some("planned_change") && Addr(parse(line).value).Some?
            && Action(parse(line).value) == "update" ==>
      r.Some? && r.value.changeType == Updated
  {
    if Trim(line) == "" then None
    else
      match parse(line)
      case None => None
      case Some(event) =>
        match GetStr(event, "type")
        case None => None
        case Some(kind) =>
          if kind == "resource_drift" then
            (match Addr(event)
             case Some(addr) => Some(RefreshChange(addr, Drifted, Some(DriftDetail)))
             case None => None)
          else if kind == "planned_change" then
            (match Addr(event)
             case Some(addr) =>
               if Action(event) == "update" then Some(RefreshChange(addr, Updated, Some(UpdateDetail))) else None
             case None => None)
          else None
  }

  /** The changes of a sequence of lines, in line order. */
  function Changes(lines: seq<string>, parse: string -> Option<Json>): (r: seq<RefreshChange>)
    ensures |r| <= |lines|
  {
    if |lines| == 0 then []
    else
      var c := ChangeOf(lines[|lines| - 1], parse);
      Changes(lines[..|lines| - 1], parse) + (if c.Some? then [c.value] else [])
  }

  /** The changes of two runs of lines are the changes of each, one after the other. */
  lemma {:induction false} ChangesAppend(a: seq<string>, b: seq<string>, parse: string -> Option<Json>)
    ensures Changes(a + b, parse) == Changes(a, parse) + Changes(b, parse)
    decreases |b|
  {
    if |b| > 0 {
      var ab := a + b;
      assert ab[..|ab| - 1] == a + b[..|b| - 1];
      assert ab[|ab| - 1] == b[|b| - 1];
      ChangesAppend(a, b[..|b| - 1], parse);
    } else {
      assert a + b == a;
    }
  }

  /** A single line contributes exactly its own change. */
  lemma ChangesSingle(line: string, parse: string -> Option<Json>)
    ensures Changes([line], parse) == if ChangeOf(line, parse).Some? then [ChangeOf(line, parse).value] else []
  {
    assert [line][..0] == [];
  }

  /** Every change comes from some line, and carries that line's address. */
  lemma {:induction false} ChangesFromLines(lines: seq<string>, parse: string -> Option<Json>, k: nat)
    requires k < |Changes(lines, parse)|
    ensures exists i :: 0 <= i < |lines| && ChangeOf(lines[i], parse) == Some(Changes(lines, parse)[k])
    decreases |lines|
  {
    var prefix := lines[..|lines| - 1];
    var rs := Changes(prefix, parse);
    if k < |rs| {
      ChangesFromLines(prefix, parse, k);
      var i :| 0 <= i < |prefix| && ChangeOf(prefix[i], parse) == Some(rs[k]);
      assert lines[i] == prefix[i];
    } else {
      assert ChangeOf(lines[|lines| - 1], parse) == Some(Changes(lines, parse)[k]);
    }
  }

  lemma ChangesSnoc(lines: seq<string>, i: nat, parse: string -> Option<Json>)
    requires i < |lines|
    ensures ChangeOf(lines[i], parse).None? ==> Changes(lines[..i + 1], parse) == Changes(lines[..i], parse)
    ensures ChangeOf(lines[i], parse).Some? ==>
      Changes(lines[..i + 1], parse) == Changes(lines[..i], parse) + [ChangeOf(lines[i], parse).value]
  {
    var prefix := lines[..i + 1];
    assert prefix[..i] == lines[..i];
    assert prefix[i] == lines[i];
    if ChangeOf(lines[i], parse).None? {
      assert Changes(prefix, parse) == Changes(lines[..i], parse) + [];
    }
  }

  /** The loop of `parse_refresh_output` over the lines of the event stream. */
  method ParseLines(lines: seq<string>, parse: string -> Option<Json>) returns (changes: seq<RefreshChange>)
    ensures changes == Changes(lines, parse)
  {
    changes := [];
    var i := 0;
    while i < |lines|
      invariant 0 <= i <= |lines|
      invariant changes == Changes(lines[..i], parse)
    {
      ChangesSnoc(lines, i, parse);
      var c := ChangeOf(lines[i], parse);
      if c.Some? {
        changes := changes + [c.value];
      }
      i := i + 1;
    }
    assert lines[..|lines|] == lines;
  }

  /** `parse_refresh_output`; empty output has no changes. */
  method ParseRefreshOutput(output: string, parse: string -> Option<Json>) returns (changes: seq<RefreshChange>)
    ensures changes == Changes(Lines(output), parse)
    ensures output == "" ==> changes == []
  {
    changes := ParseLines(Lines(output), parse);
  }

  /** The number of changes of one type. */
  function CountOf(changes: seq<RefreshChange>, t: ChangeType): (n: nat)
    ensures n <= |changes|
  {
    if |changes| == 0 then 0
    else CountOf(changes[..|changes| - 1], t) + (if changes[|changes| - 1].changeType == t then 1 else 0)
  }

  /** Counting over two runs of changes adds up. */
  lemma {:induction false} CountOfAppend(a: seq<RefreshChange>, b: seq<RefreshChange>, t: ChangeType)
    ensures CountOf(a + b, t) == CountOf(a, t) + CountOf(b, t)
    decreases |b|
  {
    if |b| > 0 {
      var ab := a + b;
      assert ab[..|ab| - 1] == a + b[..|b| - 1];
      CountOfAppend(a, b[..|b| - 1], t);
    } else {
      assert a + b == a;
    }
  }

  /** A type occurs among the changes iff its count is positive. */
  lemma {:induction false} CountOfPositive(changes: seq<RefreshChange>, t: ChangeType)
    ensures CountOf(changes, t) > 0 <==> exists k :: 0 <= k < |changes| && changes[k].changeType == t
    decreases |changes|
  {
    if |changes| > 0 {
      var prefix := changes[..|changes| - 1];
      CountOfPositive(prefix, t);
      if CountOf(prefix, t) > 0 {
        var k :| 0 <= k < |prefix| && prefix[k].changeType == t;
        assert changes[k] == prefix[k];
      }
      if exists k :: 0 <= k < |changes| && changes[k].changeType == t {
        var k :| 0 <= k < |changes| && changes[k].changeType == t;
        if k < |prefix| { assert prefix[k] == changes[k]; }
      }
    }
  }

  /** `execute_refresh` once the command has run: Updated changes are the ones counted. */
  method ExecuteRefresh(out: CmdOutput, parse: string -> Option<Json>) returns (r: Result<RefreshResult, string>)
    ensures !out.success ==> r == Err("Refresh failed: " + out.stderr)
    ensures out.success ==> (r.Ok? && r.value.success && r.value.output == out.stdout
      && r.value.changes == Changes(Lines(out.stdout), parse)
      && r.value.resourcesUpdated == CountOf(r.value.changes, Updated)
      && (r.value.resourcesUpdated > 0 ==> r.value.message == "Refreshed " + NatToString(r.value.resourcesUpdated) + " resources")
      && (r.value.resourcesUpdated == 0 ==> r.value.message == "No resources needed refreshing"))
  {
    if !out.success {
      return Err("Refresh failed: " + out.stderr);
    }
    var changes := ParseRefreshOutput(out.stdout, parse);
    var updated := CountOf(changes, Updated);
    var message := if updated > 0 then "Refreshed " + NatToString(updated) + " resources"
                   else "No resources needed refreshing";
    r := Ok(RefreshResult(true, updated, out.stdout, changes, message));
  }

  /** `preview_refresh` once the plan has run: Drifted changes are the ones counted. */
  method PreviewRefresh(out: CmdOutput, parse: string -> Option<Json>) returns (r: Result<RefreshResult, string>)
    ensures !out.success ==> r == Err("Refresh preview failed: " + out.stderr)
    ensures out.success ==> (r.Ok? && r.value.success && r.value.output == out.stdout
      && r.value.changes == Changes(Lines(out.stdout), parse)
      && r.value.resourcesUpdated == CountOf(r.value.changes, Drifted)
      && (r.value.resourcesUpdated > 0 ==>
            r.value.message == NatToString(r.value.resourcesUpdated) + " resources have drifted and would be updated")
      && (r.value.resourcesUpdated == 0 ==> r.value.message == "No drift detected - state is up to date"))
  {
    if !out.success {
      return Err("Refresh preview failed: " + out.stderr);
    }
    var changes := ParseRefreshOutput(out.stdout, parse);
    var drifted := CountOf(changes, Drifted);
    var message := if drifted > 0 then NatToString(drifted) + " resources have drifted and would be updated"
                   else "No drift detected - state is up to date";
    r := Ok(RefreshResult(true, drifted, out.stdout, changes, message));
  }

  /** The addresses `get_stale_resources` reports: those of the Drifted changes, in order. */
  function StaleAddresses(changes: seq<RefreshChange>): (r: seq<string>)
    ensures |r| == CountOf(changes, Drifted)
  {
    if |changes| == 0 then []
    else
      var last := changes[|changes| - 1];
      StaleAddresses(changes[..|changes| - 1]) + (if last.changeType == Drifted then [last.address] else [])
  }

  /** Every reported address is that of a Drifted change. */
  lemma {:induction false} StaleAddressesDrifted(changes: seq<RefreshChange>, k: nat)
    requires k < |StaleAddresses(changes)|
    ensures exists i :: 0 <= i < |changes| && changes[i].changeType == Drifted
                        && changes[i].address == StaleAddresses(changes)[k]
    decreases |changes|
  {
    var prefix := changes[..|changes| - 1];
    if k < |StaleAddresses(prefix)| {
      StaleAddressesDrifted(prefix, k);
      var i :| 0 <= i < |prefix| && prefix[i].changeType == Drifted && prefix[i].address == StaleAddresses(prefix)[k];
      assert changes[i] == prefix[i];
    }
  }

  /**
   * A single drift event for address `addr` yields exactly one Drifted
   * change for that address.
   */
  lemma DriftEventLine(line: string, parse: string -> Option<Json>, addr: string)
    requires line != "" && '\n' !in line && line[|line| - 1] != '\r' && Trim(line) != ""
    requires EventType(line, parse) == Some("resource_drift") && Addr(parse(line).value) == Some(addr)
    ensures Changes(Lines(line), parse) == [RefreshChange(addr, Drifted, Some(DriftDetail))]
  {
    LinesSingle(line);
    ChangesSingle(line, parse);
  }

  /** A planned change yields an Updated change iff its action, "update" by default, is "update". */
  lemma PlannedChangeLine(line: string, parse: string -> Option<Json>, addr: string)
    requires line != "" && '\n' !in line && line[|line| - 1] != '\r' && Trim(line) != ""
    requires EventType(line, parse) == Some("planned_change") && Addr(parse(line).value) == Some(addr)
    ensures Action(parse(line).value) == "update" ==>
      Changes(Lines(line), parse) == [RefreshChange(addr, Updated, Some(UpdateDetail))]
    ensures Action(parse(line).value) != "update" ==> Changes(Lines(line), parse) == []
  {
    LinesSingle(line);
    ChangesSingle(line, parse);
  }
}

/**
 * `terraform workspace` operations (src/terraform/workspace.rs): action
 * parsing, name validation, the checks made before any command runs and
 * the interpretation of each command's output.  The commands themselves
 * are an input: `run` maps an argument list to the exit status, stdout
 * and stderr it produced, and every operation also returns the argument
 * lists it ran, in order.
 */
module Workspace {
  import opened Wrappers
  import opened Strs
  import opened Process

  datatype WorkspaceAction = List | Show | New | Select | Delete

  datatype WorkspaceInfo = WorkspaceInfo(name: string, current: bool)

  datatype WorkspaceResult = WorkspaceResult(
    success: bool,
    action: string,
    currentWorkspace: Option<string>,
    workspaces: Option<seq<WorkspaceInfo>>,
    message: string)

  /** The canonical word of each action. */
  function ActionName(a: WorkspaceAction): string {
    match a
    case List => "list"
    case Show => "show"
    case New => "new"
    case Select => "select"
    case Delete => "delete"
  }

  /** `WorkspaceAction::from_str`: case-insensitive, with the aliases create, switch and remove. */
  function ParseAction(s: string): (r: Result<WorkspaceAction, string>)
    ensures r == Ok(New) <==> ToLower(s) in {"new", "create"}
    ensures r == Ok(Select) <==> ToLower(s) in {"select", "switch"}
    ensures r == Ok(Delete) <==> ToLower(s) in {"delete", "remove"}
    ensures r == Ok(List) <==> ToLower(s) == "list"
    ensures r == Ok(Show) <==> ToLower(s) == "show"
    ensures r.Err? <==> ToLower(s) !in {"list", "show", "new", "create", "select", "switch", "delete", "remove"}
  {
    var l := ToLower(s);
    if l == "list" then Ok(List)
    else if l == "show" then Ok(Show)
    else if l == "new" || l == "create" then Ok(New)
    else if l == "select" || l == "switch" then Ok(Select)
    else if l == "delete" || l == "remove" then Ok(Delete)
    else Err("Unknown workspace action: " + s + ". Valid actions: list, show, new, select, delete")
  }

  /** Every action's own word parses back to it. */
  lemma ParseActionName(a: WorkspaceAction)
    ensures ParseAction(ActionName(a)) == Ok(a)
  {
    LowerId(ActionName(a));
  }

  /** The three aliases. */
  lemma ParseActionAliases()
    ensures ParseAction("create") == Ok(New)
    ensures ParseAction("switch") == Ok(Select)
    ensures ParseAction("remove") == Ok(Delete)
  {
    LowerId("create");
    LowerId("switch");
    LowerId("remove");
  }

  predicate NameChar(c: char) {
    IsAsciiAlnum(c) || c == '-' || c == '_'
  }

  /** `is_valid_workspace_name`. */
  function IsValidName(name: string): (b: bool)
    ensures b <==> 0 < |name| <= 100 && forall i :: 0 <= i < |name| ==> NameChar(name[i])
  {
    if |name| == 0 || |name| > 100 then false
    else forall i :: 0 <= i < |name| ==> NameChar(name[i])
  }

  lemma ValidNameExamples()
    ensures IsValidName("dev") && IsValidName("staging_v2") && IsValidName("prod-us-east-1")
    ensures !IsValidName("") && !IsValidName("name with spaces") && !IsValidName("name/slash")
  {
    assert !NameChar("name with spaces"[4]);
    assert !NameChar("name/slash"[4]);
  }

  // ----- list -----

  /** The entry a non-blank line of `terraform workspace list` stands for. */
  function EntryOf(line: string): WorkspaceInfo
  {
    var t := Trim(line);
    if StartsWith(t, "* ") then WorkspaceInfo(t[2..], true) else WorkspaceInfo(t, false)
  }

  /** One entry per non-blank line, in line order. */
  function Entries(lines: seq<string>): (ws: seq<WorkspaceInfo>)
    ensures |ws| <= |lines|
  {
    if |lines| == 0 then []
    else
      var last := lines[|lines| - 1];
      Entries(lines[..|lines| - 1]) + (if Trim(last) == "" then [] else [EntryOf(last)])
  }

  function NonBlank(lines: seq<string>): (n: nat)
  {
    if |lines| == 0 then 0
    else NonBlank(lines[..|lines| - 1]) + (if Trim(lines[|lines| - 1]) == "" then 0 else 1)
  }

  lemma {:induction false} EntriesCount(lines: seq<string>)
    ensures |Entries(lines)| == NonBlank(lines)
  {
    if |lines| > 0 { EntriesCount(lines[..|lines| - 1]); }
  }

  /** The name on the last line marked "* ", if any. */
  function LastCurrent(ws: seq<WorkspaceInfo>): (r: Option<string>)
    ensures r.Some? <==> exists i :: 0 <= i < |ws| && ws[i].current
    ensures r.Some? ==> exists i :: (0 <= i < |ws| && ws[i].current && ws[i].name == r.value
                                     && forall j :: i < j < |ws| ==> !ws[j].current)
  {
    if |ws| == 0 then None
    else if ws[|ws| - 1].current then Some(ws[|ws| - 1].name)
    else
      var r := LastCurrent(ws[..|ws| - 1]);
      assert forall i :: 0 <= i < |ws| - 1 ==> ws[..|ws| - 1][i] == ws[i];
      r
  }

  /** Appending one line to the input appends at most its entry. */
  lemma EntriesSnoc(lines: seq<string>, i: nat)
    requires i < |lines|
    ensures Trim(lines[i]) == "" ==> Entries(lines[..i + 1]) == Entries(lines[..i])
    ensures Trim(lines[i]) != "" ==> Entries(lines[..i + 1]) == Entries(lines[..i]) + [EntryOf(lines[i])]
  {
    var prefix := lines[..i + 1];
    assert prefix[..i] == lines[..i];
    assert prefix[i] == lines[i];
    if Trim(lines[i]) == "" {
      assert Entries(prefix) == Entries(lines[..i]) + [];
    }
  }

  /** The last current entry after appending one entry. */
  lemma LastCurrentSnoc(ws: seq<WorkspaceInfo>, w: WorkspaceInfo)
    ensures LastCurrent(ws + [w]) == if w.current then Some(w.name) else LastCurrent(ws)
  {
    assert (ws + [w])[..|ws|] == ws;
  }

  /** The loop of `list_workspaces` over the lines of stdout. */
  method ParseList(stdout: string) returns (workspaces: seq<WorkspaceInfo>, current: Option<string>)
    ensures workspaces == Entries(Lines(stdout))
    ensures |workspaces| == NonBlank(Lines(stdout))
    ensures current == LastCurrent(workspaces)
  {
    workspaces, current := ParseLines(Lines(stdout));
  }

  method ParseLines(lines: seq<string>) returns (workspaces: seq<WorkspaceInfo>, current: Option<string>)
    ensures workspaces == Entries(lines)
    ensures |workspaces| == NonBlank(lines)
    ensures current == LastCurrent(workspaces)
  {
    workspaces, current := [], None;
    var i := 0;
    while i < |lines|
      invariant 0 <= i <= |lines|
      invariant workspaces == Entries(lines[..i])
      invariant current == LastCurrent(workspaces)
    {
      EntriesSnoc(lines, i);
      workspaces, current := ReadEntry(workspaces, current, lines[i]);
      i := i + 1;
    }
    assert lines[..|lines|] == lines;
    EntriesCount(lines);
  }

  /** The body of `list_workspaces`' loop: one line's entry appended, none for a blank line. */
  method ReadEntry(workspaces: seq<WorkspaceInfo>, current: Option<string>, raw: string)
    returns (workspaces': seq<WorkspaceInfo>, current': Option<string>)
    requires current == LastCurrent(workspaces)
    ensures workspaces' == workspaces + (if Trim(raw) == "" then [] else [EntryOf(raw)])
    ensures current' == LastCurrent(workspaces')
  {
    workspaces', current' := workspaces, current;
    var line := Trim(raw);
    if line != "" {
      var w;
      if StartsWith(line, "* ") {
        w := WorkspaceInfo(line[2..], true);
        current' := Some(line[2..]);
      } else {
        w := WorkspaceInfo(line, false);
      }
      LastCurrentSnoc(workspaces, w);
      workspaces' := workspaces + [w];
    } else {
      assert workspaces + [] == workspaces;
    }
  }

  /**
   * What `list_workspaces` answers for the output of `terraform workspace
   * list`: a failure is an error carrying stderr; otherwise the entries of
   * the lines, the last marked one as current, and their count.
   */
  predicate ListedAs(out: CmdOutput, r: Result<WorkspaceResult, string>) {
    && (!out.success ==> r == Err("Failed to list workspaces: " + out.stderr))
    && (out.success ==> (r.Ok? && r.value.success && r.value.action == "list"
                         && r.value.workspaces == Some(Entries(Lines(out.stdout)))
                         && r.value.currentWorkspace == LastCurrent(Entries(Lines(out.stdout)))
                         && r.value.message == "Found " + NatToString(|Entries(Lines(out.stdout))|) + " workspaces"))
  }

  /** `list_workspaces` once `terraform workspace list` has run. */
  method ListWorkspaces(out: CmdOutput) returns (r: Result<WorkspaceResult, string>)
    ensures ListedAs(out, r)
  {
    if !out.success {
      return Err("Failed to list workspaces: " + out.stderr);
    }
    var ws, current := ParseList(out.stdout);
    r := Ok(WorkspaceResult(true, "list", current, Some(ws), "Found " + NatToString(|ws|) + " workspaces"));
  }

  // ----- show, new, select, delete -----

  const ShowArgs: seq<string> := ["workspace", "show"]

  function ShowResult(out: CmdOutput): (r: Result<WorkspaceResult, string>)
    ensures r.Ok? <==> out.success
    ensures r.Ok? ==> r.value.currentWorkspace == Some(Trim(out.stdout)) && r.value.action == "show"
  {
    if !out.success then Err("Failed to show workspace: " + out.stderr)
    else
      var current := Trim(out.stdout);
      Ok(WorkspaceResult(true, "show", Some(current), None, "Current workspace: " + current))
  }

  /** `new_workspace`: an invalid name is refused before the command runs. */
  function NewWorkspace(name: string, run: seq<string> -> CmdOutput): (r: (Result<WorkspaceResult, string>, seq<seq<string>>))
    ensures !IsValidName(name) ==> r.1 == [] && r.0.Err?
    ensures IsValidName(name) ==> r.1 == [["workspace", "new", name]]
    ensures r.0.Ok? <==> IsValidName(name) && run(["workspace", "new", name]).success
    ensures r.0.Ok? ==> r.0.value.currentWorkspace == Some(name)
  {
    if !IsValidName(name) then
      (Err("Invalid workspace name: '" + name + "'. Names must be alphanumeric with hyphens or underscores"), [])
    else
      var args := ["workspace", "new", name];
      var out := run(args);
      if !out.success then
        if Contains(out.stderr, "already exists") then (Err("Workspace '" + name + "' already exists"), [args])
        else (Err("Failed to create workspace: " + out.stderr), [args])
      else
        (Ok(WorkspaceResult(true, "new", Some(name), None, "Created and switched to workspace '" + name + "'")), [args])
  }

  predicate MissingWorkspace(stderr: string) {
    Contains(stderr, "doesn't exist") || Contains(stderr, "does not exist")
  }

  /** `select_workspace`. */
  function SelectWorkspace(name: string, run: seq<string> -> CmdOutput): (r: (Result<WorkspaceResult, string>, seq<seq<string>>))
    ensures r.1 == [["workspace", "select", name]]
    ensures r.0.Ok? <==> run(["workspace", "select", name]).success
    ensures r.0.Ok? ==> r.0.value.currentWorkspace == Some(name)
    ensures !run(["workspace", "select", name]).success && MissingWorkspace(run(["workspace", "select", name]).stderr) ==>
      r.0 == Err("Workspace '" + name + "' does not exist")
  {
    var args := ["workspace", "select", name];
    var out := run(args);
    if !out.success then
      if MissingWorkspace(out.stderr) then (Err("Workspace '" + name + "' does not exist"), [args])
      else (Err("Failed to select workspace: " + out.stderr), [args])
    else (Ok(WorkspaceResult(true, "select", Some(name), None, "Switched to workspace '" + name + "'")), [args])
  }

  /**
   * `delete_workspace`: "default" is refused before anything runs; the
   * selected workspace is refused after `workspace show`, before the delete.
   */
  function DeleteWorkspace(name: string, run: seq<string> -> CmdOutput): (r: (Result<WorkspaceResult, string>, seq<seq<string>>))
    ensures name == "default" ==> r == (Err("Cannot delete the 'default' workspace"), [])
    ensures name != "default" ==> |r.1| >= 1 && r.1[0] == ShowArgs
    ensures name != "default" && run(ShowArgs).success && Trim(run(ShowArgs).stdout) == name ==>
      r.0.Err? && r.1 == [ShowArgs]
    ensures r.0.Ok? ==> (name != "default" && Trim(run(ShowArgs).stdout) != name
                         && r.1 == [ShowArgs, ["workspace", "delete", name]]
                         && run(["workspace", "delete", name]).success
                         && r.0.value.currentWorkspace == Some(Trim(run(ShowArgs).stdout)))
  {
    if name == "default" then (Err("Cannot delete the 'default' workspace"), [])
    else
      match ShowResult(run(ShowArgs))
      case Err(e) => (Err(e), [ShowArgs])
      case Ok(current) =>
        if current.currentWorkspace == Some(name) then
          (Err("Cannot delete workspace '" + name + "' because it is currently selected. Switch to another workspace first."),
           [ShowArgs])
        else
          var args := ["workspace", "delete", name];
          var out := run(args);
          if !out.success then
            if MissingWorkspace(out.stderr) then (Err("Workspace '" + name + "' does not exist"), [ShowArgs, args])
            else if Contains(out.stderr, "is not empty") then
              (Err("Workspace '" + name + "' is not empty. Use 'terraform workspace delete -force " + name
                   + "' to force deletion."), [ShowArgs, args])
            else (Err("Failed to delete workspace: " + out.stderr), [ShowArgs, args])
          else
            (Ok(WorkspaceResult(true, "delete", current.currentWorkspace, None, "Deleted workspace '" + name + "'")),
             [ShowArgs, args])
  }

  /**
   * `execute_workspace`: new, select and delete without a name fail before
   * any command runs.
   */
  method ExecuteWorkspace(action: WorkspaceAction, name: Option<string>, run: seq<string> -> CmdOutput)
    returns (r: Result<WorkspaceResult, string>, ran: seq<seq<string>>)
    ensures action in {New, Select, Delete} && name.None? ==>
      ran == [] && r == Err("Workspace name required for '" + ActionName(action) + "' action")
    ensures action == List ==> ran == [["workspace", "list"]]
    ensures action == List ==> ListedAs(run(["workspace", "list"]), r)
    ensures action == Show ==> ran == [ShowArgs] && r == ShowResult(run(ShowArgs))
    ensures action == New && name.Some? ==> (r, ran) == NewWorkspace(name.value, run)
    ensures action == Select && name.Some? ==> (r, ran) == SelectWorkspace(name.value, run)
    ensures action == Delete && name.Some? ==> (r, ran) == DeleteWorkspace(name.value, run)
    ensures r.Ok? ==> r.value.action == ActionName(action)
  {
    match action
    case List =>
      ran := [["workspace", "list"]];
      r := ListWorkspaces(run(["workspace", "list"]));
    case Show =>
      ran := [ShowArgs];
      r := ShowResult(run(ShowArgs));
    case New =>
      if name.None? {
        return Err("Workspace name required for '" + ActionName(action) + "' action"), [];
      }
      var res := NewWorkspace(name.value, run);
      r, ran := res.0, res.1;
    case Select =>
      if name.None? {
        return Err("Workspace name required for '" + ActionName(action) + "' action"), [];
      }
      var res := SelectWorkspace(name.value, run);
      r, ran := res.0, res.1;
    case Delete =>
      if name.None? {
        return Err("Workspace name required for '" + ActionName(action) + "' action"), [];
      }
      var res := DeleteWorkspace(name.value, run);
      r, ran := res.0, res.1;
  }
}

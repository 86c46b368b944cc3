/**
 * `terraform taint` / `untaint`: action parsing, the result record
 * built from the command's outcome, the deprecation test on the
 * Terraform version and the suggested replacement command
 * (src/terraform/taint.rs).  Running the command is left out: its exit
 * status, stdout and stderr are inputs.
 */
module Taint {
  import opened Wrappers
  import opened Strs

  datatype TaintAction = Taint | Untaint

  datatype TaintResult = TaintResult(
    success: bool,
    action: string,
    resourceAddress: string,
    message: string,
    deprecationWarning: Option<string>)

  /** The command word each action runs. */
  function ActionName(a: TaintAction): (r: string)
    ensures r == "taint" || r == "untaint"
    ensures (r == "taint") <==> a == Taint
  {
    match a
    case Taint => "taint"
    case Untaint => "untaint"
  }

  /** `TaintAction::from_str`: case-insensitive, anything else is an error. */
  function ParseAction(s: string): (r: Result<TaintAction, string>)
    ensures r == Ok(Taint) <==> ToLower(s) == "taint"
    ensures r == Ok(Untaint) <==> ToLower(s) == "untaint"
    ensures r.Err? <==> ToLower(s) != "taint" && ToLower(s) != "untaint"
  {
    var l := ToLower(s);
    if l == "taint" then Ok(Taint)
    else if l == "untaint" then Ok(Untaint)
    else Err("Unknown taint action: " + s + ". Valid actions: taint, untaint")
  }

  /** Parsing the command word of an action gives the action back. */
  lemma ParseActionName(a: TaintAction)
    ensures ParseAction(ActionName(a)) == Ok(a)
  {
    LowerId(ActionName(a));
  }

  /** Upper-case spellings parse too. */
  lemma ParseActionUpper(s: string)
    requires s == "TAINT"
    ensures ParseAction(s) == Ok(Taint)
  {
    assert ToLower(s) == "taint" by {
      var l := ToLower(s);
      assert |l| == 5;
      assert l[0] == 't' && l[1] == 'a' && l[2] == 'i' && l[3] == 'n' && l[4] == 't';
    }
  }

  const ReplacePrefix: string := "terraform apply -replace='"

  /** `get_replacement_command`: the address can be read back out of the command. */
  function ReplacementCommand(address: string): (r: string)
    ensures StartsWith(r, ReplacePrefix) && EndsWith(r, "'")
    ensures |r| == |ReplacePrefix| + |address| + 1
    ensures r[|ReplacePrefix|..|r| - 1] == address
  {
    ReplacePrefix + address + "'"
  }

  /** Distinct addresses give distinct commands. */
  lemma ReplacementCommandInjective(a: string, b: string)
    requires ReplacementCommand(a) == ReplacementCommand(b)
    ensures a == b
  {
    var ra, rb := ReplacementCommand(a), ReplacementCommand(b);
    assert a == ra[|ReplacePrefix|..|ra| - 1];
  }

  /**
   * The message of `execute_taint` after a failed command: the first of
   * the recognised stderr/stdout texts decides it.
   */
  function FailureMessage(action: TaintAction, address: string, stdout: string, stderr: string): (m: string)
    ensures Contains(stderr, "No such resource instance") ==>
      m == "Resource '" + address + "' not found in state"
    ensures (!Contains(stderr, "No such resource instance") && Contains(stderr, "not currently tainted")) ==>
      m == "Resource '" + address + "' is not currently tainted"
    ensures (!Contains(stderr, "No such resource instance") && !Contains(stderr, "not currently tainted")
             && Contains(stderr, "already tainted")) ==>
      m == "Resource '" + address + "' is already tainted"
    ensures (!Contains(stderr, "No such resource instance") && !Contains(stderr, "not currently tainted")
             && !Contains(stderr, "already tainted") && Contains(stdout, "Terraform has been successfully initialized")) ==>
      m == "Terraform needs to be initialized. Run 'terraform init' first."
    ensures (!Contains(stderr, "No such resource instance") && !Contains(stderr, "not currently tainted")
             && !Contains(stderr, "already tainted") && !Contains(stdout, "Terraform has been successfully initialized")) ==>
      var p := "Failed to " + ActionName(action) + " resource: ";
      && StartsWith(m, p) && '\n' !in m[|p|..]
      && |m| == |p| + |Trim(stderr)|
      && forall i :: 0 <= i < |Trim(stderr)| ==>
           m[|p| + i] == (if Trim(stderr)[i] == '\n' then ' ' else Trim(stderr)[i])
  {
    if Contains(stderr, "No such resource instance") then
      "Resource '" + address + "' not found in state"
    else if Contains(stderr, "not currently tainted") then
      "Resource '" + address + "' is not currently tainted"
    else if Contains(stderr, "already tainted") then
      "Resource '" + address + "' is already tainted"
    else if Contains(stdout, "Terraform has been successfully initialized") then
      "Terraform needs to be initialized. Run 'terraform init' first."
    else
      var p := "Failed to " + ActionName(action) + " resource: ";
      var rest := ReplaceChar(Trim(stderr), '\n', ' ');
      assert (p + rest)[|p|..] == rest;
      p + rest
  }

  /**
   * `execute_taint` once the command has run: the result always carries
   * the action word and the address unchanged, and its message depends on
   * the outcome.
   */
  function TaintOutcome(action: TaintAction, address: string, succeeded: bool,
                        stdout: string, stderr: string, warning: Option<string>): (r: TaintResult)
    ensures r.success == succeeded
    ensures r.action == ActionName(action) && r.resourceAddress == address
    ensures r.deprecationWarning == warning
    ensures succeeded && action == Taint ==> r.message == "Resource '" + address + "' has been marked as tainted"
    ensures succeeded && action == Untaint ==> r.message == "Resource '" + address + "' has been unmarked as tainted"
    ensures !succeeded ==> r.message == FailureMessage(action, address, stdout, stderr)
  {
    var message :=
      if succeeded then
        (match action
         case Taint => "Resource '" + address + "' has been marked as tainted"
         case Untaint => "Resource '" + address + "' has been unmarked as tainted")
      else FailureMessage(action, address, stdout, stderr);
    TaintResult(succeeded, ActionName(action), address, message, warning)
  }

  // ----- `str::parse::<i32>` -----

  const I32Min: int := -0x8000_0000
  const I32Max: int := 0x7FFF_FFFF

  function DigitsValue(s: string): (n: nat)
    requires forall c :: c in s ==> IsAsciiDigit(c)
  {
    if s == [] then 0
    else
      assert forall c :: c in s[..|s| - 1] ==> c in s;
      assert s[|s| - 1] in s;
      DigitsValue(s[..|s| - 1]) * 10 + DigitValue(s[|s| - 1])
  }

  function DigitValue(c: char): (d: nat)
    requires IsAsciiDigit(c)
    ensures d < 10
  {
    c as int - '0' as int
  }

  predicate AllDigits(s: string) {
    |s| > 0 && forall c :: c in s ==> IsAsciiDigit(c)
  }

  /** `s.parse::<i32>()`: an optional sign, at least one digit, nothing else, within range. */
  function ParseI32(s: string): (r: Option<int>)
    ensures r.Some? ==> I32Min <= r.value <= I32Max
    ensures AllDigits(s) && DigitsValue(s) <= I32Max ==> r == Some(DigitsValue(s))
    ensures s == [] ==> r.None?
  {
    if |s| > 0 && (s[0] == '+' || s[0] == '-') then
      var body := s[1..];
      if !AllDigits(body) then None
      else
        assert s[0] in s;
        var v: int := if s[0] == '-' then 0 - DigitsValue(body) else DigitsValue(body);
        if I32Min <= v <= I32Max then Some(v) else None
    else if !AllDigits(s) then None
    else
      var v := DigitsValue(s);
      if v <= I32Max then Some(v) else None
  }

  /** Major and minor number of a dotted version string, when both parse. */
  function MajorMinor(version: string): (r: Option<(int, int)>)
  {
    var parts := Split(version, ".");
    if |parts| < 2 then None
    else
      match (ParseI32(parts[0]), ParseI32(parts[1]))
      case (Some(major), Some(minor)) => Some((major, minor))
      case _ => None
  }

  const DeprecationLead := "Note: 'terraform taint' and 'terraform untaint' are deprecated in Terraform "
  const DeprecationAdvice := ". Consider using 'terraform apply -replace=RESOURCE_ADDRESS' instead for new workflows."

  function DeprecationText(version: string): string {
    DeprecationLead + version + DeprecationAdvice
  }

  /** The test as written: major at least 1 and minor at least 5, each compared on its own. */
  predicate WarnsAsWritten(mm: (int, int)) {
    mm.0 >= 1 && mm.1 >= 5
  }

  /** The documented test: the version is 1.5 or later. */
  predicate AtLeast15(mm: (int, int)) {
    mm.0 > 1 || (mm.0 == 1 && mm.1 >= 5)
  }

  /** Version `a` comes no later than version `b`. */
  predicate NotLater(a: (int, int), b: (int, int)) {
    a.0 < b.0 || (a.0 == b.0 && a.1 <= b.1)
  }

  /** Whether `check_terraform_version_for_deprecation`, as written, warns about `version`. */
  predicate WarnsForAsWritten(version: string) {
    var mm := MajorMinor(version);
    mm.Some? && WarnsAsWritten(mm.value)
  }

  /** Whether the documented rule warns about `version`: it parses and is 1.5 or later. */
  predicate WarnsFor(version: string) {
    var mm := MajorMinor(version);
    mm.Some? && AtLeast15(mm.value)
  }

  /** `check_terraform_version_for_deprecation` as written. */
  function DeprecationWarningAsWritten(version: string): (r: Option<string>)
    ensures r.Some? <==> WarnsForAsWritten(version)
    ensures r.Some? ==> r.value == DeprecationText(version)
  {
    if WarnsForAsWritten(version) then Some(DeprecationText(version)) else None
  }

  /**
   * The warning under the documented rule. `TaintOutcome` takes the warning
   * as an input; in the source it is `DeprecationWarningAsWritten(version)`
   * when `terraform version -json` answers.
   */
  function DeprecationWarning(version: string): (r: Option<string>)
    ensures r.Some? <==> WarnsFor(version)
    ensures r.Some? ==> r.value == DeprecationText(version)
  {
    if WarnsFor(version) then Some(DeprecationText(version)) else None
  }

  /** Both rules agree on the 1.x line. */
  lemma WarnsAgreeOn1x(version: string, mm: (int, int))
    requires MajorMinor(version) == Some(mm) && mm.0 <= 1
    ensures WarnsFor(version) <==> WarnsForAsWritten(version)
  {
  }

  /** Under the documented rule, a version warned about stays warned about in every later version. */
  lemma WarnsForMonotone(v1: string, v2: string, a: (int, int), b: (int, int))
    requires MajorMinor(v1) == Some(a) && MajorMinor(v2) == Some(b) && NotLater(a, b)
    requires WarnsFor(v1)
    ensures WarnsFor(v2)
  {
  }

  /** The rule as written is not monotone: 1.5 warns and 2.0, which is later, does not. */
  lemma AsWrittenNotMonotone()
    ensures WarnsAsWritten((1, 5)) && NotLater((1, 5), (2, 0)) && !WarnsAsWritten((2, 0))
  {
  }

  lemma MajorMinorOf20(v: string)
    requires v == "2.0"
    ensures MajorMinor(v) == Some((2, 0))
  {
    assert StartsWith(v[1..], ".");
    assert v[0] == '2';
    assert !StartsWith(v, ".");
    assert Find(v, ".") == Some(1);
    ContainsChars(v[2..], ".", '.');
    assert v[2..] == "0";
    assert Split(v[2..], ".") == ["0"];
    assert v[..1] == "2";
    assert Split(v, ".") == [v[..1]] + Split(v[2..], ".");
    assert Split(v, ".") == ["2", "0"];
    assert AllDigits("2") && DigitsValue("2") == 2;
    assert AllDigits("0") && DigitsValue("0") == 0;
  }

  /** Terraform "2.0" gets no warning as written, but does under the documented rule. */
  lemma DeprecationMissedFor20(v: string)
    requires v == "2.0"
    ensures !WarnsForAsWritten(v)
    ensures WarnsFor(v)
  {
    MajorMinorOf20(v);
  }
}

/**
 * The security policy of src/shared/security.rs: the default policy, the
 * command and auto-approve permission checks, the resource limit and the
 * hand-written glob matcher behind `is_file_blocked`.
 *
 * The matcher is specified twice: `PatternVerdict` is a function of one
 * (already lower-cased) pattern and path, and `CheckPattern` /
 * `IsFileBlocked` are the loops of the source, proved to compute it.  A
 * slice that the source takes out of range is a `Panic` verdict, so the
 * whole check returns `None` exactly when the source would panic.
 */
module Security {
  import opened Wrappers
  import opened Strs

  datatype AuditConfig = AuditConfig(enabled: bool, logFile: Option<string>, logSensitive: bool)

  datatype SecurityPolicy = SecurityPolicy(
    allowDangerousOperations: bool,
    allowAutoApprove: bool,
    allowedCommands: seq<string>,
    blockedFilePatterns: seq<string>,
    maxResourceLimit: Option<nat>,
    approvalPatterns: map<string, string>,
    auditLogging: AuditConfig)

  const DefaultCommands: seq<string> := ["version", "init", "validate", "plan", "show", "state"]
  const DefaultPatterns: seq<string> :=
    ["**/prod*/**", "**/production*/**", "**/*prod*.tf", "**/*production*.tf", "**/*secret*"]

  /** `SecurityPolicy::default`: nothing dangerous, read-only commands, production paths blocked, 50 resources. */
  function DefaultPolicy(): (p: SecurityPolicy)
    ensures !p.allowDangerousOperations && !p.allowAutoApprove
    ensures p.allowedCommands == DefaultCommands && "apply" !in p.allowedCommands && "destroy" !in p.allowedCommands
    ensures p.blockedFilePatterns == DefaultPatterns
    ensures p.maxResourceLimit == Some(50)
    ensures p.approvalPatterns == map[]
    ensures p.auditLogging.enabled && p.auditLogging.logFile.None? && !p.auditLogging.logSensitive
  {
    SecurityPolicy(false, false, DefaultCommands, DefaultPatterns, Some(50), map[],
                   AuditConfig(true, None, false))
  }

  predicate IsDangerous(command: string) {
    command == "apply" || command == "destroy"
  }

  /** `is_command_allowed`: apply and destroy follow the dangerous-operations switch, the rest the allow-list. */
  function IsCommandAllowed(policy: SecurityPolicy, command: string): (b: bool)
    ensures IsDangerous(command) ==> (b <==> policy.allowDangerousOperations)
    ensures !IsDangerous(command) ==> (b <==> command in policy.allowedCommands)
  {
    if IsDangerous(command) then policy.allowDangerousOperations
    else command in policy.allowedCommands
  }

  /** `is_auto_approve_allowed`: apply and destroy need both switches, every other command may auto-approve. */
  function IsAutoApproveAllowed(policy: SecurityPolicy, command: string): (b: bool)
    ensures IsDangerous(command) ==> (b <==> policy.allowDangerousOperations && policy.allowAutoApprove)
    ensures !IsDangerous(command) ==> b
  {
    if IsDangerous(command) then policy.allowDangerousOperations && policy.allowAutoApprove
    else true
  }

  /** Under the default policy only the six read-only commands run, and nothing dangerous auto-approves. */
  lemma DefaultCommandSecurity(command: string)
    ensures IsCommandAllowed(DefaultPolicy(), command) <==> command in DefaultCommands
    ensures IsDangerous(command) ==> !IsAutoApproveAllowed(DefaultPolicy(), command)
  {
  }

  /** Turning on dangerous operations lets apply run, but auto-approve still needs its own switch. */
  lemma DangerousNeedsBothSwitches(policy: SecurityPolicy)
    requires policy.allowDangerousOperations && !policy.allowAutoApprove
    ensures IsCommandAllowed(policy, "apply") && IsCommandAllowed(policy, "destroy")
    ensures !IsAutoApproveAllowed(policy, "apply") && !IsAutoApproveAllowed(policy, "destroy")
  {
  }

  /** `check_resource_limit`: an error exactly when a limit is set and the count exceeds it. */
  function CheckResourceLimit(policy: SecurityPolicy, count: nat): (r: Result<(), string>)
    ensures r.Err? <==> policy.maxResourceLimit.Some? && count > policy.maxResourceLimit.value
    ensures r.Err? ==> r.error == "Operation blocked: Resource count (" + NatToString(count)
                                  + ") exceeds security limit (" + NatToString(policy.maxResourceLimit.value) + ")"
  {
    match policy.maxResourceLimit
    case Some(limit) =>
      if count > limit then
        Err("Operation blocked: Resource count (" + NatToString(count) + ") exceeds security limit ("
            + NatToString(limit) + ")")
      else Ok(())
    case None => Ok(())
  }

  /** The limit is inclusive, and a larger limit accepts everything a smaller one does. */
  lemma ResourceLimitMonotone(policy: SecurityPolicy, count: nat, bigger: nat)
    requires policy.maxResourceLimit.Some? && policy.maxResourceLimit.value <= bigger
    ensures CheckResourceLimit(policy, policy.maxResourceLimit.value).Ok?
    ensures CheckResourceLimit(policy, count).Ok? ==>
      CheckResourceLimit(policy.(maxResourceLimit := Some(bigger)), count).Ok?
  {
  }

  // ----- the glob matcher of `is_file_blocked` -----

  datatype Verdict = Hit | Miss | Panic

  /**
   * The loop over the parts of a plain `*` pattern (no `**`), from part `i`
   * with the scan position at `pos`: the first part anchors at the start,
   * the last at the end, and every other non-empty part is searched for
   * from `pos` on.  The last part is checked against the whole path, not
   * against what follows `pos`.
   */
  function WildFrom(parts: seq<string>, path: string, i: nat, pos: nat): bool
    requires i <= |parts| && pos <= |path|
    decreases |parts| - i
  {
    if i == |parts| then true
    else
      var part := parts[i];
      if i == 0 && part != "" then
        StartsWith(path, part) && WildFrom(parts, path, i + 1, |part|)
      else if i == |parts| - 1 && part != "" then
        EndsWith(path, part)
      else if part != "" then
        match Find(path[pos..], part)
        case None => false
        case Some(f) => WildFrom(parts, path, i + 1, pos + f + |part|)
      else WildFrom(parts, path, i + 1, pos)
  }

  /** Some '/'-separated segment starts with `prefix` and ends with `suffix`. */
  predicate SegmentMatch(segments: seq<string>, prefix: string, suffix: string) {
    exists k :: 0 <= k < |segments| && StartsWith(segments[k], prefix) && EndsWith(segments[k], suffix)
  }

  /** What one lower-cased pattern says about one lower-cased path. */
  function PatternVerdict(pattern: string, path: string): Verdict {
    if Contains(pattern, "**") then
      var parts := Split(pattern, "**");
      if |parts| == 3 then MiddleVerdict(parts[1], path)
      else if |parts| == 2 then EndsVerdict(parts[0], parts[1], path)
      else Miss
    else if '*' in pattern then
      if WildFrom(Split(pattern, "*"), path, 0, 0) then Hit else Miss
    else if Contains(path, pattern) then Hit
    else Miss
  }

  /** A pattern with two `**`: what lies between them is a directory (with at most one `*`) or a substring. */
  function MiddleVerdict(middle: string, path: string): Verdict {
    if StartsWith(middle, "/") && EndsWith(middle, "/") then
      if |middle| < 2 then Panic
      else
        var inner := middle[1..|middle| - 1];
        if '*' in inner then
          var innerParts := Split(inner, "*");
          if |innerParts| == 2 && SegmentMatch(Split(path, "/"), innerParts[0], innerParts[1]) then Hit
          else Miss
        else if Contains(path, "/" + inner + "/") then Hit
        else Miss
    else if Contains(path, middle) then Hit
    else Miss
  }

  /** A pattern with one `**`: the text before it must occur in the path and the text after it end the path. */
  function EndsVerdict(prefix: string, suffix: string, path: string): Verdict {
    if prefix == "" && EndsWith(path, suffix) then Hit
    else if suffix == "" && Contains(path, prefix) then Hit
    else if Contains(path, prefix) && EndsWith(path, suffix) then Hit
    else Miss
  }

  /** The patterns are tried in order; the first that hits blocks, and one that panics ends the check. */
  function Decide(verdicts: seq<Verdict>): (r: Option<bool>)
    ensures r == Some(false) <==> forall i :: 0 <= i < |verdicts| ==> verdicts[i] == Miss
  {
    if verdicts == [] then Some(false)
    else match verdicts[0]
      case Hit => Some(true)
      case Panic => None
      case Miss =>
        assert forall i :: 1 <= i < |verdicts| ==> verdicts[i] == verdicts[1..][i - 1];
        Decide(verdicts[1..])
  }

  /** The check blocks exactly when some pattern hits and every pattern before it misses. */
  lemma {:induction false} DecideBlocks(verdicts: seq<Verdict>)
    ensures Decide(verdicts) == Some(true) <==>
      exists i :: 0 <= i < |verdicts| && verdicts[i] == Hit && forall j :: 0 <= j < i ==> verdicts[j] == Miss
  {
    if verdicts != [] {
      if verdicts[0] == Hit {
        assert verdicts[0] == Hit;
      } else {
        var rest := verdicts[1..];
        DecideBlocks(rest);
        if Decide(verdicts) == Some(true) {
          var i :| 0 <= i < |rest| && rest[i] == Hit && forall j :: 0 <= j < i ==> rest[j] == Miss;
          assert verdicts[i + 1] == Hit;
        }
        if exists i :: 0 <= i < |verdicts| && verdicts[i] == Hit && forall j :: 0 <= j < i ==> verdicts[j] == Miss {
          var i :| 0 <= i < |verdicts| && verdicts[i] == Hit && forall j :: 0 <= j < i ==> verdicts[j] == Miss;
          assert i > 0 && rest[i - 1] == Hit;
        }
      }
    }
  }

  function Verdicts(patterns: seq<string>, path: string): (vs: seq<Verdict>)
    ensures |vs| == |patterns|
  {
    seq(|patterns|, i requires 0 <= i < |patterns| => PatternVerdict(ToLower(patterns[i]), path))
  }

  /** `is_file_blocked` on a path: `None` where the source panics. */
  function FileBlocked(policy: SecurityPolicy, filePath: string): Option<bool> {
    Decide(Verdicts(policy.blockedFilePatterns, ToLower(filePath)))
  }

  /** The text after the last '/' of a path. */
  function LastSegment(path: string): (r: string)
    ensures '/' !in r && EndsWith(path, r)
  {
    var r := LastPart(path, "/");
    LastPartEnds(path, "/");
    LastPartNoSep(path, "/");
    CharContains(r, '/');
    r
  }

  /**
   * The reading the `**` + `/` + X file patterns evidently intend: X, when
   * it holds a star, is a plain `*` pattern matched against the last
   * segment of the path.  Every other pattern reads as written.
   */
  function CorrectedVerdict(pattern: string, path: string): (v: Verdict)
    ensures PatternVerdict(pattern, path) != Panic ==> v != Panic
  {
    if Contains(pattern, "**") then
      var parts := Split(pattern, "**");
      if |parts| == 2 && parts[0] == "" && StartsWith(parts[1], "/") && '*' in parts[1] then
        if WildFrom(Split(parts[1][1..], "*"), LastSegment(path), 0, 0) then Hit else Miss
      else PatternVerdict(pattern, path)
    else PatternVerdict(pattern, path)
  }

  function CorrectedVerdicts(patterns: seq<string>, path: string): (vs: seq<Verdict>)
    ensures |vs| == |patterns|
  {
    seq(|patterns|, i requires 0 <= i < |patterns| => CorrectedVerdict(ToLower(patterns[i]), path))
  }

  /** `is_file_blocked` with the corrected reading of the file patterns. */
  function FileBlockedCorrected(policy: SecurityPolicy, filePath: string): Option<bool> {
    Decide(CorrectedVerdicts(policy.blockedFilePatterns, ToLower(filePath)))
  }

  /** The loop over a plain `*` pattern's parts, with its `pos` and `matched` variables. */
  method WildcardMatches(parts: seq<string>, path: string) returns (matched: bool)
    ensures matched == WildFrom(parts, path, 0, 0)
  {
    var pos: nat := 0;
    matched := true;
    var i := 0;
    while i < |parts|
      invariant 0 <= i <= |parts| && pos <= |path|
      invariant matched && WildFrom(parts, path, 0, 0) == WildFrom(parts, path, i, pos)
    {
      var part := parts[i];
      if i == 0 && part != "" {
        if !StartsWith(path, part) {
          matched := false;
          break;
        }
        pos := |part|;
      } else if i == |parts| - 1 && part != "" {
        if !EndsWith(path, part) {
          matched := false;
          break;
        }
      } else if part != "" {
        var found := Find(path[pos..], part);
        if found.None? {
          matched := false;
          break;
        }
        pos := pos + found.value + |part|;
      }
      i := i + 1;
    }
  }

  /** The loop over the path's segments for a `**` + `/x*y/` + `**` pattern. */
  method AnySegmentMatches(path: string, prefix: string, suffix: string) returns (found: bool)
    ensures found <==> SegmentMatch(Split(path, "/"), prefix, suffix)
  {
    var segments := Split(path, "/");
    var k := 0;
    while k < |segments|
      invariant 0 <= k <= |segments|
      invariant forall j :: 0 <= j < k ==> !(StartsWith(segments[j], prefix) && EndsWith(segments[j], suffix))
    {
      if StartsWith(segments[k], prefix) && EndsWith(segments[k], suffix) {
        return true;
      }
      k := k + 1;
    }
    return false;
  }

  /** The body of the loop over patterns, for one lower-cased pattern. */
  method CheckPattern(pattern: string, path: string) returns (v: Verdict)
    ensures v == PatternVerdict(pattern, path)
  {
    v := Miss;
    if Contains(pattern, "**") {
      var parts := Split(pattern, "**");
      if |parts| == 3 {
        var middle := parts[1];
        if StartsWith(middle, "/") && EndsWith(middle, "/") {
          if |middle| < 2 {
            return Panic;
          }
          var inner := middle[1..|middle| - 1];
          if '*' in inner {
            var innerParts := Split(inner, "*");
            if |innerParts| == 2 {
              var hit := AnySegmentMatches(path, innerParts[0], innerParts[1]);
              if hit {
                return Hit;
              }
            }
          } else if Contains(path, "/" + inner + "/") {
            return Hit;
          }
        } else if Contains(path, middle) {
          return Hit;
        }
      } else if |parts| == 2 {
        var prefix, suffix := parts[0], parts[1];
        if prefix == "" && EndsWith(path, suffix) {
          return Hit;
        } else if suffix == "" && Contains(path, prefix) {
          return Hit;
        } else if Contains(path, prefix) && EndsWith(path, suffix) {
          return Hit;
        }
      }
    } else if '*' in pattern {
      var matched := WildcardMatches(Split(pattern, "*"), path);
      if matched {
        return Hit;
      }
    } else if Contains(path, pattern) {
      return Hit;
    }
  }

  /** `is_file_blocked`: lower-case the path, then try each lower-cased pattern in turn. */
  method IsFileBlocked(policy: SecurityPolicy, filePath: string) returns (blocked: Option<bool>)
    ensures blocked == FileBlocked(policy, filePath)
  {
    var path := ToLower(filePath);
    var patterns := policy.blockedFilePatterns;
    ghost var vs := Verdicts(patterns, path);
    var i := 0;
    while i < |patterns|
      invariant 0 <= i <= |patterns|
      invariant forall j :: 0 <= j < i ==> vs[j] == Miss
    {
      var v := CheckPattern(ToLower(patterns[i]), path);
      assert v == vs[i];
      if v == Hit {
        DecideHitAt(vs, i);
        return Some(true);
      } else if v == Panic {
        assert vs[i] == Panic;
        DecidePanic(vs, i);
        return None;
      }
      i := i + 1;
    }
    return Some(false);
  }

  /** A pattern that panics after misses only ends the check without an answer. */
  lemma {:induction false} DecidePanic(vs: seq<Verdict>, i: nat)
    requires i < |vs| && vs[i] == Panic && forall j :: 0 <= j < i ==> vs[j] == Miss
    ensures Decide(vs) == None
  {
    if i > 0 {
      assert vs[0] == Miss;
      DecidePanic(vs[1..], i - 1);
    }
  }

  // ----- what a pattern means -----

  /** A pattern without `*` blocks exactly the paths that contain it. */
  lemma LiteralPattern(pattern: string, path: string)
    requires '*' !in pattern
    ensures PatternVerdict(pattern, path) == Hit <==> Contains(path, pattern)
    ensures PatternVerdict(pattern, path) != Panic
  {
    ContainsChars(pattern, "**", '*');
  }

  /** A matching plain `*` pattern starts with its first part and ends with its last. */
  lemma {:induction false} WildAnchors(parts: seq<string>, path: string, i: nat, pos: nat)
    requires 1 < |parts| && i < |parts| && pos <= |path| && WildFrom(parts, path, i, pos)
    ensures i == 0 && parts[0] != "" ==> StartsWith(path, parts[0])
    ensures parts[|parts| - 1] == "" || EndsWith(path, parts[|parts| - 1])
    decreases |parts| - i
  {
    var part := parts[i];
    if i == 0 && part != "" {
      WildAnchors(parts, path, 1, |part|);
    } else if i == |parts| - 1 && part != "" {
    } else if i == |parts| - 1 {
    } else if part != "" {
      var f := Find(path[pos..], part).value;
      WildAnchors(parts, path, i + 1, pos + f + |part|);
    } else {
      WildAnchors(parts, path, i + 1, pos);
    }
  }

  /** In a matching plain `*` pattern, every part between the first and the last occurs after the scan position. */
  lemma {:induction false} WildMiddle(parts: seq<string>, path: string, i: nat, pos: nat, k: nat)
    requires i <= k < |parts| - 1 && 0 < k && pos <= |path| && (i == 0 ==> pos == 0) && WildFrom(parts, path, i, pos)
    ensures Contains(path[pos..], parts[k])
    decreases |parts| - i
  {
    var next := WildNext(parts, path, i, pos);
    if i == k {
      assert i > 0;
    } else {
      WildMiddle(parts, path, i + 1, next, k);
      MiddleStep(path, pos, next - pos, parts[k]);
    }
  }

  /** One step of the scan over a matching pattern's parts, up to the last part. */
  lemma WildNext(parts: seq<string>, path: string, i: nat, pos: nat) returns (next: nat)
    requires i < |parts| - 1 && pos <= |path| && (i == 0 ==> pos == 0) && WildFrom(parts, path, i, pos)
    ensures pos <= next <= |path| && WildFrom(parts, path, i + 1, next)
    ensures i > 0 ==> Contains(path[pos..], parts[i])
  {
    var part := parts[i];
    if i == 0 && part != "" {
      next := |part|;
    } else if part != "" {
      FindSpec(path[pos..], part);
      var f := Find(path[pos..], part).value;
      next := pos + f + |part|;
    } else {
      next := pos;
      assert StartsWith(path[pos..], "");
    }
  }

  lemma MiddleStep(path: string, pos: nat, d: nat, x: string)
    requires pos + d <= |path| && Contains(path[pos + d..], x)
    ensures Contains(path[pos..], x)
  {
    assert path[pos..][d..] == path[pos + d..];
    ContainsSuffix(path[pos..], d, x);
  }

  /** A two-part pattern `x*y` blocks exactly the paths that start with `x` and end with `y`. */
  lemma WildTwoParts(x: string, y: string, path: string)
    ensures WildFrom([x, y], path, 0, 0) <==> (x == "" || StartsWith(path, x)) && (y == "" || EndsWith(path, y))
  {
    var parts := [x, y];
    if x == "" {
      assert WildFrom(parts, path, 0, 0) == WildFrom(parts, path, 1, 0);
    } else if StartsWith(path, x) {
      assert WildFrom(parts, path, 0, 0) == WildFrom(parts, path, 1, |x|);
    }
    if y == "" {
      assert WildFrom(parts, path, 1, 0) == WildFrom(parts, path, 2, 0);
      assert |x| <= |path| ==> WildFrom(parts, path, 1, |x|) == WildFrom(parts, path, 2, |x|);
    }
  }

  /** `*x*` with a non-empty `x` matches exactly the strings containing `x`. */
  lemma WildContains(x: string, s: string)
    requires x != ""
    ensures WildFrom(["", x, ""], s, 0, 0) <==> Contains(s, x)
  {
    var parts := ["", x, ""];
    assert s[0..] == s;
    assert WildFrom(parts, s, 0, 0) == WildFrom(parts, s, 1, 0);
    FindSpec(s, x);
    match Find(s, x)
    case None =>
    case Some(f) =>
      assert WildFrom(parts, s, 1, 0) == WildFrom(parts, s, 2, f + |x|);
      assert WildFrom(parts, s, 2, f + |x|) == WildFrom(parts, s, 3, f + |x|);
  }

  /** `x*` for `x` without `*` splits into `x` and the empty string. */
  lemma SplitStarTail(x: string)
    requires '*' !in x
    ensures Split(x + "*", "*") == [x, ""]
  {
    assert x + "*" == x + ['*'] + "";
    SplitConcatChar(x, "", '*');
    CharContains(x, '*');
    SplitNoSep(x, "*");
    SplitNoSep("", "*");
  }

  /** The middle of a directory pattern (a slash, `x`, a star, a slash) hits exactly the paths with a '/'-segment starting with `x`. */
  lemma DirectoryMiddle(x: string, path: string)
    requires '*' !in x
    ensures MiddleVerdict("/" + x + "*" + "/", path) == (if SegmentMatch(Split(path, "/"), x, "") then Hit else Miss)
  {
    var middle := "/" + x + "*" + "/";
    assert StartsWith(middle, "/") && EndsWith(middle, "/");
    assert middle[1..|middle| - 1] == x + "*";
    assert '*' in x + "*";
    SplitStarTail(x);
    forall seg: string ensures EndsWith(seg, "") { assert seg[|seg|..] == ""; }
  }

  // A directory pattern (two stars, a slash, `x`, a star and a slash, two
  // stars) blocks exactly the paths with a '/'-segment starting with `x`.
  lemma DirectoryPattern(pattern: string, x: string, path: string)
    requires '*' !in x && Split(pattern, "**") == ["", "/" + x + "*" + "/", ""]
    ensures PatternVerdict(pattern, path) == (if SegmentMatch(Split(path, "/"), x, "") then Hit else Miss)
  {
    FindSpec(pattern, "**");
    assert Find(pattern, "**").Some?;
    DirectoryMiddle(x, path);
  }

  /** A `**` + `t` pattern with a non-empty `t` blocks exactly the paths ending in `t`, taken literally. */
  lemma TailPattern(pattern: string, t: string, path: string)
    requires t != "" && Split(pattern, "**") == ["", t]
    ensures PatternVerdict(pattern, path) == (if EndsWith(path, t) then Hit else Miss)
  {
    FindSpec(pattern, "**");
    assert Contains(pattern, "**");
    assert StartsWith(path, "");
  }

  /** `**` followed by a `**`-free rest splits into the empty string and the rest. */
  lemma SplitLeadingStars(pattern: string, rest: string)
    requires pattern == "**" + rest && !Contains(rest, "**")
    ensures Split(pattern, "**") == ["", rest]
  {
    assert StartsWith(pattern, "**");
    assert pattern[2..] == rest;
    SplitNoSep(rest, "**");
  }

  /** No two adjacent stars means no `**`. */
  lemma NoDoubleStar(s: string)
    requires forall j :: 0 <= j < |s| - 1 ==> s[j] != '*' || s[j + 1] != '*'
    ensures !Contains(s, "**")
  {
    forall j | 0 <= j <= |s| ensures !StartsWith(s[j..], "**") {
      NotStartsWithAt(s, "**", j);
    }
    FindNone(s, "**");
  }

  // The directory pattern splits on two stars into the empty string, its
  // middle and the empty string.
  lemma SplitDirectoryPattern(pattern: string, x: string)
    requires pattern == "**" + "/" + x + "*" + "/" + "**" && '*' !in x
    ensures Split(pattern, "**") == ["", "/" + x + "*" + "/", ""]
  {
    var middle := "/" + x + "*" + "/";
    var rest := middle + "**";
    assert StartsWith(pattern, "**") && pattern[2..] == rest;
    forall j | 0 <= j < |middle| ensures !StartsWith(rest[j..], "**") {
      NotStartsWithAt(rest, "**", j);
      if j == 0 {
        assert rest[0] == '/';
      } else if j <= |x| {
        assert rest[j] == x[j - 1] && x[j - 1] in x;
      } else if j == |x| + 1 {
        assert rest[j + 1] == '/';
      } else {
        assert rest[j] == '/';
      }
    }
    assert rest[|middle|..|middle| + 2] == "**";
    FindAt(rest, "**", |middle|);
    assert rest[..|middle|] == middle && rest[|middle| + 2..] == "";
    assert Split(rest, "**") == [middle] + Split("", "**");
  }

  /** A lower-case directory pattern around the word `x`. */
  lemma DirectoryWordVerdict(p: string, x: string, path: string)
    requires p == "**" + "/" + x + "*" + "/" + "**" && '*' !in x && NoUpper(x)
    ensures PatternVerdict(ToLower(p), path) == (if SegmentMatch(Split(path, "/"), x, "") then Hit else Miss)
  {
    assert NoUpper(p);
    LowerId(p);
    SplitDirectoryPattern(p, x);
    DirectoryPattern(p, x, path);
  }

  lemma FileVerdict(pattern: string, t: string, path: string)
    requires pattern == "**" + t && t != "" && !Contains(t, "**")
    ensures PatternVerdict(pattern, path) == (if EndsWith(path, t) then Hit else Miss)
  {
    SplitLeadingStars(pattern, t);
    TailPattern(pattern, t, path);
  }

  /** A slash, a star, a star-free word, a star and a star-free tail never hold `**`. */
  lemma StarWordsNoDouble(w: string, u: string)
    requires '*' !in w && '*' !in u && |w| > 0
    ensures !Contains("/*" + w + "*" + u, "**")
  {
    var s := "/*" + w + "*" + u;
    forall j | 0 <= j <= |s| ensures !StartsWith(s[j..], "**") {
      NotStartsWithAt(s, "**", j);
      if j == 0 {
        assert s[0] == '/';
      } else if j == 1 {
        assert s[2] == w[0] && w[0] in w;
      } else if j < |w| + 2 {
        assert s[j] == w[j - 2] && w[j - 2] in w;
      } else if j == |w| + 2 && j + 1 < |s| {
        assert s[j + 1] == u[0] && u[0] in u;
      } else if j > |w| + 2 && j < |s| {
        assert s[j] == u[j - |w| - 3] && u[j - |w| - 3] in u;
      }
    }
    FindNone(s, "**");
  }

  /** A lower-case file pattern: two stars, a slash, a star, the word `w`, a star and the tail `u`. */
  lemma FileWordVerdict(p: string, w: string, u: string, path: string)
    requires p == "**" + ("/*" + w + "*" + u) && '*' !in w && '*' !in u && |w| > 0 && NoUpper(w) && NoUpper(u)
    ensures PatternVerdict(ToLower(p), path) == (if EndsWith(path, "/*" + w + "*" + u) then Hit else Miss)
  {
    FilePatternShape(p, w, u);
    TailPattern(p, "/*" + w + "*" + u, path);
  }

  /** Such a file pattern is lower case and splits on `**` into nothing and the file part. */
  lemma FilePatternShape(p: string, w: string, u: string)
    requires p == "**" + ("/*" + w + "*" + u) && '*' !in w && '*' !in u && |w| > 0 && NoUpper(w) && NoUpper(u)
    ensures ToLower(p) == p
    ensures Split(p, "**") == ["", "/*" + w + "*" + u]
  {
    assert NoUpper(p);
    LowerId(p);
    StarWordsNoDouble(w, u);
    SplitLeadingStars(p, "/*" + w + "*" + u);
  }

  lemma DefaultVerdict0(p: string, x: string, path: string)
    requires p == DefaultPatterns[0] && x == "prod"
    ensures PatternVerdict(ToLower(p), path) == (if SegmentMatch(Split(path, "/"), x, "") then Hit else Miss)
  {
    DirectoryWordVerdict(p, x, path);
  }

  lemma DefaultVerdict1(p: string, x: string, path: string)
    requires p == DefaultPatterns[1] && x == "production"
    ensures PatternVerdict(ToLower(p), path) == (if SegmentMatch(Split(path, "/"), x, "") then Hit else Miss)
  {
    DirectoryWordVerdict(p, x, path);
  }

  lemma DefaultVerdict2(p: string, w: string, u: string, path: string)
    requires p == DefaultPatterns[2] && w == "prod" && u == ".tf"
    ensures PatternVerdict(ToLower(p), path) == (if EndsWith(path, "/*" + w + "*" + u) then Hit else Miss)
    ensures '*' !in path ==> PatternVerdict(ToLower(p), path) == Miss
  {
    FileWordVerdict(p, w, u, path);
    EndsWithStar(path, "/*" + w + "*" + u);
  }

  lemma DefaultVerdict3(p: string, w: string, u: string, path: string)
    requires p == DefaultPatterns[3] && w == "production" && u == ".tf"
    ensures PatternVerdict(ToLower(p), path) == (if EndsWith(path, "/*" + w + "*" + u) then Hit else Miss)
    ensures '*' !in path ==> PatternVerdict(ToLower(p), path) == Miss
  {
    FileWordVerdict(p, w, u, path);
    EndsWithStar(path, "/*" + w + "*" + u);
  }

  lemma DefaultVerdict4(p: string, w: string, u: string, path: string)
    requires p == DefaultPatterns[4] && w == "secret" && u == ""
    ensures PatternVerdict(ToLower(p), path) == (if EndsWith(path, "/*" + w + "*" + u) then Hit else Miss)
    ensures '*' !in path ==> PatternVerdict(ToLower(p), path) == Miss
  {
    FileWordVerdict(p, w, u, path);
    EndsWithStar(path, "/*" + w + "*" + u);
  }

  // ----- the default policy on the paths of the module's own tests -----

  /** The '/'-segments of `a`, a slash, `x`, a slash and `b` include `x` when `x` has no slash. */
  lemma SegmentBetween(a: string, x: string, b: string)
    requires '/' !in x
    ensures x in Split(a + "/" + x + "/" + b, "/")
  {
    assert a + "/" + x + "/" + b == a + ['/'] + (x + ['/'] + b);
    SplitConcatChar(a, x + "/" + b, '/');
    assert x + "/" + b == x + ['/'] + b;
    SplitConcatChar(x, b, '/');
    CharContains(x, '/');
    SplitNoSep(x, "/");
  }

  /** The last '/'-segment of `a`, a slash and `x` is `x` when `x` has no slash. */
  lemma SegmentLast(a: string, x: string)
    requires '/' !in x
    ensures x in Split(a + "/" + x, "/")
    ensures LastSegment(a + "/" + x) == x
  {
    assert a + "/" + x == a + ['/'] + x;
    SplitConcatChar(a, x, '/');
    CharContains(x, '/');
    SplitNoSep(x, "/");
    LastPartJoin(a, x, '/');
    LastPartNone(x, "/");
  }

  /** A segment starting with `x` means the path contains `x`. */
  lemma SegmentMatchContains(path: string, x: string)
    ensures SegmentMatch(Split(path, "/"), x, "") ==> Contains(path, x)
  {
    var segs := Split(path, "/");
    if SegmentMatch(segs, x, "") {
      var k :| 0 <= k < |segs| && StartsWith(segs[k], x) && EndsWith(segs[k], "");
      SplitPartStarts(path, "/", k, x);
    }
  }

  /** A segment that is `x` itself matches the directory pattern for `x`. */
  lemma SegmentIsMatch(path: string, x: string)
    requires x in Split(path, "/")
    ensures SegmentMatch(Split(path, "/"), x, "")
  {
    var segs := Split(path, "/");
    var k :| 0 <= k < |segs| && segs[k] == x;
    assert StartsWith(segs[k], x) && EndsWith(segs[k], "");
  }

  /** A path ending in a text with a star has a star. */
  lemma EndsWithStar(path: string, t: string)
    ensures '*' in t && EndsWith(path, t) ==> '*' in path
  {
    if '*' in t && EndsWith(path, t) {
      var i :| 0 <= i < |t| && t[i] == '*';
      assert path[|path| - |t| + i] == t[i];
    }
  }

  /** On a path without a star, the three default file patterns never block. */
  lemma DefaultFilePatternsLiteral(patterns: seq<string>, path: string)
    requires patterns == DefaultPatterns && '*' !in path
    ensures Verdicts(patterns, path)[2] == Miss
    ensures Verdicts(patterns, path)[3] == Miss
    ensures Verdicts(patterns, path)[4] == Miss
  {
    var vs := Verdicts(patterns, path);
    DefaultVerdict2(patterns[2], "prod", ".tf", path);
    assert vs[2] == PatternVerdict(ToLower(patterns[2]), path);
    DefaultVerdict3(patterns[3], "production", ".tf", path);
    assert vs[3] == PatternVerdict(ToLower(patterns[3]), path);
    DefaultVerdict4(patterns[4], "secret", "", path);
    assert vs[4] == PatternVerdict(ToLower(patterns[4]), path);
  }

  /** A hit after nothing but misses blocks. */
  lemma DecideHitAt(vs: seq<Verdict>, i: nat)
    requires i < |vs| && vs[i] == Hit && forall j :: 0 <= j < i ==> vs[j] == Miss
    ensures Decide(vs) == Some(true)
  {
    DecideBlocks(vs);
  }

  /** A verdict list whose first entry hits blocks. */
  lemma DecideFirstHit(vs: seq<Verdict>)
    requires |vs| > 0 && vs[0] == Hit
    ensures Decide(vs) == Some(true)
  {
  }

  /** With no panicking pattern, one hit anywhere blocks. */
  lemma {:induction false} DecideNoPanic(vs: seq<Verdict>, i: nat)
    requires i < |vs| && vs[i] == Hit && forall j :: 0 <= j < |vs| ==> vs[j] != Panic
    ensures Decide(vs) == Some(true)
  {
    if vs[0] == Miss {
      assert i > 0;
      DecideNoPanic(vs[1..], i - 1);
    }
  }

  /** Under the default policy, a lower-case path with a '/'-segment starting with `prod` is blocked. */
  lemma ProdSegmentBlocked(policy: SecurityPolicy, path: string, x: string)
    requires policy == DefaultPolicy() && x == "prod" && NoUpper(path)
    requires SegmentMatch(Split(path, "/"), x, "")
    ensures FileBlocked(policy, path) == Some(true)
  {
    var ps := policy.blockedFilePatterns;
    LowerId(path);
    var vs := Verdicts(ps, path);
    DefaultVerdict0(ps[0], x, path);
    assert vs[0] == PatternVerdict(ToLower(ps[0]), path);
    DecideFirstHit(vs);
  }

  // A directory named `prod` anywhere in a lower-case path blocks it, as
  // for `/some/path/prod/main.tf`.
  lemma ProdDirectoryBlocked(policy: SecurityPolicy, path: string, a: string, x: string, b: string)
    requires policy == DefaultPolicy() && x == "prod" && NoUpper(path)
    requires path == a + "/" + x + "/" + b
    ensures FileBlocked(policy, path) == Some(true)
  {
    assert '/' !in x;
    SegmentBetween(a, x, b);
    SegmentIsMatch(path, x);
    ProdSegmentBlocked(policy, path, x);
  }

  // A file name starting with `prod` blocks a lower-case path, as for
  // `/some/path/production.tf`.
  lemma ProdFileBlocked(policy: SecurityPolicy, path: string, a: string, x: string, w: string)
    requires policy == DefaultPolicy() && w == "prod" && NoUpper(path)
    requires StartsWith(x, w) && '/' !in x && path == a + "/" + x
    ensures FileBlocked(policy, path) == Some(true)
  {
    SegmentLast(a, x);
    var segs := Split(path, "/");
    var k :| 0 <= k < |segs| && segs[k] == x;
    assert StartsWith(segs[k], w) && EndsWith(segs[k], "");
    ProdSegmentBlocked(policy, path, w);
  }

  /** Under the default policy, a lower-case, star-free path in which `prod` does not occur is not blocked. */
  lemma UnrelatedPathAllowed(policy: SecurityPolicy, path: string, x: string, y: string)
    requires policy == DefaultPolicy() && x == "prod" && y == "production"
    requires NoUpper(path) && !Contains(path, x) && '*' !in path
    ensures FileBlocked(policy, path) == Some(false)
  {
    var ps := policy.blockedFilePatterns;
    LowerId(path);
    var vs := Verdicts(ps, path);
    SegmentMatchContains(path, x);
    DefaultVerdict0(ps[0], x, path);
    assert vs[0] == PatternVerdict(ToLower(ps[0]), path);
    assert StartsWith(y, x);
    ContainsPrefixOf(path, x, y);
    SegmentMatchContains(path, y);
    DefaultVerdict1(ps[1], y, path);
    assert vs[1] == PatternVerdict(ToLower(ps[1]), path);
    DefaultFilePatternsLiteral(ps, path);
    DecideFiveMiss(vs);
    assert FileBlocked(policy, path) == Decide(vs);
  }

  lemma DecideFiveMiss(vs: seq<Verdict>)
    requires |vs| == 5 && vs[0] == Miss && vs[1] == Miss && vs[2] == Miss && vs[3] == Miss && vs[4] == Miss
    ensures Decide(vs) == Some(false)
  {
  }

  // ----- the `**` + `/*secret*` pattern -----

  /** Splitting a star, `w`, a star and `u` on stars, with `w` and `u` star-free. */
  lemma SplitStarWords(w: string, u: string)
    requires '*' !in w && '*' !in u
    ensures Split("*" + w + "*" + u, "*") == ["", w, u]
  {
    assert "*" + w + "*" + u == "" + ['*'] + (w + ['*'] + u);
    SplitConcatChar("", w + "*" + u, '*');
    assert w + "*" + u == w + ['*'] + u;
    SplitConcatChar(w, u, '*');
    SplitNoSep("", "*");
    CharContains(w, '*');
    SplitNoSep(w, "*");
    CharContains(u, '*');
    SplitNoSep(u, "*");
  }

  // Corrected, a lower-case file pattern (two stars, a slash, a star, `w`,
  // a star) hits exactly the paths whose last segment contains `w`.
  lemma FileWordCorrected(p: string, w: string, path: string)
    requires p == "**" + ("/*" + w + "*" + "") && '*' !in w && |w| > 0 && NoUpper(w)
    ensures CorrectedVerdict(ToLower(p), path) == (if Contains(LastSegment(path), w) then Hit else Miss)
  {
    var t := "/*" + w + "*" + "";
    var s := "*" + w + "*" + "";
    FilePatternShape(p, w, "");
    SlashStarTail(w);
    CorrectedTail(p, t, path);
    SplitStarWords(w, "");
    WildContains(w, LastSegment(path));
  }

  lemma SlashStarTail(w: string)
    ensures ("/*" + w + "*" + "")[1..] == "*" + w + "*" + ""
    ensures ("/*" + w + "*" + "")[1] == '*'
  {
    assert "/*" + w + "*" + "" == "/" + ("*" + w + "*" + "");
  }

  /** Corrected, a `**` + `/x` pattern with a star in `x` matches `x` against the last segment. */
  lemma CorrectedTail(pattern: string, t: string, path: string)
    requires Split(pattern, "**") == ["", t] && StartsWith(t, "/") && '*' in t
    ensures CorrectedVerdict(pattern, path) == (if WildFrom(Split(t[1..], "*"), LastSegment(path), 0, 0) then Hit else Miss)
  {
    FindSpec(pattern, "**");
  }

  /** Corrected, the secret-file pattern hits exactly the paths whose last segment contains `secret`. */
  lemma SecretPatternCorrected(p: string, w: string, path: string)
    requires p == DefaultPatterns[4] && w == "secret"
    ensures CorrectedVerdict(ToLower(p), path) == (if Contains(LastSegment(path), w) then Hit else Miss)
  {
    FileWordCorrected(p, w, path);
  }

  /** Corrected, the default policy blocks every lower-case path whose file name contains `secret`. */
  lemma CorrectedBlocksSecretFiles(policy: SecurityPolicy, path: string, x: string, y: string, t: string, w: string)
    requires policy == DefaultPolicy() && x == "prod" && y == "production" && t == ".tf" && w == "secret"
    requires NoUpper(path) && Contains(LastSegment(path), w)
    ensures FileBlockedCorrected(policy, path) == Some(true)
  {
    var ps := policy.blockedFilePatterns;
    LowerId(path);
    var cvs := CorrectedVerdicts(ps, path);
    DefaultVerdict0(ps[0], x, path);
    assert cvs[0] == CorrectedVerdict(ToLower(ps[0]), path);
    DefaultVerdict1(ps[1], y, path);
    assert cvs[1] == CorrectedVerdict(ToLower(ps[1]), path);
    DefaultVerdict2(ps[2], x, t, path);
    assert cvs[2] == CorrectedVerdict(ToLower(ps[2]), path);
    DefaultVerdict3(ps[3], y, t, path);
    assert cvs[3] == CorrectedVerdict(ToLower(ps[3]), path);
    SecretPatternCorrected(ps[4], w, path);
    assert cvs[4] == CorrectedVerdict(ToLower(ps[4]), path);
    DecideLastHit(cvs);
  }

  lemma DecideLastHit(vs: seq<Verdict>)
    requires |vs| == 5 && vs[0] != Panic && vs[1] != Panic && vs[2] != Panic && vs[3] != Panic && vs[4] == Hit
    ensures Decide(vs) == Some(true)
  {
    DecideNoPanic(vs, 4);
  }

  // As written, `/app/secret.tfvars` passes the default policy; corrected,
  // it is blocked.
  lemma SecretFileMissed(policy: SecurityPolicy, path: string, a: string, x: string, w: string)
    requires policy == DefaultPolicy() && a == "/app" && w == "secret" && x == w + ".tfvars"
    requires path == a + "/" + x
    ensures FileBlocked(policy, path) == Some(false)
    ensures FileBlockedCorrected(policy, path) == Some(true)
  {
    assert NoUpper(path) && 'o' !in path && '*' !in path && '/' !in x;
    ContainsChars(path, "prod", 'o');
    UnrelatedPathAllowed(policy, path, "prod", "production");
    SegmentLast(a, x);
    assert StartsWith(x, w);
    CorrectedBlocksSecretFiles(policy, path, "prod", "production", ".tf", w);
  }
}

/**
 * Provider information read from `terraform providers` and from the
 * dependency lock file (src/terraform/providers.rs): the reading of one
 * `provider[host/namespace/name] version` line, the first-occurrence
 * deduplication of the command's output, the line-by-line state machine
 * over `.terraform.lock.hcl`, and the brace-counting scan for
 * `required_providers` version constraints.  The command's outcome and the
 * lock file's state are inputs.
 */
module Providers {
  import opened Wrappers
  import opened Strs
  import opened Process

  datatype ProviderInfo = ProviderInfo(
    name: string,
    namespace: string,
    version: Option<string>,
    versionConstraints: Option<string>,
    source: string)

  datatype ProviderLock = ProviderLock(name: string, version: string, constraints: Option<string>, hashes: seq<string>)

  datatype ProvidersResult = ProvidersResult(
    success: bool,
    providers: seq<ProviderInfo>,
    locks: Option<seq<ProviderLock>>,
    message: string)

  const ProviderBracket := "provider["
  const RegistryHost := "registry.terraform.io"

  // ---------------------------------------------------------------------
  // One line of `terraform providers`
  // ---------------------------------------------------------------------

  /** The line with its tree-drawing prefix (`├`, `└`, `─`, spaces) and surrounding whitespace removed. */
  function StripTree(line: string): string {
    Trim(DropTree(line))
  }

  /** The four `trim_start_matches` calls, in the source's order. */
  function DropTree(line: string): string {
    TrimStartMatches(TrimStartMatches(TrimStartMatches(TrimStartMatches(line, '├'), '└'), '─'), ' ')
  }

  /**
   * What a parsed line promises: the path has at least three '/'-separated
   * parts, the last two are the name and the namespace, the path holds no
   * ']', and the version, when present, is one non-empty word that also
   * serves as the constraint.
   */
  predicate ParsedShape(p: ProviderInfo) {
    var parts := Split(p.source, "/");
    && p.versionConstraints == p.version && ']' !in p.source
    && |parts| >= 3 && p.name == parts[|parts| - 1] && p.namespace == parts[|parts| - 2]
    && (p.version.Some? ==> |p.version.value| > 0 && forall c :: c in p.version.value ==> !IsSpace(c))
  }

  /**
   * `parse_provider_line`: the path between "provider[" and the next ']'
   * names the provider when it has at least three '/'-separated parts;
   * the first word after the ']' is both the version and the constraint.
   */
  function ParseProviderLine(raw: string): (r: Option<ProviderInfo>)
    ensures r.Some? ==> ParsedShape(r.value)
  {
    ParseBracketed(StripTree(raw))
  }

  /** The part of `parse_provider_line` after the stripping: the bracketed path and what follows it. */
  function ParseBracketed(line: string): (r: Option<ProviderInfo>)
    ensures r.Some? ==> ParsedShape(r.value)
  {
    match Find(line, ProviderBracket)
    case None => None
    case Some(start) =>
      var rest := line[start + |ProviderBracket|..];
      match Find(rest, "]")
      case None => None
      case Some(end) =>
        QuoteFreeChar(rest, ']');
        ProviderOfPath(rest[..end], rest[end + 1..])
  }

  /** A bracketed path of at least three parts, and the first word after it. */
  function ProviderOfPath(path: string, after: string): (r: Option<ProviderInfo>)
    requires ']' !in path
    ensures r.Some? ==> ParsedShape(r.value)
  {
    var parts := Split(path, "/");
    if |parts| >= 3 then
      var version := FirstWord(after);
      Some(ProviderInfo(parts[|parts| - 1], parts[|parts| - 2], version, version, path))
    else None
  }

  /** Everything before the first `c` is free of `c`. */
  lemma QuoteFreeChar(s: string, c: char)
    ensures Find(s, [c]).Some? ==> c !in s[..Find(s, [c]).value]
  {
    FindSpec(s, [c]);
    if Find(s, [c]).Some? {
      var i := Find(s, [c]).value;
      forall k | 0 <= k < i ensures s[k] != c {
        StartsWithChar(s, k, c);
      }
    }
  }

  /** A match in what `trim_start_matches` keeps is a match in the whole. */
  lemma ContainsAfterTrimMatches(s: string, c: char, x: string)
    requires Contains(TrimStartMatches(s, c), x)
    ensures Contains(s, x)
  {
    TrimStartMatchesSuffix(s, c);
    ContainsSuffix(s, |s| - |TrimStartMatches(s, c)|, x);
  }

  /** A match in what `trim` keeps is a match in the whole. */
  lemma ContainsAfterTrim(s: string, x: string)
    requires Contains(Trim(s), x)
    ensures Contains(s, x)
  {
    var t := TrimStart(s);
    var e := TrimEnd(t);
    TrimEndPrefix(t);
    assert t == e + t[|e|..];
    ContainsPrefix(t[|e|..], e, x);
    TrimStartSuffix(s);
    ContainsSuffix(s, |s| - |t|, x);
  }

  /** A line that does not mention "provider[" is never a provider line. */
  lemma NoBracketNoProvider(raw: string)
    ensures !Contains(raw, ProviderBracket) ==> ParseProviderLine(raw).None?
  {
    var line := StripTree(raw);
    FindSpec(line, ProviderBracket);
    if Contains(line, ProviderBracket) {
      var a := TrimStartMatches(raw, '├');
      var b := TrimStartMatches(a, '└');
      var c := TrimStartMatches(b, '─');
      ContainsAfterTrim(DropTree(raw), ProviderBracket);
      ContainsAfterTrimMatches(c, ' ', ProviderBracket);
      ContainsAfterTrimMatches(b, '─', ProviderBracket);
      ContainsAfterTrimMatches(a, '└', ProviderBracket);
      ContainsAfterTrimMatches(raw, '├', ProviderBracket);
    }
  }

  /** The text of a provider line: the bracketed `host/namespace/name` and a version word. */
  function ProviderLineText(host: string, namespace: string, name: string, version: string): string {
    ProviderBracket + host + "/" + namespace + "/" + name + "] " + version
  }

  predicate PlainSegment(s: string) {
    '/' !in s && ']' !in s
  }

  predicate Word(s: string) {
    |s| > 0 && forall i :: 0 <= i < |s| ==> !IsSpace(s[i])
  }

  /**
   * A provider line reads back as the provider it was written from: the
   * last two path segments are the name and namespace, the whole path is
   * the source, and the word after ']' is the version.
   */
  lemma ProviderLineRoundTrip(host: string, namespace: string, name: string, version: string)
    requires ']' !in host && PlainSegment(namespace) && PlainSegment(name) && Word(version)
    ensures ParseProviderLine(ProviderLineText(host, namespace, name, version))
      == Some(ProviderInfo(name, namespace, Some(version), Some(version), host + "/" + namespace + "/" + name))
  {
    var line := ProviderLineText(host, namespace, name, version);
    StripPlain(line);
    BracketedRoundTrip(host, namespace, name, version);
  }

  lemma BracketedRoundTrip(host: string, namespace: string, name: string, version: string)
    requires ']' !in host && PlainSegment(namespace) && PlainSegment(name) && Word(version)
    ensures ParseBracketed(ProviderLineText(host, namespace, name, version))
      == Some(ProviderInfo(name, namespace, Some(version), Some(version), host + "/" + namespace + "/" + name))
  {
    var path := host + "/" + namespace + "/" + name;
    assert ProviderLineText(host, namespace, name, version) == ProviderBracket + path + "]" + (" " + version);
    BracketedOf(path, " " + version);
    PathRoundTrip(host, namespace, name, version);
  }

  /** The text between "provider[" and the first ']' is the path. */
  lemma BracketedOf(path: string, after: string)
    requires ']' !in path
    ensures ParseBracketed(ProviderBracket + path + "]" + after) == ProviderOfPath(path, after)
  {
    var line := ProviderBracket + path + "]" + after;
    var tail := "]" + after;
    assert line == ProviderBracket + (path + tail);
    assert Find(line, ProviderBracket) == Some(0);
    var rest := line[|ProviderBracket|..];
    assert rest == path + tail;
    FindCharAfter(path, tail, ']');
    assert rest[..|path|] == path;
    assert rest[|path| + 1..] == after;
  }

  lemma PathRoundTrip(host: string, namespace: string, name: string, version: string)
    requires ']' !in host && PlainSegment(namespace) && PlainSegment(name) && Word(version)
    ensures ProviderOfPath(host + "/" + namespace + "/" + name, " " + version)
      == Some(ProviderInfo(name, namespace, Some(version), Some(version), host + "/" + namespace + "/" + name))
  {
    PathParts(host, namespace, name);
    FirstWordOf(version);
  }

  /** A line that starts with "provider[" and ends in a word is left alone by the stripping. */
  lemma StripPlain(line: string)
    requires StartsWith(line, ProviderBracket) && !IsSpace(line[|line| - 1])
    ensures StripTree(line) == line
  {
    assert line[0] == ProviderBracket[0];
    StripPlainStart(line);
    assert TrimStart(line) == line;
  }

  lemma PathParts(host: string, namespace: string, name: string)
    requires PlainSegment(namespace) && PlainSegment(name)
    ensures var parts := Split(host + "/" + namespace + "/" + name, "/");
      |parts| >= 3 && parts[|parts| - 1] == name && parts[|parts| - 2] == namespace
  {
    var front := host + "/" + namespace;
    CharContains(namespace, '/');
    CharContains(name, '/');
    SplitNoSep(namespace, "/");
    SplitNoSep(name, "/");
    SplitConcatChar(host, namespace, '/');
    var hs := Split(host, "/");
    assert Split(front, "/") == hs + [namespace];
    SplitConcatChar(front, name, '/');
    assert Split(front + "/" + name, "/") == hs + [namespace] + [name];
  }

  lemma FirstWordOf(w: string)
    requires Word(w)
    ensures FirstWord(" " + w) == Some(w)
  {
    assert TrimStart(" " + w) == TrimStart(w);
    TakeWordAll(w);
  }

  lemma {:induction false} TakeWordAll(w: string)
    requires forall i :: 0 <= i < |w| ==> !IsSpace(w[i])
    ensures TakeWord(w) == w
  {
    if |w| > 0 {
      TakeWordAll(w[1..]);
    }
  }

  /** `trim_start_matches(c)` removes a run of `c` up to the first other character. */
  lemma {:induction false} TrimRun(run: string, rest: string, c: char)
    requires forall i :: 0 <= i < |run| ==> run[i] == c
    requires rest == [] || rest[0] != c
    ensures TrimStartMatches(run + rest, c) == rest
    decreases |run|
  {
    if |run| > 0 {
      assert (run + rest)[1..] == run[1..] + rest;
      TrimRun(run[1..], rest, c);
    } else {
      assert run + rest == rest;
    }
  }

  /** The stripping of a line that begins with a character other than the tree characters. */
  lemma StripPlainStart(line: string)
    requires |line| > 0 && line[0] !in {'├', '└', '─', ' '}
    ensures StripTree(line) == Trim(line)
  {
    TrimRun([], line, '├');
    TrimRun([], line, '└');
    TrimRun([], line, '─');
    TrimRun([], line, ' ');
  }

  /** The tree-drawing prefix in front of a provider line makes no difference. */
  lemma TreePrefixIgnored(line: string)
    requires |line| > 0 && line[0] !in {'├', '└', '─', ' '}
    ensures StripTree("└── " + line) == StripTree(line)
  {
    var s3 := " " + line;
    var s2 := "──" + s3;
    var s := "└" + s2;
    assert s == "└── " + line;
    TrimRun([], s, '├');
    TrimRun("└", s2, '└');
    TrimRun("──", s3, '─');
    TrimRun(" ", line, ' ');
    StripPlainStart(line);
  }

  // ---------------------------------------------------------------------
  // The whole output of `terraform providers`
  // ---------------------------------------------------------------------

  /** The key under which `parse_providers_output` deduplicates. */
  function Key(p: ProviderInfo): string {
    p.namespace + "/" + p.name
  }

  function KeysOf(ps: seq<ProviderInfo>): set<string> {
    set p | p in ps :: Key(p)
  }

  /**
   * What one output line contributes before deduplication.  Header lines
   * and the rest go through the same test in the source, so they are not
   * told apart here.
   */
  function Parsed(raw: string): Option<ProviderInfo> {
    var line := Trim(raw);
    if Contains(line, ProviderBracket) || Contains(line, RegistryHost) then ParseProviderLine(line) else None
  }

  /** The parse of each line, in order. */
  function ParsedAll(lines: seq<string>, parse: string -> Option<ProviderInfo>): (r: seq<Option<ProviderInfo>>)
    ensures |r| == |lines| && forall i :: 0 <= i < |lines| ==> r[i] == parse(lines[i])
  {
    seq(|lines|, i requires 0 <= i < |lines| => parse(lines[i]))
  }

  /** Appends `x` unless a provider with its key is already there. */
  function Keep(acc: seq<ProviderInfo>, x: Option<ProviderInfo>): seq<ProviderInfo> {
    if x.Some? && Key(x.value) !in KeysOf(acc) then acc + [x.value] else acc
  }

  /** The first provider of each key, in the order the keys first appear. */
  function FirstByKey(xs: seq<Option<ProviderInfo>>): seq<ProviderInfo> {
    if |xs| == 0 then [] else Keep(FirstByKey(xs[..|xs| - 1]), xs[|xs| - 1])
  }

  /** For each kept provider, the position it was taken from. */
  ghost function Origin(xs: seq<Option<ProviderInfo>>): seq<nat> {
    if |xs| == 0 then []
    else
      var init := xs[..|xs| - 1];
      var x := xs[|xs| - 1];
      if x.Some? && Key(x.value) !in KeysOf(FirstByKey(init)) then Origin(init) + [|xs| - 1] else Origin(init)
  }

  /**
   * Deduplication keeps exactly one provider per key: each kept provider
   * is the first with its key, kept providers appear in input order, and
   * every key in the input is represented.
   */
  lemma {:induction false} FirstByKeySpec(xs: seq<Option<ProviderInfo>>)
    ensures var r, o := FirstByKey(xs), Origin(xs);
      |o| == |r|
      && (forall j :: 0 <= j < |r| ==> o[j] < |xs| && xs[o[j]] == Some(r[j]))
      && (forall j, i :: 0 <= j < |r| && 0 <= i < o[j] && xs[i].Some? ==> Key(xs[i].value) != Key(r[j]))
      && (forall j1, j2 :: 0 <= j1 < j2 < |r| ==> o[j1] < o[j2])
      && (forall i :: 0 <= i < |xs| && xs[i].Some? ==> Key(xs[i].value) in KeysOf(r))
  {
    if |xs| > 0 {
      var init := xs[..|xs| - 1];
      var x := xs[|xs| - 1];
      FirstByKeySpec(init);
      var r0, o0 := FirstByKey(init), Origin(init);
      var r, o := FirstByKey(xs), Origin(xs);
      assert forall i :: 0 <= i < |init| ==> init[i] == xs[i];
      if x.Some? && Key(x.value) !in KeysOf(r0) {
        assert r == r0 + [x.value] && o == o0 + [|xs| - 1];
        forall j, i | 0 <= j < |r| && 0 <= i < o[j] && xs[i].Some?
          ensures Key(xs[i].value) != Key(r[j])
        {
          if j == |r0| {
            assert Key(xs[i].value) in KeysOf(r0);
          }
        }
        assert forall p :: p in r0 ==> p in r;
      } else {
        assert r == r0 && o == o0;
      }
    }
  }

  predicate DistinctKeys(ps: seq<ProviderInfo>) {
    forall j1, j2 :: 0 <= j1 < j2 < |ps| ==> Key(ps[j1]) != Key(ps[j2])
  }

  /** No two kept providers share a key. */
  lemma {:induction false} FirstByKeyDistinct(xs: seq<Option<ProviderInfo>>)
    ensures DistinctKeys(FirstByKey(xs))
  {
    if |xs| > 0 {
      var init := xs[..|xs| - 1];
      FirstByKeyDistinct(init);
      var r0 := FirstByKey(init);
      var x := xs[|xs| - 1];
      var r := FirstByKey(xs);
      if x.Some? && Key(x.value) !in KeysOf(r0) {
        assert r == r0 + [x.value];
        forall j1, j2 | 0 <= j1 < j2 < |r| ensures Key(r[j1]) != Key(r[j2]) {
          if j2 == |r0| {
            assert r[j1] == r0[j1] && r0[j1] in r0;
            assert Key(r[j1]) in KeysOf(r0);
          } else {
            assert r[j1] == r0[j1] && r[j2] == r0[j2];
          }
        }
      }
    }
  }

  /** `parse_providers_output`: the lines are read in order, with a set of the keys seen so far. */
  method ParseProvidersOutput(output: string) returns (providers: seq<ProviderInfo>)
    ensures providers == FirstByKey(ParsedAll(Lines(output), Parsed))
  {
    providers := ParseProviderLines(Lines(output), Parsed);
  }

  /** The loop of `parse_providers_output`, over the lines and the reading of one line. */
  method ParseProviderLines(lines: seq<string>, parse: string -> Option<ProviderInfo>) returns (providers: seq<ProviderInfo>)
    ensures providers == FirstByKey(ParsedAll(lines, parse))
  {
    ghost var xs := ParsedAll(lines, parse);
    var seen: set<string> := {};
    providers := [];
    var i := 0;
    while i < |lines|
      invariant 0 <= i <= |lines|
      invariant providers == FirstByKey(xs[..i])
      invariant seen == KeysOf(providers)
    {
      assert xs[..i + 1][..i] == xs[..i];
      var p := parse(lines[i]);
      if p.Some? && Key(p.value) !in seen {
        seen := seen + {Key(p.value)};
        providers := providers + [p.value];
      }
      i := i + 1;
    }
    assert xs[..i] == xs;
  }

  // ---------------------------------------------------------------------
  // `.terraform.lock.hcl`
  // ---------------------------------------------------------------------

  const ProviderOpen := "provider \""
  const VersionKey := "version"
  const ConstraintsKey := "constraints"
  const H1Hash := "\"h1:"
  const ZhHash := "\"zh:"

  /** The block being read: its provider, version, constraints and hashes so far. */
  datatype LockState = LockState(
    locks: seq<ProviderLock>,
    provider: Option<string>,
    version: Option<string>,
    constraints: Option<string>,
    hashes: seq<string>)

  const LockStart := LockState([], None, None, None, [])

  /** The lock the current block yields: one exactly when it has both a provider and a version. */
  function Flush(st: LockState): (r: seq<ProviderLock>)
    ensures |r| <= 1
    ensures |r| == 1 <==> st.provider.Some? && st.version.Some?
  {
    if st.provider.Some? && st.version.Some? then
      [ProviderLock(st.provider.value, st.version.value, st.constraints, st.hashes)]
    else []
  }

  /** A hash line `"h1:…",` without its quotes: the text up to the next quote. */
  function HashOf(line: string): Option<string>
    requires |line| > 0
  {
    match Find(line[1..], Quote)
    case None => None
    case Some(end) => Some(line[1..end + 1])
  }

  predicate IsHashLine(line: string) {
    StartsWith(line, H1Hash) || StartsWith(line, ZhHash)
  }

  /**
   * One line of the lock file.  A `provider "` line closes the current
   * block and opens the next (keeping the old name when the new one has no
   * closing quote); `version`, `constraints` and hash lines fill it in.
   */
  function LockStep(st: LockState, raw: string): LockState {
    var line := Trim(raw);
    if StartsWith(line, ProviderOpen) then
      var name := if Quoted(line).Some? then Quoted(line) else st.provider;
      LockState(st.locks + Flush(st), name, None, None, [])
    else if StartsWith(line, VersionKey) then
      if Quoted(line).Some? then st.(version := Quoted(line)) else st
    else if StartsWith(line, ConstraintsKey) then
      if Quoted(line).Some? then st.(constraints := Quoted(line)) else st
    else if IsHashLine(line) then
      match HashOf(line)
      case Some(h) => st.(hashes := st.hashes + [h])
      case None => st
    else st
  }

  function LockFold(st: LockState, lines: seq<string>): LockState {
    if |lines| == 0 then st else LockStep(LockFold(st, lines[..|lines| - 1]), lines[|lines| - 1])
  }

  /** `parse_lock_hcl` on the lines of the file: the locks closed by the lines, then the last block's. */
  function Locks(lines: seq<string>): seq<ProviderLock> {
    var st := LockFold(LockStart, lines);
    st.locks + Flush(st)
  }

  /** `parse_lock_hcl`: the lines are read in order; the source never returns an error. */
  method ParseLockHcl(content: string) returns (locks: seq<ProviderLock>)
    ensures locks == Locks(Lines(content))
  {
    var lines := Lines(content);
    locks := [];
    var provider: Option<string> := None;
    var version: Option<string> := None;
    var constraints: Option<string> := None;
    var hashes: seq<string> := [];
    var i := 0;
    while i < |lines|
      invariant 0 <= i <= |lines|
      invariant LockState(locks, provider, version, constraints, hashes) == LockFold(LockStart, lines[..i])
    {
      assert lines[..i + 1][..i] == lines[..i];
      locks, provider, version, constraints, hashes := ReadLockLine(locks, provider, version, constraints, hashes, lines[i]);
      i := i + 1;
    }
    assert lines[..i] == lines;
    if provider.Some? && version.Some? {
      locks := locks + [ProviderLock(provider.value, version.value, constraints, hashes)];
    }
  }

  /** The body of `parse_lock_hcl`'s loop: one line read into the local variables. */
  method ReadLockLine(locks: seq<ProviderLock>, provider: Option<string>, version: Option<string>,
                      constraints: Option<string>, hashes: seq<string>, raw: string)
    returns (locks': seq<ProviderLock>, provider': Option<string>, version': Option<string>,
             constraints': Option<string>, hashes': seq<string>)
    ensures LockState(locks', provider', version', constraints', hashes')
      == LockStep(LockState(locks, provider, version, constraints, hashes), raw)
  {
    locks', provider', version', constraints', hashes' := locks, provider, version, constraints, hashes;
    var line := Trim(raw);
    if StartsWith(line, ProviderOpen) {
      if provider.Some? && version.Some? {
        locks' := locks + [ProviderLock(provider.value, version.value, constraints, hashes)];
      }
      var name := Quoted(line);
      if name.Some? {
        provider' := name;
      }
      version', constraints', hashes' := None, None, [];
    } else if StartsWith(line, VersionKey) {
      var v := Quoted(line);
      if v.Some? {
        version' := v;
      }
    } else if StartsWith(line, ConstraintsKey) {
      var c := Quoted(line);
      if c.Some? {
        constraints' := c;
      }
    } else if IsHashLine(line) {
      var h := HashOf(line);
      if h.Some? {
        hashes' := hashes + [h.value];
      }
    }
  }

  lemma {:induction false} LockFoldAppend(st: LockState, a: seq<string>, b: seq<string>)
    ensures LockFold(st, a + b) == LockFold(LockFold(st, a), b)
    decreases |b|
  {
    if |b| == 0 {
      assert a + b == a;
    } else {
      assert (a + b)[..|a + b| - 1] == a + b[..|b| - 1];
      LockFoldAppend(st, a, b[..|b| - 1]);
    }
  }

  /** The locks already closed play no part in what the following lines do. */
  lemma {:induction false} LockFoldShift(st: LockState, pre: seq<ProviderLock>, lines: seq<string>)
    ensures LockFold(st.(locks := pre + st.locks), lines)
      == LockFold(st, lines).(locks := pre + LockFold(st, lines).locks)
    decreases |lines|
  {
    if |lines| > 0 {
      var init := lines[..|lines| - 1];
      LockFoldShift(st, pre, init);
      var s0 := LockFold(st, init);
      assert (pre + s0.locks) + Flush(s0) == pre + (s0.locks + Flush(s0));
    }
  }

  predicate OpensBlock(raw: string) {
    StartsWith(Trim(raw), ProviderOpen)
  }

  /** A `provider "` line closes the current block and resets version, constraints and hashes. */
  lemma OpenStep(st: LockState, raw: string)
    requires OpensBlock(raw)
    ensures LockStep(st, raw) == LockState(st.locks + Flush(st),
                                           if Quoted(Trim(raw)).Some? then Quoted(Trim(raw)) else st.provider,
                                           None, None, [])
  {
  }

  /**
   * A `provider "…"` line closes the block before it: the locks of the
   * lines before it and of the lines from it on are read independently.
   */
  lemma LocksAppendBlock(a: seq<string>, b: seq<string>)
    requires |b| > 0 && OpensBlock(b[0]) && Quoted(Trim(b[0])).Some?
    ensures Locks(a + b) == Locks(a) + Locks(b)
  {
    var rest := b[1..];
    assert b == [b[0]] + rest;
    assert a + b == (a + [b[0]]) + rest;
    LockFoldAppend(LockStart, a + [b[0]], rest);
    LockFoldAppend(LockStart, [b[0]], rest);
    assert (a + [b[0]])[..|a|] == a;
    assert [b[0]][..0] == [];
    var s := LockFold(LockStart, a);
    var t0 := LockFold(LockStart, [b[0]]);
    assert t0 == LockStep(LockStart, b[0]);
    OpenStep(LockStart, b[0]);
    OpenStep(s, b[0]);
    assert LockFold(LockStart, a + [b[0]]) == LockStep(s, b[0]);
    assert LockStep(s, b[0]) == t0.(locks := Locks(a) + t0.locks);
    LockFoldShift(t0, Locks(a), rest);
    var f0 := LockFold(t0, rest);
    assert (Locks(a) + f0.locks) + Flush(f0) == Locks(a) + (f0.locks + Flush(f0));
  }

  /** The quoted text of the last line starting with `key` that has one, else `dflt`. */
  function LastQuoted(lines: seq<string>, key: string, dflt: Option<string>): Option<string> {
    if |lines| == 0 then dflt
    else
      var line := Trim(lines[|lines| - 1]);
      if StartsWith(line, key) && Quoted(line).Some? then Quoted(line)
      else LastQuoted(lines[..|lines| - 1], key, dflt)
  }

  /** The hashes of the hash lines, in order. */
  function HashesIn(lines: seq<string>): seq<string> {
    if |lines| == 0 then []
    else
      var line := Trim(lines[|lines| - 1]);
      HashesIn(lines[..|lines| - 1]) + (if IsHashLine(line) && HashOf(line).Some? then [HashOf(line).value] else [])
  }

  /**
   * Inside a block, each field is read on its own: the version and the
   * constraints are the last ones given, the hashes are all of them in
   * order, and no lock is closed.
   */
  lemma {:induction false} BlockFold(st: LockState, body: seq<string>)
    requires forall i :: 0 <= i < |body| ==> !OpensBlock(body[i])
    ensures LockFold(st, body) == LockState(st.locks, st.provider, LastQuoted(body, VersionKey, st.version),
                                            LastQuoted(body, ConstraintsKey, st.constraints), st.hashes + HashesIn(body))
    decreases |body|
  {
    if |body| == 0 {
      assert st.hashes + [] == st.hashes;
    } else {
      var init := body[..|body| - 1];
      BlockFold(st, init);
      var line := Trim(body[|body| - 1]);
      assert !StartsWith(line, ProviderOpen);
      KeysExclusive(line);
      var h := if IsHashLine(line) && HashOf(line).Some? then [HashOf(line).value] else [];
      assert (st.hashes + HashesIn(init)) + h == st.hashes + (HashesIn(init) + h);
    }
  }

  /** A line starts with at most one of the keys the lock file reader looks for. */
  lemma KeysExclusive(line: string)
    ensures StartsWith(line, VersionKey) ==> !StartsWith(line, ConstraintsKey) && !IsHashLine(line)
    ensures StartsWith(line, ConstraintsKey) ==> !IsHashLine(line)
  {
    if StartsWith(line, VersionKey) { assert line[0] == VersionKey[0]; }
    if StartsWith(line, ConstraintsKey) { assert line[0] == ConstraintsKey[0]; }
    if StartsWith(line, H1Hash) { assert line[0] == H1Hash[0]; }
    if StartsWith(line, ZhHash) { assert line[0] == ZhHash[0]; }
  }

  /**
   * One block yields one lock exactly when it has a version line: the lock
   * carries the block's name, its last version and constraints, and its
   * hashes in order.
   */
  lemma SingleBlock(first: string, body: seq<string>)
    requires OpensBlock(first) && Quoted(Trim(first)).Some?
    requires forall i :: 0 <= i < |body| ==> !OpensBlock(body[i])
    ensures var v := LastQuoted(body, VersionKey, None);
      Locks([first] + body)
        == if v.Some? then [ProviderLock(Quoted(Trim(first)).value, v.value, LastQuoted(body, ConstraintsKey, None), HashesIn(body))]
           else []
  {
    BlockOpenState(first, body);
    var f := LockState([], Quoted(Trim(first)), LastQuoted(body, VersionKey, None),
                       LastQuoted(body, ConstraintsKey, None), HashesIn(body));
    LocksOfState([first] + body, f);
    EmptyConcat(Flush(f));
  }

  lemma LocksOfState(lines: seq<string>, st: LockState)
    requires LockFold(LockStart, lines) == st
    ensures Locks(lines) == st.locks + Flush(st)
  {
  }

  /** The state after one block: its name, its last version and constraints, all its hashes. */
  lemma BlockOpenState(first: string, body: seq<string>)
    requires OpensBlock(first) && Quoted(Trim(first)).Some?
    requires forall i :: 0 <= i < |body| ==> !OpensBlock(body[i])
    ensures LockFold(LockStart, [first] + body)
      == LockState([], Quoted(Trim(first)), LastQuoted(body, VersionKey, None),
                   LastQuoted(body, ConstraintsKey, None), HashesIn(body))
  {
    LockFoldAppend(LockStart, [first], body);
    FoldSingle(LockStart, first);
    OpenStep(LockStart, first);
    var t0 := LockStep(LockStart, first);
    assert Flush(LockStart) == [] && LockStart.locks == [];
    assert t0 == LockState([], Quoted(Trim(first)), None, None, []);
    BlockFold(t0, body);
    EmptyConcat(HashesIn(body));
  }

  lemma FoldSingle(st: LockState, raw: string)
    ensures LockFold(st, [raw]) == LockStep(st, raw)
  {
    assert [raw][..0] == [];
  }

  lemma EmptyConcat<T>(s: seq<T>)
    ensures [] + s == s
  {
  }

  /** Lines before the first block yield nothing. */
  lemma HeaderNoLocks(header: seq<string>)
    requires forall i :: 0 <= i < |header| ==> !OpensBlock(header[i])
    ensures Locks(header) == []
  {
    BlockFold(LockStart, header);
  }

  /** A hash line gives the hash between its quotes. */
  lemma HashRoundTrip(h: string, tail: string)
    requires '"' !in h
    ensures HashOf(Quote + h + Quote + tail) == Some(h)
  {
    var line := Quote + h + Quote + tail;
    assert line[1..] == h + (Quote + tail);
    FindCharAfter(h, Quote + tail, '"');
    assert line[1..|h| + 1] == h;
  }

  // ---------------------------------------------------------------------
  // `required_providers` blocks in `.tf` files
  // ---------------------------------------------------------------------

  const RequiredProviders := "required_providers"

  /**
   * Where the reading of a file stands: inside a `required_providers`
   * block or not, the brace depth counted since its opening line, and the
   * requirements recorded so far.
   */
  datatype ReqState = ReqState(inside: bool, depth: int, requirements: map<string, string>)

  /**
   * The entry a trimmed line inside the block records: when it mentions
   * `version` and holds a quoted text, the first quoted text, under the
   * trimmed text before its first `=`; nothing when that name is empty or
   * is `version` itself.
   */
  function VersionEntry(line: string): (r: Option<(string, string)>)
    ensures r.Some? ==> r.value.0 != [] && r.value.0 != VersionKey && '"' !in r.value.1
  {
    if !Contains(line, VersionKey) then None
    else
      match Quoted(line)
      case None => None
      case Some(version) =>
        match Find(line, "=")
        case None => None
        case Some(eq) =>
          var name := Trim(line[..eq]);
          if name != [] && name != VersionKey then Some((name, version)) else None
  }

  /**
   * One line of the file.  A line mentioning `required_providers` (re)opens
   * the block at depth zero; inside it the line's braces move the depth, a
   * line that brings it to zero or below with a `}` closes the block and
   * records nothing, and any other line records its version entry, a later
   * one replacing an earlier one under the same name.
   */
  function ReqStep(st: ReqState, raw: string): ReqState {
    var line := Trim(raw);
    var st1 := if Contains(line, RequiredProviders) then st.(inside := true, depth := 0) else st;
    if !st1.inside then st1
    else
      var d := st1.depth + CountChar(line, '{') - CountChar(line, '}');
      if d <= 0 && '}' in line then ReqState(false, d, st1.requirements)
      else
        match VersionEntry(line)
        case None => ReqState(true, d, st1.requirements)
        case Some(e) => ReqState(true, d, st1.requirements[e.0 := e.1])
  }

  function ReqFold(st: ReqState, lines: seq<string>): ReqState {
    if |lines| == 0 then st else ReqStep(ReqFold(st, lines[..|lines| - 1]), lines[|lines| - 1])
  }

  /**
   * `extract_provider_requirements`: the requirements found in one file's
   * text are added to those collected so far.
   */
  method ExtractProviderRequirements(content: string, requirements: map<string, string>)
    returns (result: map<string, string>)
    ensures result == ReqFold(ReqState(false, 0, requirements), Lines(content)).requirements
  {
    var lines := Lines(content);
    var inside := false;
    var depth := 0;
    result := requirements;
    var i := 0;
    while i < |lines|
      invariant 0 <= i <= |lines|
      invariant ReqState(inside, depth, result) == ReqFold(ReqState(false, 0, requirements), lines[..i])
    {
      assert lines[..i + 1][..i] == lines[..i];
      inside, depth, result := ReadRequirementLine(inside, depth, result, lines[i]);
      i := i + 1;
    }
    assert lines[..i] == lines;
  }

  /** The body of `extract_provider_requirements`' loop: one line read into the local variables. */
  method ReadRequirementLine(inside: bool, depth: int, requirements: map<string, string>, raw: string)
    returns (inside': bool, depth': int, requirements': map<string, string>)
    ensures ReqState(inside', depth', requirements') == ReqStep(ReqState(inside, depth, requirements), raw)
  {
    inside', depth', requirements' := inside, depth, requirements;
    var line := Trim(raw);
    if Contains(line, RequiredProviders) {
      inside', depth' := true, 0;
    }
    if inside' {
      depth' := depth' + CountChar(line, '{');
      depth' := depth' - CountChar(line, '}');
      if depth' <= 0 && '}' in line {
        inside' := false;
        return;
      }
      var entry := ReadVersionEntry(line);
      if entry.Some? {
        requirements' := requirements'[entry.value.0 := entry.value.1];
      }
    }
  }

  /** The version-constraint lookup inside `extract_provider_requirements`' loop. */
  method ReadVersionEntry(line: string) returns (entry: Option<(string, string)>)
    ensures entry == VersionEntry(line)
  {
    entry := None;
    if Contains(line, VersionKey) {
      var version := Quoted(line);
      if version.Some? {
        var eq := Find(line, "=");
        if eq.Some? {
          var name := Trim(line[..eq.value]);
          if name != [] && name != VersionKey {
            entry := Some((name, version.value));
          }
        }
      }
    }
  }

  /** A recorded entry under `name` with the version `v`, read from one of the lines. */
  ghost predicate Recorded(lines: seq<string>, name: string, v: string) {
    exists i :: 0 <= i < |lines| && VersionEntry(Trim(lines[i])) == Some((name, v))
  }

  /**
   * Every requirement after the lines was there before, unchanged, or was
   * read from one of the lines; in particular no entry is ever named
   * `version`.
   */
  lemma {:induction false} ReqFoldOrigin(st: ReqState, lines: seq<string>)
    ensures forall name :: name in ReqFold(st, lines).requirements ==>
      (name in st.requirements && ReqFold(st, lines).requirements[name] == st.requirements[name])
      || Recorded(lines, name, ReqFold(st, lines).requirements[name])
  {
    if |lines| > 0 {
      var init := lines[..|lines| - 1];
      var last := lines[|lines| - 1];
      ReqFoldOrigin(st, init);
      var s0 := ReqFold(st, init);
      var s1 := ReqStep(s0, last);
      assert s1 == ReqFold(st, lines);
      ReqStepOrigin(s0, last);
      forall name | name in s1.requirements
        ensures (name in st.requirements && s1.requirements[name] == st.requirements[name])
                || Recorded(lines, name, s1.requirements[name])
      {
        if name in s0.requirements && s1.requirements[name] == s0.requirements[name] {
          if Recorded(init, name, s0.requirements[name]) {
            var i :| 0 <= i < |init| && VersionEntry(Trim(init[i])) == Some((name, s0.requirements[name]));
            assert lines[i] == init[i];
          }
        } else {
          assert VersionEntry(Trim(lines[|lines| - 1])) == Some((name, s1.requirements[name]));
        }
      }
    }
  }

  /** One line keeps every requirement or records the line's own entry. */
  lemma ReqStepOrigin(st: ReqState, raw: string)
    ensures forall name :: name in ReqStep(st, raw).requirements ==>
      (name in st.requirements && ReqStep(st, raw).requirements[name] == st.requirements[name])
      || VersionEntry(Trim(raw)) == Some((name, ReqStep(st, raw).requirements[name]))
  {
  }

  /** No requirement named `version` is ever added. */
  lemma NeverRecordsVersion(st: ReqState, lines: seq<string>)
    requires VersionKey !in st.requirements
    ensures VersionKey !in ReqFold(st, lines).requirements
  {
    ReqFoldOrigin(st, lines);
  }

  /** Outside a block, lines that never mention `required_providers` change nothing. */
  lemma {:induction false} OutsideUnchanged(st: ReqState, lines: seq<string>)
    requires !st.inside
    requires forall i :: 0 <= i < |lines| ==> !Contains(Trim(lines[i]), RequiredProviders)
    ensures ReqFold(st, lines) == st
  {
    if |lines| > 0 {
      OutsideUnchanged(st, lines[..|lines| - 1]);
    }
  }

  /** A `required_providers` line starts the block afresh at depth zero, whatever came before. */
  lemma BlockReopens(st: ReqState, raw: string)
    requires Contains(Trim(raw), RequiredProviders)
    ensures ReqStep(st, raw) == ReqStep(ReqState(false, 0, st.requirements), raw)
  {
  }

  /** The line that closes the block records nothing and leaves the block. */
  lemma ClosingLine(st: ReqState, raw: string)
    requires st.inside && !Contains(Trim(raw), RequiredProviders)
    requires st.depth + CountChar(Trim(raw), '{') - CountChar(Trim(raw), '}') <= 0
    requires '}' in Trim(raw)
    ensures !ReqStep(st, raw).inside && ReqStep(st, raw).requirements == st.requirements
  {
  }

  /** Requirements are only ever added or replaced, never removed. */
  lemma {:induction false} ReqFoldGrows(st: ReqState, lines: seq<string>)
    ensures st.requirements.Keys <= ReqFold(st, lines).requirements.Keys
  {
    if |lines| > 0 {
      ReqFoldGrows(st, lines[..|lines| - 1]);
    }
  }

  /** Lines none of which yields an entry leave the requirements exactly as they were. */
  lemma NothingRecorded(st: ReqState, lines: seq<string>)
    requires forall i :: 0 <= i < |lines| ==> VersionEntry(Trim(lines[i])).None?
    ensures ReqFold(st, lines).requirements == st.requirements
  {
    ReqFoldOrigin(st, lines);
    ReqFoldGrows(st, lines);
  }

  /** A line that never mentions `version` yields no entry. */
  lemma NoVersionNoEntry(raw: string)
    requires 'n' !in raw
    ensures VersionEntry(Trim(raw)).None?
  {
    ContainsChars(raw, VersionKey, 'n');
    if Contains(Trim(raw), VersionKey) {
      ContainsAfterTrim(raw, VersionKey);
    }
  }

  /** A name followed by one space trims back to the name. */
  lemma TrimWordSpace(name: string)
    requires name != [] && !IsSpace(name[0]) && !IsSpace(name[|name| - 1])
    ensures Trim(name + " ") == name
  {
    var t := name + " ";
    assert TrimStart(t) == t;
    assert t[..|t| - 1] == name;
    assert TrimEnd(t) == TrimEnd(name);
  }

  /**
   * The `version = "…"` line of the usual multi-line form records nothing:
   * the text before its `=` is `version` itself.
   */
  lemma VersionLineSkipped(x: string)
    requires '"' !in x
    ensures VersionEntry(VersionKey + " = " + Quote + x + Quote).None?
  {
    var line := VersionKey + " = " + Quote + x + Quote;
    var rest := "= " + Quote + x + Quote;
    assert line == (VersionKey + " ") + rest;
    FindCharAfter(VersionKey + " ", rest, '=');
    assert line[..|VersionKey| + 1] == VersionKey + " ";
    TrimWordSpace(VersionKey);
  }

  /**
   * A line `name =…"v"…` whose first quoted text is `v` records `v` under
   * `name`, whatever follows: in the one-line form
   * `name = { source = "…", version = "…" }` it is the source address, not
   * the version, that is recorded.
   */
  lemma InlineEntryTakesFirstQuote(name: string, mid: string, v: string, tail: string)
    requires name != [] && !IsSpace(name[0]) && !IsSpace(name[|name| - 1])
    requires '=' !in name && '"' !in name && name != VersionKey
    requires '"' !in mid && '"' !in v && Contains(tail, VersionKey)
    ensures VersionEntry(name + " =" + mid + Quote + v + Quote + tail) == Some((name, v))
  {
    EntryLineFacts(name, mid, v, tail);
    EntryOfParts(name + " =" + mid + Quote + v + Quote + tail, |name| + 1, v);
  }

  /** The three lookups `VersionEntry` makes on a line `name =…"v"…version…`, and the name they give. */
  lemma EntryLineFacts(name: string, mid: string, v: string, tail: string)
    requires name != [] && !IsSpace(name[0]) && !IsSpace(name[|name| - 1])
    requires '=' !in name && '"' !in name
    requires '"' !in mid && '"' !in v && Contains(tail, VersionKey)
    ensures var line := name + " =" + mid + Quote + v + Quote + tail;
      Contains(line, VersionKey) && Quoted(line) == Some(v) && Find(line, "=") == Some(|name| + 1)
      && |name| + 1 <= |line| && Trim(line[..|name| + 1]) == name
  {
    var line := name + " =" + mid + Quote + v + Quote + tail;
    var head := name + " =" + mid;
    assert Contains(line, VersionKey) by {
      assert line[|line| - |tail|..] == tail;
      ContainsSuffix(line, |line| - |tail|, VersionKey);
    }
    assert Quoted(line) == Some(v) by {
      assert line == head + Quote + v + Quote + tail;
      assert '"' !in head;
      QuotedAfter(head, v, tail);
    }
    assert line[..|name| + 1] == name + " ";
    assert Find(line, "=") == Some(|name| + 1) by {
      assert line[|name| + 1] == '=';
      FindCharFirst(line, '=', |name| + 1);
    }
    TrimWordSpace(name);
  }

  /** `VersionEntry` once the three lookups it makes are known. */
  lemma EntryOfParts(line: string, eq: nat, v: string)
    requires Contains(line, VersionKey) && Quoted(line) == Some(v) && Find(line, "=") == Some(eq)
    ensures eq <= |line|
    ensures VersionEntry(line)
      == if Trim(line[..eq]) != [] && Trim(line[..eq]) != VersionKey then Some((Trim(line[..eq]), v)) else None
  {
  }

  lemma ContainsMid(a: string, x: string, b: string)
    ensures Contains(a + x + b, x)
  {
    assert (a + x + b)[|a|..|a| + |x|] == x;
    ContainsAt(a + x + b, x, |a|);
  }

  /** An indented `version = "…"` line records nothing either. */
  lemma IndentedVersionLine(pad: string, x: string)
    requires forall i :: 0 <= i < |pad| ==> pad[i] == ' '
    requires '"' !in x
    ensures VersionEntry(Trim(pad + (VersionKey + " = " + Quote + x + Quote))).None?
  {
    VersionLineSkipped(x);
    TrimIndent(pad, VersionKey + " = " + Quote + x + Quote);
  }

  /** Indentation in front of a text without surrounding whitespace trims away. */
  lemma {:induction false} TrimIndent(pad: string, x: string)
    requires forall i :: 0 <= i < |pad| ==> pad[i] == ' '
    requires x != [] && !IsSpace(x[0]) && !IsSpace(x[|x| - 1])
    ensures Trim(pad + x) == x
    decreases |pad|
  {
    if pad == [] {
      assert pad + x == x;
    } else {
      assert (pad + x)[1..] == pad[1..] + x;
      TrimIndent(pad[1..], x);
    }
  }

  // ---------------------------------------------------------------------
  // `get_providers`
  // ---------------------------------------------------------------------

  /** What reading `.terraform.lock.hcl` in the project directory finds. */
  datatype LockFile = Missing | Unreadable | Content(text: string)

  /**
   * `parse_lock_file(…).ok()`: a missing file has no locks, an unreadable
   * one gives no answer, and a readable one is parsed.
   */
  function LockFileLocks(lock: LockFile): (r: Option<seq<ProviderLock>>)
    ensures r.None? <==> lock.Unreadable?
    ensures lock.Missing? ==> r == Some([])
  {
    match lock
    case Missing => Some([])
    case Unreadable => None
    case Content(text) => Some(Locks(Lines(text)))
  }

  /**
   * `get_providers` once `terraform providers` has run (`out`) and, when
   * asked, the lock file has been looked for (`lock`): a failed command is
   * an error carrying its stderr; otherwise the providers of its output,
   * the locks when asked for, and their count in the message.
   */
  method GetProviders(out: CmdOutput, includeLock: bool, lock: LockFile) returns (r: Result<ProvidersResult, string>)
    ensures !out.success ==> r == Err("Failed to get providers: " + out.stderr)
    ensures out.success ==> (r.Ok? && r.value.success
                             && r.value.providers == FirstByKey(ParsedAll(Lines(out.stdout), Parsed))
                             && r.value.locks == (if includeLock then LockFileLocks(lock) else None)
                             && r.value.message == "Found " + NatToString(|r.value.providers|) + " providers")
  {
    if !out.success {
      return Err("Failed to get providers: " + out.stderr);
    }
    var providers := ParseProvidersOutput(out.stdout);
    var locks: Option<seq<ProviderLock>> := None;
    if includeLock {
      match lock
      case Missing => locks := Some([]);
      case Unreadable => locks := None;
      case Content(text) =>
        var parsed := ParseLockHcl(text);
        locks := Some(parsed);
    }
    r := Ok(ProvidersResult(true, providers, locks, "Found " + NatToString(|providers|) + " providers"));
  }
}

/**
 * The string operations of Rust's `str` that the modelled code relies on:
 * `starts_with`, `ends_with`, `contains`, `find`, `split`, `join`,
 * `trim*`, `to_lowercase` and `lines`.  Strings are sequences of
 * characters; case folding and whitespace are restricted to ASCII.
 */
module Strs {
  import opened Wrappers

  predicate StartsWith(s: string, p: string) {
    |p| <= |s| && s[..|p|] == p
  }

  predicate EndsWith(s: string, p: string) {
    |p| <= |s| && s[|s| - |p|..] == p
  }

  /** `s.contains(sub)`: some suffix of `s` starts with `sub`. */
  predicate Contains(s: string, sub: string)
    decreases |s|
  {
    StartsWith(s, sub) || (|s| > 0 && Contains(s[1..], sub))
  }

  lemma {:induction false} ContainsAt(s: string, sub: string, i: nat)
    requires i + |sub| <= |s| && s[i..i + |sub|] == sub
    ensures Contains(s, sub)
    decreases i
  {
    if i > 0 {
      assert s[1..][i - 1..i - 1 + |sub|] == sub;
      ContainsAt(s[1..], sub, i - 1);
    }
  }

  /** A character of `sub` that `s` lacks rules out `s.contains(sub)`. */
  lemma {:induction false} ContainsChars(s: string, sub: string, c: char)
    ensures Contains(s, sub) && c in sub ==> c in s
    decreases |s|
  {
    if StartsWith(s, sub) && c in sub {
      assert c in s[..|sub|];
    } else if |s| > 0 {
      ContainsChars(s[1..], sub, c);
      if c in s[1..] { assert c in s; }
    }
  }

  lemma {:induction false} ContainsPrefix(s: string, p: string, sub: string)
    requires Contains(p, sub)
    ensures Contains(p + s, sub)
    decreases |p|
  {
    if StartsWith(p, sub) {
      assert (p + s)[..|sub|] == p[..|sub|];
    } else {
      assert (p + s)[1..] == p[1..] + s;
      ContainsPrefix(s, p[1..], sub);
    }
  }

  /** `s.find(sub)`: the first position at which `sub` occurs. */
  function Find(s: string, sub: string): (r: Option<nat>)
    ensures r.Some? ==> r.value + |sub| <= |s|
    decreases |s|
  {
    if StartsWith(s, sub) then Some(0)
    else if |s| == 0 then None
    else
      match Find(s[1..], sub)
      case None => None
      case Some(i) => Some(i + 1)
  }

  /** Where `find` stops, `sub` occurs. */
  lemma {:induction false} FindMatch(s: string, sub: string)
    ensures Find(s, sub).Some? ==> s[Find(s, sub).value..Find(s, sub).value + |sub|] == sub
    decreases |s|
  {
    if !StartsWith(s, sub) && |s| > 0 {
      FindMatch(s[1..], sub);
      match Find(s[1..], sub)
      case None =>
      case Some(i) =>
        assert s[1..][i..i + |sub|] == s[i + 1..i + 1 + |sub|];
    }
  }

  /** `find` reports the first match, and none exactly when there is no match. */
  lemma {:induction false} FindSpec(s: string, sub: string)
    ensures Find(s, sub).Some? ==> s[Find(s, sub).value..Find(s, sub).value + |sub|] == sub
    ensures Find(s, sub).Some? ==> forall j :: 0 <= j < Find(s, sub).value ==> !StartsWith(s[j..], sub)
    ensures Find(s, sub).None? <==> !Contains(s, sub)
    decreases |s|
  {
    FindMatch(s, sub);
    if !StartsWith(s, sub) && |s| > 0 {
      FindSpec(s[1..], sub);
      match Find(s[1..], sub)
      case None =>
      case Some(i) =>
        assert forall j :: 1 <= j <= i ==> s[j..] == s[1..][j - 1..];
    }
  }

  /** A match at `i` with none before it is the one `find` reports. */
  lemma {:induction false} FindAt(s: string, sub: string, i: nat)
    requires i + |sub| <= |s| && s[i..i + |sub|] == sub
    requires forall j :: 0 <= j < i ==> !StartsWith(s[j..], sub)
    ensures Find(s, sub) == Some(i)
  {
    ContainsAt(s, sub, i);
    FindSpec(s, sub);
    assert StartsWith(s[i..], sub);
    var r := Find(s, sub).value;
    assert StartsWith(s[r..], sub);
  }

  /** A mismatch in the first two characters rules out a match at `j`. */
  lemma {:induction false} NotStartsWithAt(s: string, sub: string, j: nat)
    ensures j < |s| && |sub| > 0 && s[j] != sub[0] ==> !StartsWith(s[j..], sub)
    ensures j + 1 < |s| && |sub| > 1 && s[j + 1] != sub[1] ==> !StartsWith(s[j..], sub)
  {
    if j < |s| && StartsWith(s[j..], sub) && |sub| > 0 {
      assert s[j..][..|sub|][0] == s[j];
      if j + 1 < |s| && |sub| > 1 { assert s[j..][..|sub|][1] == s[j + 1]; }
    }
  }

  /** No match anywhere means `find` reports none. */
  lemma {:induction false} FindNone(s: string, sub: string)
    requires forall j :: 0 <= j <= |s| ==> !StartsWith(s[j..], sub)
    ensures Find(s, sub).None? && !Contains(s, sub)
  {
    var r := Find(s, sub);
    FindSpec(s, sub);
    assert r.Some? ==> StartsWith(s[r.value..], sub);
  }

  /** `s.contains(c)` for a character is `s.contains` of the one-character string. */
  lemma {:induction false} CharContains(s: string, c: char)
    ensures c in s <==> Contains(s, [c])
  {
    ContainsChars(s, [c], c);
    if c in s {
      var j :| 0 <= j < |s| && s[j] == c;
      assert s[j..j + 1] == [c];
      ContainsAt(s, [c], j);
    }
  }

  lemma {:induction false} PrefixStarts(s: string, i: nat, x: string)
    requires i <= |s| && StartsWith(s[..i], x)
    ensures Contains(s, x)
  {
    assert s[..i][..|x|] == s[..|x|];
    assert StartsWith(s, x);
  }

  lemma {:induction false} StartsWithChar(s: string, j: nat, c: char)
    requires j < |s|
    ensures StartsWith(s[j..], [c]) <==> s[j] == c
  {
    if s[j] == c { assert s[j..][..1] == [c]; }
  }

  /** A match inside a suffix is a match in the whole string. */
  lemma {:induction false} ContainsSuffix(s: string, n: nat, x: string)
    requires n <= |s| && Contains(s[n..], x)
    ensures Contains(s, x)
    decreases n
  {
    if n == 0 {
      assert s[0..] == s;
    } else {
      assert s[1..][n - 1..] == s[n..];
      ContainsSuffix(s[1..], n - 1, x);
    }
  }

  /** `s.split(sep)` for a non-empty separator: always at least one part. */
  function Split(s: string, sep: string): (r: seq<string>)
    requires |sep| > 0
    ensures |r| >= 1
    decreases |s|
  {
    match Find(s, sep)
    case None => [s]
    case Some(i) => [s[..i]] + Split(s[i + |sep|..], sep)
  }

  /** One step of `split`: the part before the first separator, then the split of the rest. */
  lemma {:induction false} SplitHead(s: string, sep: string, i: nat)
    requires |sep| > 0 && Find(s, sep) == Some(i)
    ensures Split(s, sep) == [s[..i]] + Split(s[i + |sep|..], sep)
  {
  }

  /** `parts.join(sep)`. */
  function Join(parts: seq<string>, sep: string): string
  {
    if |parts| == 0 then ""
    else if |parts| == 1 then parts[0]
    else parts[0] + sep + Join(parts[1..], sep)
  }

  /**
   * `format!("{}{}{}", a, sep, b)`: the two texts with one separator
   * character between them, each to be found again at its position.
   */
  function Joined(a: string, sep: char, b: string): (r: string)
    ensures |r| == |a| + 1 + |b|
    ensures r[..|a|] == a && r[|a|] == sep && r[|a| + 1..] == b
  {
    a + [sep] + b
  }

  /** Splitting and re-joining with the same separator gives the string back. */
  lemma {:induction false} JoinSplit(s: string, sep: string)
    requires |sep| > 0
    ensures Join(Split(s, sep), sep) == s
    decreases |s|
  {
    var f := Find(s, sep);
    FindMatch(s, sep);
    if f.Some? {
      var i := f.value;
      var tail := s[i + |sep|..];
      var rest := Split(tail, sep);
      JoinSplit(tail, sep);
      var parts := Split(s, sep);
      assert parts == [s[..i]] + rest;
      assert parts[1..] == rest;
      assert Join(parts, sep) == s[..i] + sep + Join(rest, sep);
      assert s == s[..i] + s[i..i + |sep|] + tail;
    }
  }

  /** Every part of a split that starts with `x` shows `x` occurring in the whole string. */
  lemma {:induction false} SplitPartStarts(s: string, sep: string, k: nat, x: string)
    requires |sep| > 0 && k < |Split(s, sep)| && StartsWith(Split(s, sep)[k], x)
    ensures Contains(s, x)
    decreases |s|
  {
    var parts := Split(s, sep);
    match Find(s, sep)
    case None =>
      assert parts == [s];
      assert StartsWith(s, x);
    case Some(i) =>
      var rest := s[i + |sep|..];
      assert parts == [s[..i]] + Split(rest, sep);
      if k == 0 {
        PrefixStarts(s, i, x);
      } else {
        assert parts[k] == Split(rest, sep)[k - 1];
        SplitPartStarts(rest, sep, k - 1, x);
        ContainsSuffix(s, i + |sep|, x);
      }
  }

  /** The first `c` in `a + [c] + b` is the first one in `a`, or the one joining them. */
  lemma {:induction false} SplitCharFirst(a: string, b: string, c: char)
    ensures Find(a + [c] + b, [c]) == if Find(a, [c]).Some? then Find(a, [c]) else Some(|a|)
  {
    var s := a + [c] + b;
    FindSpec(a, [c]);
    forall j | 0 <= j < |a| ensures StartsWith(s[j..], [c]) <==> StartsWith(a[j..], [c]) {
      StartsWithChar(s, j, c);
      StartsWithChar(a, j, c);
    }
    match Find(a, [c])
    case None =>
      CharContains(a, c);
      forall j | 0 <= j < |a| ensures !StartsWith(s[j..], [c]) {
        StartsWithChar(s, j, c);
      }
      assert s[|a|..|a| + 1] == [c];
      FindAt(s, [c], |a|);
    case Some(i) =>
      assert s[i..i + 1] == a[i..i + 1];
      FindAt(s, [c], i);
  }

  /** `a + [c] + b` with no `c` in `a` splits into `a` and the parts of `b`. */
  lemma {:induction false} SplitJoinNone(a: string, b: string, c: char)
    requires Find(a, [c]).None?
    ensures Split(a + [c] + b, [c]) == [a] + Split(b, [c])
  {
    var s := a + [c] + b;
    SplitCharFirst(a, b, c);
    SplitHead(s, [c], |a|);
    assert s[..|a|] == a;
    assert s[|a| + 1..] == b;
  }

  /** `a + [c] + b` with a first `c` in `a` at `i` splits off `a[..i]` first. */
  lemma {:induction false} SplitJoinSome(a: string, b: string, c: char, i: nat)
    requires Find(a, [c]) == Some(i)
    ensures Split(a + [c] + b, [c]) == [a[..i]] + Split(a[i + 1..] + [c] + b, [c])
  {
    var s := a + [c] + b;
    SplitCharFirst(a, b, c);
    SplitHead(s, [c], i);
    JoinSlices(a, b, c, i);
    JoinSlices(a, b, c, i + 1);
  }

  lemma {:induction false} JoinSlices(a: string, b: string, c: char, i: nat)
    requires i <= |a|
    ensures (a + [c] + b)[..i] == a[..i]
    ensures (a + [c] + b)[i..] == a[i..] + [c] + b
  {
  }

  /** Splitting on one character distributes over a join with that character. */
  lemma {:induction false} SplitConcatChar(a: string, b: string, c: char)
    ensures Split(a + [c] + b, [c]) == Split(a, [c]) + Split(b, [c])
    decreases |a|
  {
    match Find(a, [c])
    case None =>
      SplitJoinNone(a, b, c);
      assert Split(a, [c]) == [a];
    case Some(i) =>
      SplitConcatChar(a[i + 1..], b, c);
      SplitConcatStep(a, b, c, i);
  }

  /** The step of `SplitConcatChar` past the first `c` of `a`. */
  lemma SplitConcatStep(a: string, b: string, c: char, i: nat)
    requires Find(a, [c]) == Some(i)
    requires Split(a[i + 1..] + [c] + b, [c]) == Split(a[i + 1..], [c]) + Split(b, [c])
    ensures Split(a + [c] + b, [c]) == Split(a, [c]) + Split(b, [c])
  {
    SplitJoinSomeRest(a, b, c, i);
    SplitHead(a, [c], i);
    ConcatAssoc([a[..i]], Split(a[i + 1..], [c]), Split(b, [c]));
  }

  lemma SplitJoinSomeRest(a: string, b: string, c: char, i: nat)
    requires Find(a, [c]) == Some(i)
    requires Split(a[i + 1..] + [c] + b, [c]) == Split(a[i + 1..], [c]) + Split(b, [c])
    ensures Split(a + [c] + b, [c]) == [a[..i]] + (Split(a[i + 1..], [c]) + Split(b, [c]))
  {
    SplitJoinSome(a, b, c, i);
  }

  lemma ConcatAssoc<T>(x: seq<T>, y: seq<T>, z: seq<T>)
    ensures x + (y + z) == (x + y) + z
  {
  }

  /** `s.split(sep).last()`: the text after the last separator. */
  function LastPart(s: string, sep: string): string
    requires |sep| > 0
    decreases |s|
  {
    match Find(s, sep)
    case None => s
    case Some(i) => LastPart(s[i + |sep|..], sep)
  }

  /** The last part ends the string. */
  lemma {:induction false} LastPartEnds(s: string, sep: string)
    requires |sep| > 0
    ensures EndsWith(s, LastPart(s, sep))
    decreases |s|
  {
    var f := Find(s, sep);
    if f.Some? {
      var rest := s[f.value + |sep|..];
      LastPartEnds(rest, sep);
      assert LastPart(s, sep) == LastPart(rest, sep);
      EndsWithSuffix(s, f.value + |sep|, LastPart(rest, sep));
    } else {
      assert s[|s| - |s|..] == s;
    }
  }

  /** The last part holds no separator. */
  lemma {:induction false} LastPartNoSep(s: string, sep: string)
    requires |sep| > 0
    ensures !Contains(LastPart(s, sep), sep)
    decreases |s|
  {
    var f := Find(s, sep);
    if f.Some? {
      var rest := s[f.value + |sep|..];
      LastPartNoSep(rest, sep);
      assert LastPart(s, sep) == LastPart(rest, sep);
    } else {
      FindSpec(s, sep);
    }
  }

  /** Only what follows the last separator counts: a joined prefix changes nothing. */
  lemma {:induction false} LastPartJoin(a: string, b: string, c: char)
    ensures LastPart(a + [c] + b, [c]) == LastPart(b, [c])
    decreases |a|
  {
    var s := a + [c] + b;
    SplitCharFirst(a, b, c);
    match Find(a, [c])
    case None =>
      assert s[|a| + 1..] == b;
    case Some(i) =>
      JoinSlices(a, b, c, i + 1);
      LastPartJoin(a[i + 1..], b, c);
  }

  /** A string without the separator is its own last part. */
  lemma {:induction false} LastPartNone(s: string, sep: string)
    requires |sep| > 0 && !Contains(s, sep)
    ensures LastPart(s, sep) == s
  {
    FindSpec(s, sep);
  }

  /** An occurrence of `y` is an occurrence of every prefix of `y`. */
  lemma {:induction false} ContainsPrefixOf(s: string, x: string, y: string)
    ensures StartsWith(y, x) && Contains(s, y) ==> Contains(s, x)
    decreases |s|
  {
    if StartsWith(y, x) && Contains(s, y) {
      if StartsWith(s, y) {
        assert s[..|x|] == y[..|x|];
      } else {
        ContainsPrefixOf(s[1..], x, y);
      }
    }
  }

  /** An ending of a suffix is an ending of the whole string. */
  lemma {:induction false} EndsWithSuffix(s: string, k: nat, x: string)
    requires k <= |s| && EndsWith(s[k..], x)
    ensures EndsWith(s, x)
  {
    assert s[|s| - |x|..] == s[k..][|s| - k - |x|..];
  }

  /** A string without the separator is one part. */
  lemma {:induction false} SplitNoSep(s: string, sep: string)
    requires |sep| > 0 && !Contains(s, sep)
    ensures Split(s, sep) == [s]
  {
    FindSpec(s, sep);
  }

  function LowerChar(c: char): (r: char)
    ensures 'A' <= c <= 'Z' ==> 'a' <= r <= 'z'
    ensures !('A' <= c <= 'Z') ==> r == c
  {
    if 'A' <= c <= 'Z' then (c as int + 32) as char else c
  }

  /** `to_lowercase`, restricted to ASCII letters. */
  function ToLower(s: string): (r: string)
    ensures |r| == |s|
    ensures forall i :: 0 <= i < |s| ==> r[i] == LowerChar(s[i])
  {
    seq(|s|, i requires 0 <= i < |s| => LowerChar(s[i]))
  }

  predicate NoUpper(s: string) {
    forall c :: c in s ==> !('A' <= c <= 'Z')
  }

  lemma {:induction false} LowerId(s: string)
    requires NoUpper(s)
    ensures ToLower(s) == s
  {
    assert forall i :: 0 <= i < |s| ==> s[i] in s;
  }

  lemma {:induction false} LowerNoUpper(s: string)
    ensures NoUpper(ToLower(s))
  {
    var r := ToLower(s);
    forall c | c in r ensures !('A' <= c <= 'Z') {
      var i :| 0 <= i < |r| && r[i] == c;
    }
  }

  /** ASCII whitespace as `char::is_whitespace` sees it. */
  predicate IsSpace(c: char) {
    c == ' ' || c == '\t' || c == '\n' || c == '\r' || c == '\U{000B}' || c == '\U{000C}'
  }

  predicate IsAsciiDigit(c: char) { '0' <= c <= '9' }

  predicate IsAsciiAlnum(c: char) { 'a' <= c <= 'z' || 'A' <= c <= 'Z' || IsAsciiDigit(c) }

  /** `trim_start`: drops the leading whitespace. */
  function TrimStart(s: string): (r: string)
    ensures |r| <= |s|
    ensures r == [] || !IsSpace(r[0])
    decreases |s|
  {
    if |s| > 0 && IsSpace(s[0]) then TrimStart(s[1..]) else s
  }

  /** Everything `trim_start` drops is whitespace. */
  lemma {:induction false} TrimStartDropsSpace(s: string)
    ensures forall i :: 0 <= i < |s| - |TrimStart(s)| ==> IsSpace(s[i])
    decreases |s|
  {
    if |s| > 0 && IsSpace(s[0]) {
      TrimStartDropsSpace(s[1..]);
      assert forall i :: 1 <= i < |s| ==> s[i] == s[1..][i - 1];
    }
  }

  function TrimEnd(s: string): (r: string)
    ensures |r| <= |s|
    ensures r == [] || !IsSpace(r[|r| - 1])
    decreases |s|
  {
    if |s| > 0 && IsSpace(s[|s| - 1]) then TrimEnd(s[..|s| - 1]) else s
  }

  /** Everything `trim_end` drops is whitespace. */
  lemma {:induction false} TrimEndDropsSpace(s: string)
    ensures forall i :: |TrimEnd(s)| <= i < |s| ==> IsSpace(s[i])
    decreases |s|
  {
    if |s| > 0 && IsSpace(s[|s| - 1]) {
      TrimEndDropsSpace(s[..|s| - 1]);
    }
  }

  /** `trim_start` keeps a suffix of its input. */
  lemma {:induction false} TrimStartSuffix(s: string)
    ensures TrimStart(s) == s[|s| - |TrimStart(s)|..]
    decreases |s|
  {
    if |s| > 0 && IsSpace(s[0]) {
      TrimStartSuffix(s[1..]);
      assert s[1..][|s| - 1 - |TrimStart(s)|..] == s[|s| - |TrimStart(s)|..];
    }
  }

  /** `trim_end` keeps a prefix of its input. */
  lemma {:induction false} TrimEndPrefix(s: string)
    ensures TrimEnd(s) == s[..|TrimEnd(s)|]
    decreases |s|
  {
    if |s| > 0 && IsSpace(s[|s| - 1]) {
      TrimEndPrefix(s[..|s| - 1]);
    }
  }

  /** `trim`: no leading or trailing whitespace remains. */
  function Trim(s: string): (r: string)
    ensures r == [] || (!IsSpace(r[0]) && !IsSpace(r[|r| - 1]))
    ensures |r| <= |s|
  {
    var t := TrimStart(s);
    TrimEndPrefix(t);
    TrimEnd(t)
  }

  function TrimStartMatches(s: string, c: char): (r: string)
    ensures |r| <= |s|
    ensures r == [] || r[0] != c
    decreases |s|
  {
    if |s| > 0 && s[0] == c then TrimStartMatches(s[1..], c) else s
  }

  /** `trim_start_matches` keeps a suffix of its input. */
  lemma {:induction false} TrimStartMatchesSuffix(s: string, c: char)
    ensures TrimStartMatches(s, c) == s[|s| - |TrimStartMatches(s, c)|..]
    decreases |s|
  {
    if |s| > 0 && s[0] == c {
      TrimStartMatchesSuffix(s[1..], c);
      assert s[1..][|s| - 1 - |TrimStartMatches(s, c)|..] == s[|s| - |TrimStartMatches(s, c)|..];
    }
  }

  function TrimEndMatches(s: string, c: char): (r: string)
    ensures |r| <= |s| && r == s[..|r|]
    ensures r == [] || r[|r| - 1] != c
    decreases |s|
  {
    if |s| > 0 && s[|s| - 1] == c then TrimEndMatches(s[..|s| - 1], c) else s
  }

  /** `trim_matches(c)`: strips `c` from both ends. */
  function TrimMatches(s: string, c: char): (r: string)
    ensures r == [] || (r[0] != c && r[|r| - 1] != c)
  {
    TrimEndMatches(TrimStartMatches(s, c), c)
  }

  /** `trim_start_matches(p)` for a non-empty string pattern. */
  function TrimStartMatchesStr(s: string, p: string): (r: string)
    requires |p| > 0
    ensures |r| <= |s| && r == s[|s| - |r|..]
    ensures !StartsWith(r, p)
    decreases |s|
  {
    if StartsWith(s, p) then TrimStartMatchesStr(s[|p|..], p) else s
  }

  /** The first whitespace-separated token: `split_whitespace().next()`. */
  function FirstWord(s: string): (r: Option<string>)
    ensures r.Some? ==> |r.value| > 0 && forall c :: c in r.value ==> !IsSpace(c)
    ensures r.None? <==> forall c :: c in s ==> IsSpace(c)
  {
    var t := TrimStart(s);
    TrimStartCovers(s);
    if t == [] then None else Some(TakeWord(t))
  }

  /** Every character `trim_start` removes is whitespace; the first one it keeps is not. */
  lemma {:induction false} TrimStartCovers(s: string)
    ensures forall c :: c in s ==> IsSpace(c) || c in TrimStart(s)
    ensures TrimStart(s) != [] ==> TrimStart(s)[0] in s && !IsSpace(TrimStart(s)[0])
  {
    var t := TrimStart(s);
    TrimStartDropsSpace(s);
    forall c | c in s ensures IsSpace(c) || c in t {
      var i :| 0 <= i < |s| && s[i] == c;
      if i >= |s| - |t| { TrimStartKeeps(s, i); }
    }
    if t != [] { TrimStartKeeps(s, |s| - |t|); }
  }

  lemma {:induction false} TrimStartKeeps(s: string, i: nat)
    requires |s| - |TrimStart(s)| <= i < |s|
    ensures s[i] in TrimStart(s)
    ensures i == |s| - |TrimStart(s)| ==> TrimStart(s)[0] == s[i]
  {
    var t := TrimStart(s);
    TrimStartSuffix(s);
    assert t[i - (|s| - |t|)] == s[i];
  }

  function TakeWord(s: string): (r: string)
    ensures |r| <= |s| && r == s[..|r|]
    ensures forall c :: c in r ==> !IsSpace(c)
    ensures |s| > 0 && !IsSpace(s[0]) ==> |r| > 0
  {
    if |s| == 0 || IsSpace(s[0]) then [] else [s[0]] + TakeWord(s[1..])
  }

  /**
   * `s.lines()`: split on '\n', drop one empty trailing piece, and strip the
   * '\r' of a "\r\n" ending; a last line with no '\n' after it keeps a
   * final '\r'.
   */
  function Lines(s: string): (r: seq<string>)
    ensures s == "" ==> r == []
  {
    var parts := Split(s, "\n");
    var kept := if parts[|parts| - 1] == "" then parts[..|parts| - 1] else parts;
    seq(|kept|, i requires 0 <= i < |kept| =>
      if i < |parts| - 1 && |kept[i]| > 0 && kept[i][|kept[i]| - 1] == '\r' then kept[i][..|kept[i]| - 1] else kept[i])
  }

  /** A single line without a line break is read back as itself. */
  lemma {:induction false} LinesSingle(s: string)
    requires s != "" && '\n' !in s && (s[|s| - 1] != '\r')
    ensures Lines(s) == [s]
  {
    if Contains(s, "\n") { ContainsChars(s, "\n", '\n'); }
    SplitNoSep(s, "\n");
  }

  /** Decimal rendering of a natural number, as `format!("{}", n)` prints it. */
  function NatToString(n: nat): (r: string)
    ensures |r| > 0
    ensures forall c :: c in r ==> IsAsciiDigit(c)
  {
    if n < 10 then [Digit(n)] else NatToString(n / 10) + [Digit(n % 10)]
  }

  /**
   * `{:.0}` of the percentage `part * 100 / whole`: the nearest integer,
   * and the even one of the two when the percentage lies halfway.
   */
  function RoundedPercent(part: nat, whole: nat): (r: nat)
    requires whole > 0
    ensures 2 * whole * r <= 200 * part + whole
    ensures 200 * part <= 2 * whole * r + whole
    ensures (2 * whole * r == 200 * part + whole || 2 * whole * r + whole == 200 * part) ==> r % 2 == 0
  {
    RoundedQuotientNearest(100 * part, whole);
    RoundedQuotient(100 * part, whole)
  }

  /** `n / whole` rounded to the nearest integer, ties to even. */
  function RoundedQuotient(n: nat, whole: nat): nat
    requires whole > 0
  {
    var q := n / whole;
    var rem := n % whole;
    if 2 * rem > whole || (2 * rem == whole && q % 2 == 1) then q + 1 else q
  }

  /** RoundedQuotient lies within one half of `n / whole`, and is even on a tie. */
  lemma RoundedQuotientNearest(n: nat, whole: nat)
    requires whole > 0
    ensures var r := RoundedQuotient(n, whole);
      && 2 * whole * r <= 2 * n + whole
      && 2 * n <= 2 * whole * r + whole
      && ((2 * whole * r == 2 * n + whole || 2 * whole * r + whole == 2 * n) ==> r % 2 == 0)
  {
    var q := n / whole;
    var rem := n % whole;
    assert n == q * whole + rem;
    NearestOfQuotient(n, whole, q, rem, RoundedQuotient(n, whole));
  }

  /** The rounding step of RoundedQuotient, with `whole * q` as the only product. */
  lemma NearestOfQuotient(n: nat, whole: nat, q: nat, rem: nat, r: nat)
    requires whole > 0 && n == q * whole + rem && rem < whole
    requires r == if 2 * rem > whole || (2 * rem == whole && q % 2 == 1) then q + 1 else q
    ensures 2 * whole * r <= 2 * n + whole
    ensures 2 * n <= 2 * whole * r + whole
    ensures (2 * whole * r == 2 * n + whole || 2 * whole * r + whole == 2 * n) ==> r % 2 == 0
  {
    var p := whole * q;
    assert q * whole == p;
    assert 2 * whole * (q + 1) == 2 * p + 2 * whole;
    assert 2 * whole * q == 2 * p;
  }

  function Digit(d: nat): (c: char)
    requires d < 10
    ensures IsAsciiDigit(c)
  {
    ('0' as int + d) as char
  }

  /** `s.replace(from, to)` for single characters. */
  function ReplaceChar(s: string, from: char, to: char): (r: string)
    ensures |r| == |s|
    ensures forall i :: 0 <= i < |s| ==> r[i] == (if s[i] == from then to else s[i])
  {
    seq(|s|, i requires 0 <= i < |s| => if s[i] == from then to else s[i])
  }

  /** The number of occurrences of `c` in `s`: `s.matches(c).count()`. */
  function CountChar(s: string, c: char): (n: nat)
    ensures n <= |s|
    ensures n == 0 <==> c !in s
  {
    if s == [] then 0 else (if s[0] == c then 1 else 0) + CountChar(s[1..], c)
  }

  /**
   * An occurrence of `sub` right after a text that holds none, and whose
   * last character is not in `sub`, is the first occurrence.
   */
  lemma FindAfter(a: string, rest: string, sub: string)
    requires |sub| > 0 && !Contains(a, sub) && (|a| == 0 || a[|a| - 1] !in sub) && StartsWith(rest, sub)
    ensures Find(a + rest, sub) == Some(|a|)
  {
    var s := a + rest;
    assert s[|a|..|a| + |sub|] == rest[..|sub|];
    forall j | 0 <= j < |a| ensures !StartsWith(s[j..], sub) {
      assert s[j] == a[j] && s[|a| - 1] == a[|a| - 1];
      if StartsWith(s[j..], sub) {
        assert s[j..][..|sub|] == sub;
        if j + |sub| <= |a| {
          assert a[j..j + |sub|] == s[j..j + |sub|];
          ContainsAt(a, sub, j);
        }
      }
    }
    FindAt(s, sub, |a|);
  }

  const Quote := "\""

  /** The text between the first two double quotes of `s`, if it has two. */
  function Quoted(s: string): (r: Option<string>)
    ensures r.Some? ==> '"' !in r.value
  {
    match Find(s, Quote)
    case None => None
    case Some(start) =>
      var rest := s[start + 1..];
      match Find(rest, Quote)
      case None => None
      case Some(len) =>
        QuoteFree(rest);
        Some(rest[..len])
  }

  /** Everything before the first quote is quote-free. */
  lemma QuoteFree(s: string)
    ensures Find(s, Quote).Some? ==> s[Find(s, Quote).value] == '"' && '"' !in s[..Find(s, Quote).value]
    ensures Find(s, Quote).None? <==> '"' !in s
  {
    FindSpec(s, Quote);
    CharContains(s, '"');
    if Find(s, Quote).Some? {
      var i := Find(s, Quote).value;
      forall k | 0 <= k < i ensures s[k] != '"' {
        StartsWithChar(s, k, '"');
      }
    }
  }

  /** The first character-`c` after a text free of `c` is found right there. */
  lemma FindCharAfter(a: string, rest: string, c: char)
    requires c !in a && |rest| > 0 && rest[0] == c
    ensures Find(a + rest, [c]) == Some(|a|)
  {
    var s := a + rest;
    assert s[|a|..|a| + 1] == [c];
    forall j | 0 <= j < |a| ensures !StartsWith(s[j..], [c]) {
      StartsWithChar(s, j, c);
      assert s[j] == a[j];
    }
    FindAt(s, [c], |a|);
  }

  /** The first occurrence of a character is where `find` stops. */
  lemma FindCharFirst(s: string, c: char, i: nat)
    requires i < |s| && s[i] == c && c !in s[..i]
    ensures Find(s, [c]) == Some(i)
  {
    assert s == s[..i] + s[i..];
    FindCharAfter(s[..i], s[i..], c);
  }

  /** A quoted text at the front, after quote-free text, is what `Quoted` returns. */
  lemma QuotedAfter(a: string, x: string, b: string)
    requires '"' !in a && '"' !in x
    ensures Quoted(a + Quote + x + Quote + b) == Some(x)
  {
    var s := a + Quote + x + Quote + b;
    assert s == a + (Quote + x + Quote + b);
    FindCharAfter(a, Quote + x + Quote + b, '"');
    assert s[|a| + 1..] == x + (Quote + b);
    FindCharAfter(x, Quote + b, '"');
    assert (x + (Quote + b))[..|x|] == x;
  }

  /**
   * `s.split(c).next()`: the longest prefix of `s` without `c`; it ends
   * the string or stops at a `c`.
   */
  function FirstSegment(s: string, c: char): (r: string)
    ensures |r| <= |s| && r == s[..|r|] && c !in r
    ensures |r| == |s| || s[|r|] == c
  {
    SplitFirstNoSep(s, c);
    Split(s, [c])[0]
  }

  /** The first part of a split on a character holds no such character, and is a prefix of the string. */
  lemma {:induction false} SplitFirstNoSep(s: string, c: char)
    ensures c !in Split(s, [c])[0]
    ensures Split(s, [c])[0] == s[..|Split(s, [c])[0]|]
    ensures |Split(s, [c])[0]| == |s| || s[|Split(s, [c])[0]|] == c
  {
    FindSpec(s, [c]);
    match Find(s, [c])
    case None =>
      CharContains(s, c);
    case Some(i) =>
      assert s[i..i + 1] == [c];
      forall j | 0 <= j < i ensures s[j] != c {
        StartsWithChar(s, j, c);
      }
  }

  /** A prefix without `c` followed by a `c` is the first segment. */
  lemma FirstSegmentAt(s: string, c: char, n: nat)
    requires n < |s| && s[n] == c && c !in s[..n]
    ensures FirstSegment(s, c) == s[..n]
  {
  }

  /** The first segment runs at least as far as the first `c`. */
  lemma FirstSegmentKeeps(s: string, c: char, n: nat)
    requires n <= |s| && c !in s[..n]
    ensures |FirstSegment(s, c)| >= n && FirstSegment(s, c)[..n] == s[..n]
  {
  }
}

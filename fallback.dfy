/**
 * Namespace fallback over the registry client (src/registry/fallback.rs).
 * A lookup tries the namespace the caller gave, if any, and then each
 * fallback namespace that differs from it, in list order.  A "miss" moves
 * on to the next namespace; the first answer that is not a miss ends the
 * walk.  The registry client is an input: `lookup(ns)` is what the client
 * answers for the requested provider in namespace `ns`.
 */
module Fallback {
  import opened Wrappers
  import opened RegistryTypes

  datatype FallbackError =
    | ProviderNotFoundAnywhere(provider: string, namespaces: seq<string>)
    | Registry(error: RegistryError)

  /** The fallback entries that are not the explicit namespace, in list order. */
  function Others(fallbacks: seq<string>, namespace: Option<string>): (r: seq<string>)
    ensures |r| <= |fallbacks|
  {
    if |fallbacks| == 0 then []
    else
      var last := fallbacks[|fallbacks| - 1];
      var rest := Others(fallbacks[..|fallbacks| - 1], namespace);
      if namespace == Some(last) then rest else rest + [last]
  }

  /** Exactly the fallback entries other than the explicit namespace are kept. */
  lemma {:induction false} OthersMembers(fallbacks: seq<string>, namespace: Option<string>)
    ensures forall x :: x in Others(fallbacks, namespace) <==> x in fallbacks && namespace != Some(x)
  {
    if |fallbacks| > 0 {
      var init := fallbacks[..|fallbacks| - 1];
      OthersMembers(init, namespace);
      assert forall x :: x in fallbacks <==> x in init || x == fallbacks[|fallbacks| - 1];
    }
  }

  function Explicit(namespace: Option<string>): seq<string> {
    if namespace.Some? then [namespace.value] else []
  }

  /** The namespaces a lookup queries, in order, when every one of them misses. */
  function AttemptOrder(namespace: Option<string>, fallbacks: seq<string>): seq<string> {
    Explicit(namespace) + Others(fallbacks, namespace)
  }

  predicate Distinct(s: seq<string>) {
    forall i, j :: 0 <= i < j < |s| ==> s[i] != s[j]
  }

  /** The explicit namespace comes first and is never queried twice. */
  lemma {:induction false} AttemptOrderShape(namespace: Option<string>, fallbacks: seq<string>)
    requires Distinct(fallbacks)
    ensures namespace.Some? ==> |AttemptOrder(namespace, fallbacks)| > 0 && AttemptOrder(namespace, fallbacks)[0] == namespace.value
    ensures Distinct(AttemptOrder(namespace, fallbacks))
  {
    OthersDistinct(fallbacks, namespace);
    OthersMembers(fallbacks, namespace);
  }

  lemma {:induction false} OthersDistinct(fallbacks: seq<string>, namespace: Option<string>)
    requires Distinct(fallbacks)
    ensures Distinct(Others(fallbacks, namespace))
  {
    if |fallbacks| > 0 {
      var init := fallbacks[..|fallbacks| - 1];
      var last := fallbacks[|fallbacks| - 1];
      OthersDistinct(init, namespace);
      OthersMembers(init, namespace);
      assert last !in init;
      assert last !in Others(init, namespace);
    }
  }

  /** With no explicit namespace the order is the fallback list itself. */
  lemma {:induction false} OthersNone(fallbacks: seq<string>)
    ensures Others(fallbacks, None) == fallbacks
  {
    if |fallbacks| > 0 {
      OthersNone(fallbacks[..|fallbacks| - 1]);
    }
  }

  lemma {:induction false} OthersSnoc(fallbacks: seq<string>, namespace: Option<string>, i: nat)
    requires i < |fallbacks|
    ensures Others(fallbacks[..i + 1], namespace) ==
      Others(fallbacks[..i], namespace) + (if namespace == Some(fallbacks[i]) then [] else [fallbacks[i]])
  {
    assert fallbacks[..i + 1][..i] == fallbacks[..i];
  }

  /** The first answer along `order` that is not a miss, with its namespace; `Exhausted` if all miss. */
  datatype Walk<T> = Hit(result: Result<T, RegistryError>, namespace: string) | Exhausted

  function WalkOf<T>(order: seq<string>, lookup: string -> Result<T, RegistryError>,
                     isMiss: Result<T, RegistryError> -> bool): Walk<T>
  {
    if |order| == 0 then Exhausted
    else if isMiss(lookup(order[0])) then WalkOf(order[1..], lookup, isMiss)
    else Hit(lookup(order[0]), order[0])
  }

  /** A hit is the first namespace whose answer is not a miss, and it carries that answer. */
  lemma {:induction false} WalkHit<T>(order: seq<string>, lookup: string -> Result<T, RegistryError>,
                                     isMiss: Result<T, RegistryError> -> bool)
    requires WalkOf(order, lookup, isMiss).Hit?
    ensures exists i :: (0 <= i < |order| && order[i] == WalkOf(order, lookup, isMiss).namespace
      && WalkOf(order, lookup, isMiss).result == lookup(order[i])
      && !isMiss(lookup(order[i]))
      && forall j :: 0 <= j < i ==> isMiss(lookup(order[j])))
  {
    if isMiss(lookup(order[0])) {
      WalkHit(order[1..], lookup, isMiss);
      var i :| 0 <= i < |order[1..]| && order[1..][i] == WalkOf(order[1..], lookup, isMiss).namespace
        && WalkOf(order[1..], lookup, isMiss).result == lookup(order[1..][i])
        && !isMiss(lookup(order[1..][i]))
        && forall j :: 0 <= j < i ==> isMiss(lookup(order[1..][j]));
      assert forall j :: 0 <= j < i + 1 ==> isMiss(lookup(order[j])) by {
        forall j | 0 <= j < i + 1 ensures isMiss(lookup(order[j])) {
          if j > 0 { assert order[j] == order[1..][j - 1]; }
        }
      }
      assert order[i + 1] == order[1..][i];
    } else {
      assert order[0] == WalkOf(order, lookup, isMiss).namespace;
    }
  }

  /** The walk is exhausted exactly when every namespace misses. */
  lemma {:induction false} WalkExhausted<T>(order: seq<string>, lookup: string -> Result<T, RegistryError>,
                                           isMiss: Result<T, RegistryError> -> bool)
    ensures WalkOf(order, lookup, isMiss) == Exhausted <==> forall j :: 0 <= j < |order| ==> isMiss(lookup(order[j]))
  {
    if |order| > 0 {
      WalkExhausted(order[1..], lookup, isMiss);
      if isMiss(lookup(order[0])) {
        assert forall j :: 0 < j < |order| ==> order[j] == order[1..][j - 1];
      }
    }
  }

  /** Namespaces that all miss can be skipped. */
  lemma {:induction false} WalkSkip<T>(a: seq<string>, b: seq<string>, lookup: string -> Result<T, RegistryError>,
                                      isMiss: Result<T, RegistryError> -> bool)
    requires forall x :: x in a ==> isMiss(lookup(x))
    ensures WalkOf(a + b, lookup, isMiss) == WalkOf(b, lookup, isMiss)
  {
    if |a| > 0 {
      assert (a + b)[0] == a[0];
      assert (a + b)[1..] == a[1..] + b;
      assert a[0] in a;
      assert forall x :: x in a[1..] ==> x in a;
      WalkSkip(a[1..], b, lookup, isMiss);
    } else {
      assert a + b == b;
    }
  }

  /** The walk at a namespace that does not miss stops there. */
  lemma WalkStop<T>(a: seq<string>, x: string, b: seq<string>, lookup: string -> Result<T, RegistryError>,
                    isMiss: Result<T, RegistryError> -> bool)
    requires forall y :: y in a ==> isMiss(lookup(y))
    requires !isMiss(lookup(x))
    ensures WalkOf(a + [x] + b, lookup, isMiss) == Hit(lookup(x), x)
  {
    assert a + [x] + b == a + ([x] + b);
    WalkSkip(a, [x] + b, lookup, isMiss);
    assert ([x] + b)[0] == x;
  }

  /** `get_latest_version` and `get_provider_info` move on only on `ProviderNotFound`. */
  predicate NotFound<T>(r: Result<T, RegistryError>) {
    r.Err? && r.error.ProviderNotFound?
  }

  /** `search_docs_with_fallback` moves on only on an empty list. */
  predicate NoDocs(r: Result<seq<DocIdResult>, RegistryError>) {
    r.Ok? && |r.value| == 0
  }

  /** The outcome of `get_provider_version` for a given walk over `order`. */
  function VersionOutcome(provider: string, order: seq<string>, w: Walk<string>): Result<(string, string), FallbackError> {
    match w
    case Hit(Ok(v), ns) => Ok((v, ns))
    case Hit(Err(e), _) => Err(Registry(e))
    case Exhausted => Err(ProviderNotFoundAnywhere(provider, order))
  }

  /** The outcome of `get_provider_info`. */
  function InfoOutcome(provider: string, order: seq<string>, w: Walk<ProviderInfo>): Result<ProviderInfo, FallbackError> {
    match w
    case Hit(Ok(v), _) => Ok(v)
    case Hit(Err(e), _) => Err(Registry(e))
    case Exhausted => Err(ProviderNotFoundAnywhere(provider, order))
  }

  /** The outcome of `search_docs_with_fallback`: never a not-found error. */
  function DocsOutcome(namespace: Option<string>, fallbacks: seq<string>, w: Walk<seq<DocIdResult>>)
    : Result<(seq<DocIdResult>, string), FallbackError>
    requires namespace.Some? || |fallbacks| > 0
  {
    match w
    case Hit(Ok(docs), ns) => Ok((docs, ns))
    case Hit(Err(e), _) => Err(Registry(e))
    case Exhausted => Ok(([], if namespace.Some? then namespace.value else fallbacks[0]))
  }

  /** Only a provider found nowhere is reported as such, with every namespace tried, in order. */
  lemma VersionNotFoundAnywhere(provider: string, namespace: Option<string>, fallbacks: seq<string>,
                                lookup: string -> Result<string, RegistryError>, names: seq<string>)
    requires VersionOutcome(provider, AttemptOrder(namespace, fallbacks),
                            WalkOf(AttemptOrder(namespace, fallbacks), lookup, NotFound))
             == Err(ProviderNotFoundAnywhere(provider, names))
    ensures names == AttemptOrder(namespace, fallbacks)
    ensures forall j :: 0 <= j < |names| ==> NotFound(lookup(names[j]))
  {
    WalkExhausted(AttemptOrder(namespace, fallbacks), lookup, NotFound);
  }

  /** A found version comes with the first namespace that did not answer "not found". */
  lemma VersionFound(provider: string, namespace: Option<string>, fallbacks: seq<string>,
                     lookup: string -> Result<string, RegistryError>, version: string, ns: string)
    requires VersionOutcome(provider, AttemptOrder(namespace, fallbacks),
                            WalkOf(AttemptOrder(namespace, fallbacks), lookup, NotFound)) == Ok((version, ns))
    ensures lookup(ns) == Ok(version)
    ensures exists i :: (0 <= i < |AttemptOrder(namespace, fallbacks)| && AttemptOrder(namespace, fallbacks)[i] == ns
      && forall j :: 0 <= j < i ==> NotFound(lookup(AttemptOrder(namespace, fallbacks)[j])))
  {
    WalkHit(AttemptOrder(namespace, fallbacks), lookup, NotFound);
  }

  /** With no explicit namespace, exhausting docs search answers with the first fallback. */
  lemma DocsExhaustedNamespace(fallbacks: seq<string>, search: string -> Result<seq<DocIdResult>, RegistryError>)
    requires |fallbacks| > 0
    requires forall j :: 0 <= j < |fallbacks| ==> NoDocs(search(fallbacks[j]))
    ensures DocsOutcome(None, fallbacks, WalkOf(AttemptOrder(None, fallbacks), search, NoDocs)) == Ok(([], fallbacks[0]))
  {
    OthersNone(fallbacks);
    assert AttemptOrder(None, fallbacks) == fallbacks;
    WalkExhausted(fallbacks, search, NoDocs);
  }

  /** The explicit namespace answers without a miss: the walk stops there. */
  lemma ExplicitHit<T>(namespace: Option<string>, fallbacks: seq<string>,
                       lookup: string -> Result<T, RegistryError>, isMiss: Result<T, RegistryError> -> bool)
    requires namespace.Some? && !isMiss(lookup(namespace.value))
    ensures WalkOf(AttemptOrder(namespace, fallbacks), lookup, isMiss) == Hit(lookup(namespace.value), namespace.value)
  {
    assert AttemptOrder(namespace, fallbacks) == [] + [namespace.value] + Others(fallbacks, namespace);
    WalkStop([], namespace.value, Others(fallbacks, namespace), lookup, isMiss);
  }

  /** Fallback `i` answers without a miss after everything before it missed: the walk stops there. */
  lemma FallbackHit<T>(namespace: Option<string>, fallbacks: seq<string>, i: nat,
                       lookup: string -> Result<T, RegistryError>, isMiss: Result<T, RegistryError> -> bool)
    requires i < |fallbacks| && namespace != Some(fallbacks[i])
    requires forall x :: x in Explicit(namespace) + Others(fallbacks[..i], namespace) ==> isMiss(lookup(x))
    requires !isMiss(lookup(fallbacks[i]))
    ensures WalkOf(AttemptOrder(namespace, fallbacks), lookup, isMiss) == Hit(lookup(fallbacks[i]), fallbacks[i])
  {
    var before := Explicit(namespace) + Others(fallbacks[..i], namespace);
    OthersSplit(fallbacks, namespace, i);
    assert AttemptOrder(namespace, fallbacks) == before + [fallbacks[i]] + Others(fallbacks[i + 1..], namespace);
    WalkStop(before, fallbacks[i], Others(fallbacks[i + 1..], namespace), lookup, isMiss);
  }

  /** Every namespace missed: the walk is exhausted and the namespaces searched are the attempt order. */
  lemma AllMissed<T>(namespace: Option<string>, fallbacks: seq<string>, searched: seq<string>,
                     lookup: string -> Result<T, RegistryError>, isMiss: Result<T, RegistryError> -> bool)
    requires searched == Explicit(namespace) + Others(fallbacks, namespace)
    requires forall x :: x in searched ==> isMiss(lookup(x))
    ensures searched == AttemptOrder(namespace, fallbacks)
    ensures WalkOf(AttemptOrder(namespace, fallbacks), lookup, isMiss) == Exhausted
  {
    WalkExhausted(searched, lookup, isMiss);
  }

  /** `RegistryClientWithFallback`; the client it wraps is the `lookup` argument of each method. */
  class RegistryClientWithFallback {
    var fallbackNamespaces: seq<string>

    /** `new`: the three fallback namespaces, in this order. */
    constructor ()
      ensures fallbackNamespaces == ["hashicorp", "terraform-providers", "community"]
    {
      fallbackNamespaces := ["hashicorp", "terraform-providers", "community"];
    }

    /** `get_provider_version`: the explicit namespace, then the remaining fallbacks. */
    method GetProviderVersion(provider: string, namespace: Option<string>,
        lookup: string -> Result<string, RegistryError>)
      returns (r: Result<(string, string), FallbackError>)
      ensures r == VersionOutcome(provider, AttemptOrder(namespace, fallbackNamespaces),
                                  WalkOf(AttemptOrder(namespace, fallbackNamespaces), lookup, NotFound))
    {
      var searched: seq<string> := [];
      if namespace.Some? {
        var ns := namespace.value;
        searched := [ns];
        var answer := lookup(ns);
        if !NotFound(answer) {
          ExplicitHit(namespace, fallbackNamespaces, lookup, NotFound);
          match answer
          case Ok(v) => return Ok((v, ns));
          case Err(e) => return Err(Registry(e));
        }
      }
      assert fallbackNamespaces[..0] == [];
      var i := 0;
      while i < |fallbackNamespaces|
        invariant 0 <= i <= |fallbackNamespaces|
        invariant searched == Explicit(namespace) + Others(fallbackNamespaces[..i], namespace)
        invariant forall x :: x in searched ==> NotFound(lookup(x))
      {
        OthersSnoc(fallbackNamespaces, namespace, i);
        var fb := fallbackNamespaces[i];
        if namespace == Some(fb) {
          i := i + 1;
          continue;
        }
        var answer := lookup(fb);
        if !NotFound(answer) {
          FallbackHit(namespace, fallbackNamespaces, i, lookup, NotFound);
          match answer
          case Ok(v) => return Ok((v, fb));
          case Err(e) => return Err(Registry(e));
        }
        searched := searched + [fb];
        i := i + 1;
      }
      assert fallbackNamespaces[..i] == fallbackNamespaces;
      AllMissed(namespace, fallbackNamespaces, searched, lookup, NotFound);
      r := Err(ProviderNotFoundAnywhere(provider, searched));
    }

    /** `get_provider_info`: the same walk, answering the provider record alone. */
    method GetProviderInfo(provider: string, namespace: Option<string>,
        lookup: string -> Result<ProviderInfo, RegistryError>)
      returns (r: Result<ProviderInfo, FallbackError>)
      ensures r == InfoOutcome(provider, AttemptOrder(namespace, fallbackNamespaces),
                               WalkOf(AttemptOrder(namespace, fallbackNamespaces), lookup, NotFound))
    {
      var searched: seq<string> := [];
      if namespace.Some? {
        var ns := namespace.value;
        searched := [ns];
        var answer := lookup(ns);
        if !NotFound(answer) {
          ExplicitHit(namespace, fallbackNamespaces, lookup, NotFound);
          match answer
          case Ok(v) => return Ok(v);
          case Err(e) => return Err(Registry(e));
        }
      }
      assert fallbackNamespaces[..0] == [];
      var i := 0;
      while i < |fallbackNamespaces|
        invariant 0 <= i <= |fallbackNamespaces|
        invariant searched == Explicit(namespace) + Others(fallbackNamespaces[..i], namespace)
        invariant forall x :: x in searched ==> NotFound(lookup(x))
      {
        OthersSnoc(fallbackNamespaces, namespace, i);
        var fb := fallbackNamespaces[i];
        if namespace == Some(fb) {
          i := i + 1;
          continue;
        }
        var answer := lookup(fb);
        if !NotFound(answer) {
          FallbackHit(namespace, fallbackNamespaces, i, lookup, NotFound);
          match answer
          case Ok(v) => return Ok(v);
          case Err(e) => return Err(Registry(e));
        }
        searched := searched + [fb];
        i := i + 1;
      }
      assert fallbackNamespaces[..i] == fallbackNamespaces;
      AllMissed(namespace, fallbackNamespaces, searched, lookup, NotFound);
      r := Err(ProviderNotFoundAnywhere(provider, searched));
    }

    /**
     * `search_docs_with_fallback`: an empty list is a miss, any error ends
     * the walk, and exhaustion answers an empty list with the explicit
     * namespace or the first fallback (indexing the fallback list, which
     * must then be non-empty).
     */
    method SearchDocsWithFallback(namespace: Option<string>,
        search: string -> Result<seq<DocIdResult>, RegistryError>)
      returns (r: Result<(seq<DocIdResult>, string), FallbackError>)
      requires namespace.Some? || |fallbackNamespaces| > 0
      ensures r == DocsOutcome(namespace, fallbackNamespaces,
                               WalkOf(AttemptOrder(namespace, fallbackNamespaces), search, NoDocs))
    {
      var searched: seq<string> := [];
      if namespace.Some? {
        var ns := namespace.value;
        searched := [ns];
        var answer := search(ns);
        if !NoDocs(answer) {
          ExplicitHit(namespace, fallbackNamespaces, search, NoDocs);
          match answer
          case Ok(v) => return Ok((v, ns));
          case Err(e) => return Err(Registry(e));
        }
      }
      assert fallbackNamespaces[..0] == [];
      var i := 0;
      while i < |fallbackNamespaces|
        invariant 0 <= i <= |fallbackNamespaces|
        invariant searched == Explicit(namespace) + Others(fallbackNamespaces[..i], namespace)
        invariant forall x :: x in searched ==> NoDocs(search(x))
      {
        OthersSnoc(fallbackNamespaces, namespace, i);
        var fb := fallbackNamespaces[i];
        if namespace == Some(fb) {
          i := i + 1;
          continue;
        }
        var answer := search(fb);
        if !NoDocs(answer) {
          FallbackHit(namespace, fallbackNamespaces, i, search, NoDocs);
          match answer
          case Ok(v) => return Ok((v, fb));
          case Err(e) => return Err(Registry(e));
        }
        searched := searched + [fb];
        i := i + 1;
      }
      assert fallbackNamespaces[..i] == fallbackNamespaces;
      AllMissed(namespace, fallbackNamespaces, searched, search, NoDocs);
      var used := if namespace.Some? then namespace.value else fallbackNamespaces[0];
      r := Ok(([], used));
    }
  }

  /** Splitting the fallback list at an entry that is kept. */
  lemma OthersSplit(fallbacks: seq<string>, namespace: Option<string>, i: nat)
    requires i < |fallbacks| && namespace != Some(fallbacks[i])
    ensures Others(fallbacks, namespace) ==
      Others(fallbacks[..i], namespace) + [fallbacks[i]] + Others(fallbacks[i + 1..], namespace)
  {
    OthersAppend(fallbacks[..i + 1], fallbacks[i + 1..], namespace);
    assert fallbacks[..i + 1] + fallbacks[i + 1..] == fallbacks;
    OthersSnoc(fallbacks, namespace, i);
  }

  lemma {:induction false} OthersAppend(a: seq<string>, b: seq<string>, namespace: Option<string>)
    ensures Others(a + b, namespace) == Others(a, namespace) + Others(b, namespace)
    decreases |b|
  {
    if |b| > 0 {
      var b' := b[..|b| - 1];
      assert (a + b)[..|a + b| - 1] == a + b';
      assert (a + b)[|a + b| - 1] == b[|b| - 1];
      OthersAppend(a, b', namespace);
    } else {
      assert a + b == a;
    }
  }
}

/**
 * The chunked batch fetcher (src/registry/batch.rs).  Requests are cut
 * into chunks of at most `max_concurrent`, the chunks run one after
 * another, and each chunk's results are appended in request order.  The
 * requests of a chunk run concurrently in the source; here they run in
 * order, which `join_all` makes indistinguishable in the result.  The
 * registry client is an input: `fetch(request)` is its answer.
 */
module Batch {
  import opened Wrappers
  import opened RegistryTypes

  /** `usize::clamp`. */
  function Clamp(n: nat, lo: nat, hi: nat): (r: nat)
    requires lo <= hi
    ensures lo <= r <= hi
    ensures lo <= n <= hi ==> r == n
    ensures n < lo ==> r == lo
    ensures hi < n ==> r == hi
  {
    if n < lo then lo else if n > hi then hi else n
  }

  /** `slice::chunks(k)`: consecutive pieces of length `k`, the last one possibly shorter. */
  function Chunks<T>(s: seq<T>, k: nat): (r: seq<seq<T>>)
    requires k >= 1
    decreases |s|
  {
    if |s| == 0 then []
    else if |s| <= k then [s]
    else [s[..k]] + Chunks(s[k..], k)
  }

  /** Concatenation of a sequence of chunks. */
  function Flatten<T>(cs: seq<seq<T>>): seq<T> {
    if |cs| == 0 then [] else Flatten(cs[..|cs| - 1]) + cs[|cs| - 1]
  }

  lemma {:induction false} FlattenAppend<T>(a: seq<seq<T>>, b: seq<seq<T>>)
    ensures Flatten(a + b) == Flatten(a) + Flatten(b)
    decreases |b|
  {
    if |b| == 0 {
      assert a + b == a;
    } else {
      assert (a + b)[..|a + b| - 1] == a + b[..|b| - 1];
      FlattenAppend(a, b[..|b| - 1]);
    }
  }

  /** An item of the concatenation comes from one of the chunks, and every chunk's items are in it. */
  lemma {:induction false} FlattenMembers<T>(cs: seq<seq<T>>, x: T)
    ensures x in Flatten(cs) <==> exists i :: 0 <= i < |cs| && x in cs[i]
  {
    if |cs| > 0 {
      var init := cs[..|cs| - 1];
      FlattenMembers(init, x);
      assert forall i :: 0 <= i < |init| ==> init[i] == cs[i];
    }
  }

  /** Chunking loses and reorders nothing. */
  lemma {:induction false} ChunksFlatten<T>(s: seq<T>, k: nat)
    requires k >= 1
    ensures Flatten(Chunks(s, k)) == s
    decreases |s|
  {
    if |s| == 0 {
    } else if |s| <= k {
      FlattenSingle(s);
    } else {
      var head, tail := s[..k], s[k..];
      assert Chunks(s, k) == [head] + Chunks(tail, k);
      ChunksFlatten(tail, k);
      FlattenAppend([head], Chunks(tail, k));
      FlattenSingle(head);
      assert head + tail == s;
    }
  }

  lemma FlattenSingle<T>(c: seq<T>)
    ensures Flatten([c]) == c
  {
    assert [c][..0] == [];
  }

  /** Every chunk holds between 1 and `k` requests. */
  lemma {:induction false} ChunkSizes<T>(s: seq<T>, k: nat)
    requires k >= 1
    ensures forall i :: 0 <= i < |Chunks(s, k)| ==> 1 <= |Chunks(s, k)[i]| <= k
    decreases |s|
  {
    if |s| > k {
      ChunkSizes(s[k..], k);
      var rest := Chunks(s[k..], k);
      assert Chunks(s, k) == [s[..k]] + rest;
      assert forall i :: 0 < i < |Chunks(s, k)| ==> Chunks(s, k)[i] == rest[i - 1];
    }
  }

  lemma MulSucc(m: nat, k: nat)
    ensures (m + 1) * k == m * k + k
  {
  }

  /**
   * There are ⌈|s| / k⌉ chunks: the fewest chunks of size `k` that cover
   * `s`.
   */
  lemma {:induction false} ChunkCount<T>(s: seq<T>, k: nat)
    requires k >= 1
    ensures |s| <= |Chunks(s, k)| * k
    ensures |Chunks(s, k)| > 0 ==> (|Chunks(s, k)| - 1) * k < |s|
    decreases |s|
  {
    if |s| > k {
      ChunkCount(s[k..], k);
      var m := |Chunks(s[k..], k)|;
      assert |Chunks(s, k)| == m + 1;
      MulSucc(m, k);
      if m > 0 {
        MulSucc(m - 1, k);
      }
    }
  }

  /** The results `fetch` gives for the requests, one each, in order. */
  function Fetched<A, R>(items: seq<A>, fetch: A -> R): (r: seq<R>)
    ensures |r| == |items|
    ensures forall i :: 0 <= i < |items| ==> r[i] == fetch(items[i])
  {
    seq(|items|, i requires 0 <= i < |items| => fetch(items[i]))
  }

  lemma FetchedSnoc<A, R>(items: seq<A>, i: nat, fetch: A -> R)
    requires i < |items|
    ensures Fetched(items[..i + 1], fetch) == Fetched(items[..i], fetch) + [fetch(items[i])]
  {
  }

  /**
   * The chunk loop shared by the three fetch methods: one chunk at a time,
   * its results appended in order.
   */
  method FetchInChunks<A, R>(items: seq<A>, maxConcurrent: nat, fetch: A -> R) returns (results: seq<R>)
    requires maxConcurrent >= 1
    ensures |results| == |items|
    ensures forall i :: 0 <= i < |items| ==> results[i] == fetch(items[i])
  {
    var chunks := Chunks(items, maxConcurrent);
    results := [];
    var c := 0;
    while c < |chunks|
      invariant 0 <= c <= |chunks|
      invariant results == Fetched(Flatten(chunks[..c]), fetch)
    {
      var chunkResults := Fetched(chunks[c], fetch);
      assert chunks[..c + 1][..c] == chunks[..c];
      assert Flatten(chunks[..c + 1]) == Flatten(chunks[..c]) + chunks[c];
      results := results + chunkResults;
      c := c + 1;
    }
    assert chunks[..c] == chunks;
    ChunksFlatten(items, maxConcurrent);
  }

  /** `BatchFetcher`; the registry client it holds is the `fetch` argument of each method. */
  class BatchFetcher {
    var maxConcurrent: nat

    /** `new`: the concurrency is clamped into [1, 10]. */
    constructor (maxConcurrent: nat)
      ensures this.maxConcurrent == Clamp(maxConcurrent, 1, 10)
    {
      this.maxConcurrent := Clamp(maxConcurrent, 1, 10);
    }

    /** `Default`: five at a time. */
    static method Default() returns (b: BatchFetcher)
      ensures fresh(b) && b.maxConcurrent == 5
    {
      b := new BatchFetcher(5);
    }

    /** `fetch_providers`: one `get_provider_info` answer per (name, namespace) request, in order. */
    method FetchProviders(providers: seq<(string, string)>,
                          getProviderInfo: (string, string) -> Result<ProviderInfo, RegistryError>)
      returns (results: seq<Result<ProviderInfo, RegistryError>>)
      requires maxConcurrent >= 1
      ensures |results| == |providers|
      ensures forall i :: 0 <= i < |providers| ==> results[i] == getProviderInfo(providers[i].0, providers[i].1)
    {
      results := FetchInChunks(providers, maxConcurrent, (p: (string, string)) => getProviderInfo(p.0, p.1));
    }

    /**
     * `fetch_provider_versions`: a version comes back paired with the
     * namespace it was asked for; an error passes through unchanged.
     */
    method FetchProviderVersions(providers: seq<(string, string)>,
                                 getLatestVersion: (string, string) -> Result<string, RegistryError>)
      returns (results: seq<Result<(string, string), RegistryError>>)
      requires maxConcurrent >= 1
      ensures |results| == |providers|
      ensures forall i :: 0 <= i < |providers| ==>
        (getLatestVersion(providers[i].0, providers[i].1).Ok? ==>
           results[i] == Ok((getLatestVersion(providers[i].0, providers[i].1).value, providers[i].1)))
        && (getLatestVersion(providers[i].0, providers[i].1).Err? ==>
           results[i] == Err(getLatestVersion(providers[i].0, providers[i].1).error))
    {
      results := FetchInChunks(providers, maxConcurrent, (p: (string, string)) =>
        match getLatestVersion(p.0, p.1)
        case Ok(v) => Ok((v, p.1))
        case Err(e) => Err(e));
    }

    /** `fetch_multiple_docs`: one `search_docs` answer per (provider, namespace, service, data type) request. */
    method FetchMultipleDocs(requests: seq<(string, string, string, string)>,
                             searchDocs: (string, string, string, string) -> Result<seq<DocIdResult>, RegistryError>)
      returns (results: seq<Result<seq<DocIdResult>, RegistryError>>)
      requires maxConcurrent >= 1
      ensures |results| == |requests|
      ensures forall i :: 0 <= i < |requests| ==>
        results[i] == searchDocs(requests[i].0, requests[i].1, requests[i].2, requests[i].3)
    {
      results := FetchInChunks(requests, maxConcurrent,
        (q: (string, string, string, string)) => searchDocs(q.0, q.1, q.2, q.3));
    }
  }

  /** The clamp on the values the source's tests use. */
  lemma ClampSamples()
    ensures Clamp(0, 1, 10) == 1 && Clamp(15, 1, 10) == 10 && Clamp(20, 1, 10) == 10
    ensures Clamp(3, 1, 10) == 3 && Clamp(5, 1, 10) == 5
  {
  }
}

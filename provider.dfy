/**
 * The caching provider resolver (src/registry/provider.rs).  Every lookup
 * reads through one of the two TTL caches: a live entry that deserialises
 * is answered at once; otherwise the registry client is asked, a success
 * is stored under the same key and returned, and a failure is returned
 * with nothing stored.  The client, the clock and serde's JSON
 * (de)serialisation are inputs.
 */
module Provider {
  import opened Wrappers
  import opened RegistryTypes
  import opened Cache

  function DocIdsKey(namespace: string, name: string, slug: string): string {
    "docids:" + namespace + ":" + name + ":" + slug
  }

  function DocKey(docId: string): string {
    "doc:" + docId
  }

  function SearchKey(query: string): string {
    "search:" + query
  }

  function InfoKey(namespace: string, name: string): string {
    "info:" + namespace + ":" + name
  }

  /** Content entries and doc-id entries share the documentation cache without ever sharing a key. */
  lemma DocKeysDisjoint(docId: string, namespace: string, name: string, slug: string)
    ensures DocKey(docId) != DocIdsKey(namespace, name, slug)
  {
    assert DocKey(docId)[3] == ':';
    assert DocIdsKey(namespace, name, slug)[3] == 'i';
  }

  /** Search entries and info entries share the providers cache without ever sharing a key. */
  lemma ProviderKeysDisjoint(query: string, namespace: string, name: string)
    ensures SearchKey(query) != InfoKey(namespace, name)
  {
    assert SearchKey(query)[0] == 's';
    assert InfoKey(namespace, name)[0] == 'i';
  }

  /** What the cache can answer for `key` at `now`: a live entry that deserialises. */
  function CachedAnswer<T>(storage: map<string, CachedItem<string>>, ttl: nat, key: string, now: int,
                           decode: string -> Option<T>): Option<T>
  {
    if key in LiveKeys(storage, ttl, now) then decode(storage[key].value) else None
  }

  /** The data type searched for when none is given. */
  function DataTypeOrDefault(dataType: Option<string>): string {
    if dataType.Some? then dataType.value else "resources"
  }

  /** `ProviderResolver`; the registry client is the fetch argument of each method. */
  class ProviderResolver {
    const cache: CacheManager

    constructor ()
      ensures fresh(cache) && fresh(cache.documentationCache) && fresh(cache.providersCache)
      ensures cache.Valid()
      ensures cache.documentationCache.storage == map[] && cache.providersCache.storage == map[]
    {
      cache := new CacheManager();
    }

    /**
     * `resolve_provider_doc_id`: the key leaves out the data type, so two
     * calls that differ only in it share one entry.
     */
    method ResolveProviderDocId(name: string, namespace: string, slug: string, dataType: Option<string>, now: int,
                                searchDocs: (string, string, string, string) -> Result<seq<DocIdResult>, RegistryError>,
                                encode: seq<DocIdResult> -> string, decode: string -> Option<seq<DocIdResult>>)
      returns (r: Result<seq<DocIdResult>, RegistryError>)
      modifies cache.documentationCache
      ensures var hit := CachedAnswer(old(cache.documentationCache.storage), cache.documentationCache.ttl,
                                      DocIdsKey(namespace, name, slug), now, decode);
        if hit.Some? then
          r == Ok(hit.value) && cache.documentationCache.storage == old(cache.documentationCache.storage)
        else
          r == searchDocs(name, namespace, slug, DataTypeOrDefault(dataType))
          && (r.Ok? ==> (cache.documentationCache.storage ==
                old(cache.documentationCache.storage)[DocIdsKey(namespace, name, slug) := CachedItem(encode(r.value), now)]))
          && (r.Err? ==> cache.documentationCache.storage == old(cache.documentationCache.storage))
    {
      var key := DocIdsKey(namespace, name, slug);
      var cached := cache.documentationCache.Get(key, now);
      if cached.Some? {
        var results := decode(cached.value);
        if results.Some? {
          return Ok(results.value);
        }
      }
      var fetched := searchDocs(name, namespace, slug, DataTypeOrDefault(dataType));
      if fetched.Err? {
        return Err(fetched.error);
      }
      cache.documentationCache.Set(key, encode(fetched.value), now);
      r := Ok(fetched.value);
    }

    /** `get_provider_docs`: cached content is returned as stored, with no deserialising. */
    method GetProviderDocs(docId: string, now: int, getDocContent: string -> Result<string, RegistryError>)
      returns (r: Result<string, RegistryError>)
      modifies cache.documentationCache
      ensures var storage := old(cache.documentationCache.storage);
        if DocKey(docId) in LiveKeys(storage, cache.documentationCache.ttl, now) then
          r == Ok(storage[DocKey(docId)].value) && cache.documentationCache.storage == storage
        else
          r == getDocContent(docId)
          && (r.Ok? ==> cache.documentationCache.storage == storage[DocKey(docId) := CachedItem(r.value, now)])
          && (r.Err? ==> cache.documentationCache.storage == storage)
    {
      var key := DocKey(docId);
      var cached := cache.documentationCache.Get(key, now);
      if cached.Some? {
        return Ok(cached.value);
      }
      var content := getDocContent(docId);
      if content.Err? {
        return Err(content.error);
      }
      cache.documentationCache.Set(key, content.value, now);
      r := Ok(content.value);
    }

    /** `search_providers`, through the providers cache. */
    method SearchProviders(query: string, now: int,
                           searchProviders: string -> Result<seq<ProviderInfo>, RegistryError>,
                           encode: seq<ProviderInfo> -> string, decode: string -> Option<seq<ProviderInfo>>)
      returns (r: Result<seq<ProviderInfo>, RegistryError>)
      modifies cache.providersCache
      ensures var hit := CachedAnswer(old(cache.providersCache.storage), cache.providersCache.ttl,
                                      SearchKey(query), now, decode);
        if hit.Some? then
          r == Ok(hit.value) && cache.providersCache.storage == old(cache.providersCache.storage)
        else
          r == searchProviders(query)
          && (r.Ok? ==> (cache.providersCache.storage ==
                old(cache.providersCache.storage)[SearchKey(query) := CachedItem(encode(r.value), now)]))
          && (r.Err? ==> cache.providersCache.storage == old(cache.providersCache.storage))
    {
      var key := SearchKey(query);
      var cached := cache.providersCache.Get(key, now);
      if cached.Some? {
        var results := decode(cached.value);
        if results.Some? {
          return Ok(results.value);
        }
      }
      var fetched := searchProviders(query);
      if fetched.Err? {
        return Err(fetched.error);
      }
      cache.providersCache.Set(key, encode(fetched.value), now);
      r := Ok(fetched.value);
    }

    /** `get_provider_info`, through the providers cache. */
    method GetProviderInfo(name: string, namespace: string, now: int,
                           getProviderInfo: (string, string) -> Result<ProviderInfo, RegistryError>,
                           encode: ProviderInfo -> string, decode: string -> Option<ProviderInfo>)
      returns (r: Result<ProviderInfo, RegistryError>)
      modifies cache.providersCache
      ensures var hit := CachedAnswer(old(cache.providersCache.storage), cache.providersCache.ttl,
                                      InfoKey(namespace, name), now, decode);
        if hit.Some? then
          r == Ok(hit.value) && cache.providersCache.storage == old(cache.providersCache.storage)
        else
          r == getProviderInfo(name, namespace)
          && (r.Ok? ==> (cache.providersCache.storage ==
                old(cache.providersCache.storage)[InfoKey(namespace, name) := CachedItem(encode(r.value), now)]))
          && (r.Err? ==> cache.providersCache.storage == old(cache.providersCache.storage))
    {
      var key := InfoKey(namespace, name);
      var cached := cache.providersCache.Get(key, now);
      if cached.Some? {
        var info := decode(cached.value);
        if info.Some? {
          return Ok(info.value);
        }
      }
      var fetched := getProviderInfo(name, namespace);
      if fetched.Err? {
        return Err(fetched.error);
      }
      cache.providersCache.Set(key, encode(fetched.value), now);
      r := Ok(fetched.value);
    }
  }

  /**
   * A successful fetch, once stored, is what the next lookup at the same
   * instant answers (when the TTL is positive and serialisation round-trips).
   */
  lemma StoredIsAnswered<T>(storage: map<string, CachedItem<string>>, ttl: nat, key: string, now: int,
                            value: T, encode: T -> string, decode: string -> Option<T>)
    requires ttl > 0 && decode(encode(value)) == Some(value)
    ensures CachedAnswer(storage[key := CachedItem(encode(value), now)], ttl, key, now, decode) == Some(value)
  {
    SetThenLive(storage, ttl, key, encode(value), now);
  }
}

/**
 * The registry's in-memory TTL cache (src/registry/cache.rs).  Each entry
 * remembers when it was stored; an entry is live while less than `ttl`
 * seconds have passed since then, and expired entries stay in storage
 * until `cleanup_expired`, `set` or `clear` removes them.  The clock is an
 * input: every operation that reads `Instant::now()` takes `now`.
 */
module Cache {
  import opened Wrappers

  datatype CachedItem<T> = CachedItem(value: T, insertedAt: int)

  datatype CacheStats = CacheStats(totalEntries: nat, validEntries: nat, expiredEntries: nat)

  /** An item is live at `now` while its age is below the TTL. */
  predicate IsLive<T>(item: CachedItem<T>, ttl: nat, now: int) {
    now - item.insertedAt < ttl
  }

  /** The keys whose entries are live at `now`. */
  function LiveKeys<T>(storage: map<string, CachedItem<T>>, ttl: nat, now: int): (r: set<string>)
    ensures r <= storage.Keys
    ensures forall k :: k in r <==> k in storage && IsLive(storage[k], ttl, now)
  {
    set k | k in storage && IsLive(storage[k], ttl, now)
  }

  /** What `retain` leaves: exactly the live entries, unchanged. */
  function Retained<T>(storage: map<string, CachedItem<T>>, ttl: nat, now: int): (r: map<string, CachedItem<T>>)
    ensures r.Keys == LiveKeys(storage, ttl, now)
    ensures forall k :: k in r ==> r[k] == storage[k]
  {
    map k | k in storage && IsLive(storage[k], ttl, now) :: storage[k]
  }

  /** A subset is no larger than its superset. */
  lemma {:induction false} SubsetCard(a: set<string>, b: set<string>)
    requires a <= b
    ensures |a| <= |b|
    decreases |b|
  {
    if b != {} {
      var x :| x in b;
      SubsetCard(a - {x}, b - {x});
    }
  }

  /** The statistics of a storage: live and expired entries partition it. */
  function StatsOf<T>(storage: map<string, CachedItem<T>>, ttl: nat, now: int): (s: CacheStats)
    ensures s.totalEntries == |storage| == s.validEntries + s.expiredEntries
    ensures s.validEntries == |LiveKeys(storage, ttl, now)|
  {
    var live := LiveKeys(storage, ttl, now);
    SubsetCard(live, storage.Keys);
    CacheStats(|storage|, |live|, |storage| - |live|)
  }

  /** After `retain`, nothing in storage has expired. */
  lemma RetainedAllLive<T>(storage: map<string, CachedItem<T>>, ttl: nat, now: int)
    ensures StatsOf(Retained(storage, ttl, now), ttl, now).expiredEntries == 0
  {
    var r := Retained(storage, ttl, now);
    assert LiveKeys(r, ttl, now) == r.Keys;
  }

  /** A value just stored is live at the same instant whenever the TTL is positive. */
  lemma SetThenLive<T>(storage: map<string, CachedItem<T>>, ttl: nat, key: string, value: T, now: int)
    requires ttl > 0
    ensures key in LiveKeys(storage[key := CachedItem(value, now)], ttl, now)
  {
  }

  /** A stored value stops being live once `ttl` has passed, as the expiry tests expect. */
  lemma ExpiresAfterTtl<T>(storage: map<string, CachedItem<T>>, ttl: nat, key: string, now: int, later: int)
    requires key in storage && later >= storage[key].insertedAt + ttl
    ensures key !in LiveKeys(storage, ttl, later)
  {
  }

  /** Liveness only goes away as time passes. */
  lemma LiveKeysShrink<T>(storage: map<string, CachedItem<T>>, ttl: nat, now: int, later: int)
    requires now <= later
    ensures LiveKeys(storage, ttl, later) <= LiveKeys(storage, ttl, now)
  {
  }

  /** `SimpleCache<T>`: the storage map and the TTL it was built with. */
  class SimpleCache<T> {
    var storage: map<string, CachedItem<T>>
    const ttl: nat

    /** `SimpleCache::new`: empty storage. */
    constructor (ttl: nat)
      ensures this.ttl == ttl && storage == map[]
    {
      this.ttl := ttl;
      storage := map[];
    }

    /** `SimpleCache::default`: five minutes. */
    static method Default() returns (c: SimpleCache<T>)
      ensures fresh(c) && c.ttl == 300 && c.storage == map[]
    {
      c := new SimpleCache(300);
    }

    /** `get`: the stored value, only while it is live; storage is not touched. */
    method Get(key: string, now: int) returns (r: Option<T>)
      ensures r.Some? <==> key in LiveKeys(storage, ttl, now)
      ensures r.Some? ==> r.value == storage[key].value
    {
      if key in storage && IsLive(storage[key], ttl, now) {
        r := Some(storage[key].value);
      } else {
        r := None;
      }
    }

    /** `set`: overwrite the entry, live or expired, with a fresh timestamp; other keys keep theirs. */
    method Set(key: string, value: T, now: int)
      modifies this
      ensures storage == old(storage)[key := CachedItem(value, now)]
      ensures forall k :: k != key && k in old(storage) ==> k in storage && storage[k] == old(storage)[k]
    {
      storage := storage[key := CachedItem(value, now)];
    }

    /** `cleanup_expired`: drop the expired entries one by one; live ones keep value and timestamp. */
    method CleanupExpired(now: int)
      modifies this
      ensures storage == Retained(old(storage), ttl, now)
      ensures StatsOf(storage, ttl, now).expiredEntries == 0
    {
      var todo := storage.Keys;
      while todo != {}
        invariant todo <= storage.Keys <= old(storage).Keys
        invariant forall k :: k in storage ==> storage[k] == old(storage)[k]
        invariant forall k :: k in old(storage) && k !in todo ==>
          (k in storage <==> IsLive(old(storage)[k], ttl, now))
        decreases |todo|
      {
        var k :| k in todo;
        if !IsLive(storage[k], ttl, now) {
          storage := storage - {k};
        }
        todo := todo - {k};
      }
      assert storage == Retained(old(storage), ttl, now);
      RetainedAllLive(old(storage), ttl, now);
    }

    /** `stats`: counts over the storage, which is not touched. */
    method Stats(now: int) returns (s: CacheStats)
      ensures s == StatsOf(storage, ttl, now)
      ensures s.totalEntries == s.validEntries + s.expiredEntries == |storage|
    {
      var live := LiveKeys(storage, ttl, now);
      SubsetCard(live, storage.Keys);
      s := CacheStats(|storage|, |live|, |storage| - |live|);
    }

    /** `clear`: no entries remain. */
    method Clear()
      modifies this
      ensures storage == map[]
    {
      storage := map[];
    }

    /** `size`: the number of stored entries, live or expired. */
    method Size() returns (n: nat)
      ensures n == |storage|
    {
      n := |storage|;
    }
  }

  /** `CacheManager`: documentation is kept for 30 minutes and provider data for 10. */
  class CacheManager {
    const documentationCache: SimpleCache<string>
    const providersCache: SimpleCache<string>

    predicate Valid()
    {
      documentationCache != providersCache
    }

    constructor ()
      ensures Valid()
      ensures documentationCache.ttl == 1800 && providersCache.ttl == 600
      ensures documentationCache.storage == map[] && providersCache.storage == map[]
      ensures fresh(documentationCache) && fresh(providersCache)
    {
      documentationCache := new SimpleCache(1800);
      providersCache := new SimpleCache(600);
    }

    /** `global_stats`: one entry per cache, under its name. */
    method GlobalStats(now: int) returns (stats: map<string, CacheStats>)
      ensures stats.Keys == {"documentation", "providers"}
      ensures stats["documentation"] == StatsOf(documentationCache.storage, documentationCache.ttl, now)
      ensures stats["providers"] == StatsOf(providersCache.storage, providersCache.ttl, now)
    {
      var d := documentationCache.Stats(now);
      var p := providersCache.Stats(now);
      stats := map["documentation" := d, "providers" := p];
    }

    /** `cleanup_all`. */
    method CleanupAll(now: int)
      requires Valid()
      modifies documentationCache, providersCache
      ensures documentationCache.storage == Retained(old(documentationCache.storage), documentationCache.ttl, now)
      ensures providersCache.storage == Retained(old(providersCache.storage), providersCache.ttl, now)
    {
      documentationCache.CleanupExpired(now);
      providersCache.CleanupExpired(now);
    }

    /** `clear_all`. */
    method ClearAll()
      requires Valid()
      modifies documentationCache, providersCache
      ensures documentationCache.storage == map[] && providersCache.storage == map[]
    {
      documentationCache.Clear();
      providersCache.Clear();
    }
  }
}

/**
 * The data preloader: a single cache entry in browser storage under
 * "stacksolutions_preloaded_data", holding the preloaded data and the time
 * it was stored, valid for 24 hours; and the singleton that owns it.
 *
 * The clock (`Date.now()`) is a parameter in milliseconds, whether a
 * `window` exists is a constant of the instance, and the four fetches are
 * one step whose outcome is a parameter.
 */
module DataPreloader {
  import opened Wrappers

  /** Each collection is represented by the titles or names of its items. */
  datatype PreloadedData = PreloadedData(
    testimonials: seq<string>,
    caseStudies: seq<string>,
    blogPosts: seq<string>,
    services: seq<string>)

  /** The stored record: the data and the clock reading when it was stored. */
  datatype CacheEntry = CacheEntry(data: PreloadedData, timestamp: int)

  /** The built-in data; every fetch stub returns its part of it, and it is the fallback on failure. */
  const MockData: PreloadedData := PreloadedData(
    ["Sarah Johnson", "Michael Chen"],
    ["E-commerce Platform Transformation", "Healthcare Management System"],
    ["The Future of Web Development: Trends to Watch in 2024"],
    ["Full-Stack Development", "Flutter Mobile Apps"])

  const CacheKey: string := "stacksolutions_preloaded_data"

  /** 24 hours in milliseconds. */
  const CacheExpiry: int := 24 * 60 * 60 * 1000

  /** An entry read at `now` is still valid. */
  predicate IsFresh(entry: CacheEntry, now: int)
  {
    now - entry.timestamp < CacheExpiry
  }

  /** What a lookup at `now` returns for the given storage. */
  function CachedValue(storage: map<string, CacheEntry>, hasWindow: bool, now: int): (r: Option<PreloadedData>)
    ensures r.Some? <==> hasWindow && CacheKey in storage && IsFresh(storage[CacheKey], now)
    ensures r.Some? ==> r.value == storage[CacheKey].data
  {
    if !hasWindow || CacheKey !in storage then None
    else if IsFresh(storage[CacheKey], now) then Some(storage[CacheKey].data)
    else None
  }

  /** What a lookup at `now` leaves in storage: an expired entry is removed. */
  function StorageAfterLookup(storage: map<string, CacheEntry>, hasWindow: bool, now: int): (s: map<string, CacheEntry>)
    ensures CacheKey in s ==> CachedValue(s, hasWindow, now) == CachedValue(storage, hasWindow, now)
    ensures hasWindow && CacheKey in storage && !IsFresh(storage[CacheKey], now) ==> CacheKey !in s
    ensures forall k :: k != CacheKey ==> (k in s <==> k in storage) && (k in s ==> s[k] == storage[k])
  {
    if hasWindow && CacheKey in storage && !IsFresh(storage[CacheKey], now) then storage - {CacheKey}
    else storage
  }

  /** Data stored at time `t` is returned by any lookup less than 24 hours later. */
  lemma StoredDataHitsWithinExpiry(storage: map<string, CacheEntry>, data: PreloadedData, t: int, now: int)
    requires t <= now < t + 86400000
    ensures CachedValue(storage[CacheKey := CacheEntry(data, t)], true, now) == Some(data)
  {
  }

  /** Data stored at time `t` is gone 24 hours later, and the lookup evicts it. */
  lemma StoredDataExpires(storage: map<string, CacheEntry>, data: PreloadedData, t: int, now: int)
    requires now >= t + 86400000
    ensures CachedValue(storage[CacheKey := CacheEntry(data, t)], true, now) == None
    ensures CacheKey !in StorageAfterLookup(storage[CacheKey := CacheEntry(data, t)], true, now)
  {
  }

  /** After the key is removed every lookup misses. */
  lemma ClearedStorageMisses(storage: map<string, CacheEntry>, hasWindow: bool, now: int)
    ensures CachedValue(storage - {CacheKey}, hasWindow, now) == None
  {
  }

  /** A lookup never turns a miss into a hit, and a second lookup at the same time agrees with the first. */
  lemma LookupIsStable(storage: map<string, CacheEntry>, hasWindow: bool, now: int)
    ensures CachedValue(StorageAfterLookup(storage, hasWindow, now), hasWindow, now) == CachedValue(storage, hasWindow, now)
  {
  }

  class Preloader {
    /** The browser's local storage. */
    var storage: map<string, CacheEntry>
    /** `typeof window !== 'undefined'`. */
    const hasWindow: bool

    constructor (hasWindow: bool, storage: map<string, CacheEntry>)
      ensures this.hasWindow == hasWindow && this.storage == storage
    {
      this.hasWindow := hasWindow;
      this.storage := storage;
    }

    /** `getCachedData`: the stored data while it is fresh; an expired entry is removed. */
    method GetCachedData(now: int) returns (r: Option<PreloadedData>)
      modifies this`storage
      ensures r == CachedValue(old(storage), hasWindow, now)
      ensures storage == StorageAfterLookup(old(storage), hasWindow, now)
    {
      if !hasWindow {
        return None;
      }
      if CacheKey !in storage {
        return None;
      }
      var entry := storage[CacheKey];
      if now - entry.timestamp < CacheExpiry {
        return Some(entry.data);
      }
      storage := storage - {CacheKey};
      return None;
    }

    /** `setCachedData`: store the data stamped with `now`; a no-op without a window. */
    method SetCachedData(data: PreloadedData, now: int)
      modifies this`storage
      ensures hasWindow ==> storage == old(storage)[CacheKey := CacheEntry(data, now)]
      ensures !hasWindow ==> storage == old(storage)
    {
      if !hasWindow {
        return;
      }
      storage := storage[CacheKey := CacheEntry(data, now)];
    }

    /** `clearCache`: remove the entry; a no-op without a window. */
    method ClearCache()
      modifies this`storage
      ensures hasWindow ==> storage == old(storage) - {CacheKey}
      ensures !hasWindow ==> storage == old(storage)
    {
      if !hasWindow {
        return;
      }
      storage := storage - {CacheKey};
    }

    /**
     * `preloadAllData` at time `now`: a fresh cache entry is returned as is;
     * otherwise the fetched data is stored and returned; if the fetch step
     * throws, the mock data is returned and nothing new is stored.
     */
    method PreloadAllData(now: int, fetchFails: bool) returns (r: PreloadedData)
      modifies this`storage
      ensures CachedValue(old(storage), hasWindow, now).Some? ==>
        r == CachedValue(old(storage), hasWindow, now).value && storage == old(storage)
      ensures CachedValue(old(storage), hasWindow, now).None? ==> r == MockData
      ensures CachedValue(old(storage), hasWindow, now).None? && !fetchFails && hasWindow ==>
        storage == old(storage)[CacheKey := CacheEntry(MockData, now)]
      ensures CachedValue(old(storage), hasWindow, now).None? && (fetchFails || !hasWindow) ==>
        storage == StorageAfterLookup(old(storage), hasWindow, now)
    {
      var cached := GetCachedData(now);
      if cached.Some? {
        return cached.value;
      }
      if fetchFails {
        return MockData;
      }
      var preloaded := PreloadedData(MockData.testimonials, MockData.caseStudies, MockData.blogPosts, MockData.services);
      SetCachedData(preloaded, now);
      return preloaded;
    }
  }

  /** The static `instance` field and `getInstance`. */
  class Registry {
    var instance: Preloader?
    const hasWindow: bool
    /** What storage holds when the instance is first created. */
    const initialStorage: map<string, CacheEntry>

    constructor (hasWindow: bool, initialStorage: map<string, CacheEntry>)
      ensures instance == null
      ensures this.hasWindow == hasWindow && this.initialStorage == initialStorage
    {
      instance := null;
      this.hasWindow := hasWindow;
      this.initialStorage := initialStorage;
    }

    /** Create the instance on first use; every call returns that same instance. */
    method GetInstance() returns (p: Preloader)
      modifies this`instance
      ensures old(instance) != null ==> p == old(instance)
      ensures old(instance) == null ==> fresh(p) && p.hasWindow == hasWindow && p.storage == initialStorage
      ensures instance == p
    {
      if instance == null {
        instance := new Preloader(hasWindow, initialStorage);
      }
      p := instance;
    }
  }

  /** Two calls of `getInstance` give the same object. */
  method SameInstance(registry: Registry) returns (first: Preloader, second: Preloader)
    modifies registry`instance
    ensures first == second
  {
    first := registry.GetInstance();
    second := registry.GetInstance();
  }
}

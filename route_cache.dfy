/**
 * The short-lived quote cache shared by the routers: entries live for 30
 * seconds and an expired entry is removed when it is read
 * (src/lib/routing/route-cache.ts).
 */
module RouteCache {
  import opened Wrappers

  const TTL_MS := 30_000

  datatype CacheEntry<T> = CacheEntry(data: T, expiresAt: int)

  /** What a read of `key` at time `now` returns: the data unless absent or expired (`now > expiresAt`). */
  function Lookup<T>(entries: map<string, CacheEntry<T>>, key: string, now: int): Option<T> {
    if key !in entries || now > entries[key].expiresAt then None else Some(entries[key].data)
  }

  /** The entries after a read of `key` at time `now`: an expired entry for `key` is dropped. */
  function AfterLookup<T>(entries: map<string, CacheEntry<T>>, key: string, now: int): map<string, CacheEntry<T>> {
    if key in entries && now > entries[key].expiresAt then entries - {key} else entries
  }

  /** The entries after storing `data` under `key` at time `now`. */
  function Store<T>(entries: map<string, CacheEntry<T>>, key: string, data: T, now: int): map<string, CacheEntry<T>> {
    entries[key := CacheEntry(data, now + TTL_MS)]
  }

  class Cache<T> {
    var entries: map<string, CacheEntry<T>>

    constructor ()
      ensures entries == map[]
    {
      entries := map[];
    }

    /** `getCached(key)` at time `now`. */
    method Get(key: string, now: int) returns (r: Option<T>)
      modifies this
      ensures r == Lookup(old(entries), key, now)
      ensures entries == AfterLookup(old(entries), key, now)
    {
      if key !in entries {
        return None;
      }
      var entry := entries[key];
      if now > entry.expiresAt {
        entries := entries - {key};
        return None;
      }
      r := Some(entry.data);
    }

    /** `setCache(key, data)` at time `now`. */
    method Set(key: string, data: T, now: int)
      modifies this
      ensures entries == Store(old(entries), key, data, now)
    {
      entries := entries[key := CacheEntry(data, now + TTL_MS)];
    }
  }

  /**
   * A read up to 30 seconds after a store, the last millisecond included,
   * returns the stored data and leaves the cache as it was.
   */
  lemma HitWithinTtl<T>(entries: map<string, CacheEntry<T>>, key: string, data: T, setAt: int, now: int)
    requires setAt <= now <= setAt + TTL_MS
    ensures Lookup(Store(entries, key, data, setAt), key, now) == Some(data)
    ensures AfterLookup(Store(entries, key, data, setAt), key, now) == Store(entries, key, data, setAt)
  {
  }

  /** A read more than 30 seconds after a store misses and removes the key. */
  lemma MissAfterTtl<T>(entries: map<string, CacheEntry<T>>, key: string, data: T, setAt: int, now: int)
    requires now > setAt + TTL_MS
    ensures Lookup(Store(entries, key, data, setAt), key, now) == None
    ensures key !in AfterLookup(Store(entries, key, data, setAt), key, now)
  {
  }

  /** Storing or reading one key never changes what another key reads. */
  lemma OtherKeysUntouched<T>(entries: map<string, CacheEntry<T>>, key: string, other: string, data: T, t: int, now: int)
    requires other != key
    ensures Lookup(Store(entries, key, data, t), other, now) == Lookup(entries, other, now)
    ensures Lookup(AfterLookup(entries, key, t), other, now) == Lookup(entries, other, now)
  {
  }

  /** A read may drop an expired entry, but a later read of the same key gives the same answer as without it. */
  lemma ReadsAreStable<T>(entries: map<string, CacheEntry<T>>, key: string, t1: int, t2: int)
    requires t1 <= t2
    ensures Lookup(AfterLookup(entries, key, t1), key, t2) == Lookup(entries, key, t2)
  {
  }
}

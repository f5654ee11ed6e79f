/**
 * `ApiCache`: an in-memory map from cache keys to responses, each stamped with the
 * time it was stored. A read evicts an entry that has outlived the time-to-live.
 * `Date.now()` is the explicit parameter `now` (milliseconds).
 */
module Cache {
  import opened Wrappers

  /** `API_CONFIG.CACHE_CONFIG.TTL`: five minutes, in milliseconds. */
  const TTL: int := 5 * 60 * 1000

  datatype CacheItem<T> = CacheItem(data: T, timestamp: int)

  /**
   * `Date.now() - item.timestamp > TTL`: an entry is never expired at or before
   * the time it was stored.
   */
  predicate IsExpired<T>(item: CacheItem<T>, now: int)
    ensures IsExpired(item, now) ==> now > item.timestamp
  {
    now - item.timestamp > TTL
  }

  /** What `get(key)` returns at time `now`: never an entry older than the TTL. */
  function Lookup<T>(entries: map<string, CacheItem<T>>, key: string, now: int): (r: Option<T>)
    ensures r.Some? <==> key in entries && now - entries[key].timestamp <= TTL
    ensures r.Some? ==> r.value == entries[key].data
  {
    if key !in entries then None
    else if IsExpired(entries[key], now) then None
    else Some(entries[key].data)
  }

  /** The entries `get(key)` leaves behind at time `now`: only a stale `key` is removed. */
  function AfterLookup<T>(entries: map<string, CacheItem<T>>, key: string, now: int): (m: map<string, CacheItem<T>>)
    ensures key in entries && now - entries[key].timestamp > TTL ==> m.Keys == entries.Keys - {key}
    ensures !(key in entries && now - entries[key].timestamp > TTL) ==> m == entries
    ensures forall k | k in m :: k in entries && m[k] == entries[k]
  {
    if key in entries && IsExpired(entries[key], now) then entries - {key} else entries
  }

  /** Once an entry has expired it stays expired at every later time. */
  lemma ExpiryIsPermanent<T>(item: CacheItem<T>, now: int, later: int)
    requires IsExpired(item, now) && later >= now
    ensures IsExpired(item, later)
  {
  }

  class ApiCache<T> {
    /** The private `cache` Map. */
    var entries: map<string, CacheItem<T>>

    constructor()
      ensures entries == map[]
    {
      entries := map[];
    }

    /** `set(key, data)`: stores `data` stamped with `now`, replacing any earlier entry for `key`. */
    method Set(key: string, data: T, now: int)
      modifies this
      ensures entries == old(entries)[key := CacheItem(data, now)]
      ensures forall k | k in old(entries) && k != key :: k in entries && entries[k] == old(entries)[k]
    {
      entries := entries[key := CacheItem(data, now)];
    }

    /** `get(key)`: the stored data if it is at most `TTL` old; a stale entry is deleted. */
    method Get(key: string, now: int) returns (r: Option<T>)
      modifies this
      ensures r == Lookup(old(entries), key, now)
      ensures entries == AfterLookup(old(entries), key, now)
    {
      if key !in entries {
        return None;
      }
      var item := entries[key];
      if now - item.timestamp > TTL {
        entries := entries - {key};
        return None;
      }
      return Some(item.data);
    }

    /** `clear()` */
    method Clear()
      modifies this
      ensures entries == map[]
    {
      entries := map[];
    }
  }

  /** After `set(key, v)` at time `t`, `get(key)` returns `v` as long as at most `TTL` has passed, and evicts nothing. */
  lemma SetThenLookup<T>(entries: map<string, CacheItem<T>>, key: string, v: T, t: int, now: int)
    requires now - t <= TTL
    ensures Lookup(entries[key := CacheItem(v, t)], key, now) == Some(v)
    ensures AfterLookup(entries[key := CacheItem(v, t)], key, now) == entries[key := CacheItem(v, t)]
  {
  }

  /** An entry exactly `TTL` old is still served; one millisecond later it is gone and removed. */
  lemma ExpiryBoundary<T>(entries: map<string, CacheItem<T>>, key: string, v: T, t: int)
    ensures Lookup(entries[key := CacheItem(v, t)], key, t + TTL) == Some(v)
    ensures Lookup(entries[key := CacheItem(v, t)], key, t + TTL + 1) == None
    ensures AfterLookup(entries[key := CacheItem(v, t)], key, t + TTL + 1) == entries - {key}
  {
  }

  /** A key that was never stored reads as absent and the map is left as it was. */
  lemma LookupMissing<T>(entries: map<string, CacheItem<T>>, key: string, now: int)
    requires key !in entries
    ensures Lookup(entries, key, now) == None
    ensures AfterLookup(entries, key, now) == entries
  {
  }

  /** A stale entry reads as absent and exactly that key is removed. */
  lemma LookupExpired<T>(entries: map<string, CacheItem<T>>, key: string, now: int)
    requires key in entries && now - entries[key].timestamp > TTL
    ensures Lookup(entries, key, now) == None
    ensures AfterLookup(entries, key, now) == entries - {key}
  {
  }

  /** After `clear()` every key reads as absent. */
  lemma LookupAfterClear<T>(key: string, now: int)
    ensures Lookup<T>(map[], key, now) == None
  {
  }
}

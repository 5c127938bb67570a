/** The process-wide TTL cache of src/lib/cache.ts: a map from keys to entries that expire,
    evicted only when a read finds them expired. The clock is the `now` (milliseconds) that
    every operation receives. */
module Cache {
  import opened Wrappers

  /** One stored value with the time it was stored and the time after which it is stale. */
  datatype CacheEntry<T> = CacheEntry(data: T, timestamp: int, expiresAt: int)

  type Store<T> = map<string, CacheEntry<T>>

  /** The TTL `set` uses when the caller gives none: 24 hours. */
  const DefaultTtlMs: int := 24 * 60 * 60 * 1000

  /** Expiry is strict: an entry is still fresh at exactly `expiresAt`. */
  predicate Expired<T>(e: CacheEntry<T>, now: int) {
    now > e.expiresAt
  }

  /** The store after `set(key, data, ttlMs)` at time `now`. */
  function Stored<T>(m: Store<T>, key: string, data: T, ttlMs: int, now: int): (m': Store<T>)
    ensures key in m' && m'[key] == CacheEntry(data, now, now + ttlMs)
    ensures forall k :: k != key ==> (k in m' <==> k in m) && (k in m ==> m'[k] == m[k])
  {
    m[key := CacheEntry(data, now, now + ttlMs)]
  }

  /** What `get(key)` returns at time `now`. */
  function Lookup<T>(m: Store<T>, key: string, now: int): (r: Option<T>)
    ensures r.Some? <==> key in m && now <= m[key].expiresAt
    ensures r.Some? ==> r.value == m[key].data
  {
    if key !in m || Expired(m[key], now) then None else Some(m[key].data)
  }

  /** The store after `get(key)` at time `now`: an expired entry for `key` is removed,
      nothing else changes. */
  function AfterLookup<T>(m: Store<T>, key: string, now: int): (m': Store<T>)
    ensures key in m' <==> key in m && now <= m[key].expiresAt
    ensures key in m' ==> m'[key] == m[key]
    ensures forall k :: k != key ==> (k in m' <==> k in m) && (k in m ==> m'[k] == m[k])
  {
    if key in m && Expired(m[key], now) then m - {key} else m
  }

  /** `getAge(key)`: milliseconds since the entry was stored, for any stored entry,
      expired or not. */
  function Age<T>(m: Store<T>, key: string, now: int): (r: Option<int>)
    ensures r.Some? <==> key in m
    ensures r.Some? ==> r.value + m[key].timestamp == now
  {
    if key in m then Some(now - m[key].timestamp) else None
  }

  /** `getTimeUntilExpiry(key)`: milliseconds left before expiry, only when some are left. */
  function TimeUntilExpiry<T>(m: Store<T>, key: string, now: int): (r: Option<int>)
    ensures r.Some? <==> key in m && now < m[key].expiresAt
    ensures r.Some? ==> r.value > 0 && now + r.value == m[key].expiresAt
  {
    if key !in m then None
    else
      var remaining := m[key].expiresAt - now;
      if remaining > 0 then Some(remaining) else None
  }

  /** `ServerCache`: the map is the only state, and each method takes the current time. */
  class ServerCache<T> {
    var entries: Store<T>

    constructor ()
      ensures entries == map[]
    {
      entries := map[];
    }

    method Set(key: string, data: T, ttlMs: int, now: int)
      modifies this
      ensures entries == Stored(old(entries), key, data, ttlMs, now)
    {
      entries := entries[key := CacheEntry(data, now, now + ttlMs)];
    }

    /** `set(key, data)` with the TTL left to its default. */
    method SetWithDefaultTtl(key: string, data: T, now: int)
      modifies this
      ensures entries == Stored(old(entries), key, data, DefaultTtlMs, now)
    {
      Set(key, data, DefaultTtlMs, now);
    }

    method Get(key: string, now: int) returns (r: Option<T>)
      modifies this
      ensures r == Lookup(old(entries), key, now)
      ensures entries == AfterLookup(old(entries), key, now)
    {
      if key !in entries {
        return None;
      }
      var entry := entries[key];
      if now > entry.expiresAt {
        entries := entries - {key};
        return None;
      }
      r := Some(entry.data);
    }

    /** `has(key)` is `get(key) !== null`, eviction included. */
    method Has(key: string, now: int) returns (b: bool)
      modifies this
      ensures b <==> Lookup(old(entries), key, now).Some?
      ensures entries == AfterLookup(old(entries), key, now)
    {
      var r := Get(key, now);
      b := r.Some?;
    }

    method Delete(key: string)
      modifies this
      ensures entries == old(entries) - {key}
    {
      entries := entries - {key};
    }

    method Clear()
      modifies this
      ensures entries == map[]
    {
      entries := map[];
    }

    /** Diagnostics: reads the map and never evicts. */
    method GetAge(key: string, now: int) returns (r: Option<int>)
      ensures r == Age(entries, key, now)
    {
      if key !in entries {
        return None;
      }
      r := Some(now - entries[key].timestamp);
    }

    method GetTimeUntilExpiry(key: string, now: int) returns (r: Option<int>)
      ensures r == TimeUntilExpiry(entries, key, now)
    {
      if key !in entries {
        return None;
      }
      var remaining := entries[key].expiresAt - now;
      r := if remaining > 0 then Some(remaining) else None;
    }
  }

  /** A value stored at `t` with TTL `ttl` is returned by every read up to and including
      `t + ttl`, and such a read leaves the store as it was. */
  lemma SetThenGetFresh<T>(m: Store<T>, key: string, data: T, ttl: int, t: int, now: int)
    requires now <= t + ttl
    ensures Lookup(Stored(m, key, data, ttl, t), key, now) == Some(data)
    ensures AfterLookup(Stored(m, key, data, ttl, t), key, now) == Stored(m, key, data, ttl, t)
  {
  }

  /** A read after `t + ttl` returns nothing and evicts exactly that key. */
  lemma SetThenGetExpired<T>(m: Store<T>, key: string, data: T, ttl: int, t: int, now: int)
    requires now > t + ttl
    ensures Lookup(Stored(m, key, data, ttl, t), key, now) == None
    ensures AfterLookup(Stored(m, key, data, ttl, t), key, now) == m - {key}
  {
    assert Stored(m, key, data, ttl, t) - {key} == m - {key};
  }

  /** A second `set` on a key replaces data, timestamp and expiry: the later TTL governs. */
  lemma SecondSetWins<T>(m: Store<T>, key: string, d1: T, ttl1: int, t1: int, d2: T, ttl2: int, t2: int, now: int)
    ensures Stored(Stored(m, key, d1, ttl1, t1), key, d2, ttl2, t2) == Stored(m, key, d2, ttl2, t2)
    ensures now <= t2 + ttl2 ==> Lookup(Stored(Stored(m, key, d1, ttl1, t1), key, d2, ttl2, t2), key, now) == Some(d2)
    ensures now < t2 + ttl2 ==>
      TimeUntilExpiry(Stored(Stored(m, key, d1, ttl1, t1), key, d2, ttl2, t2), key, now) == Some(t2 + ttl2 - now)
  {
  }

  /** A read that misses on an expired entry removes it; a second read at the same time
      then misses again and changes nothing: reads are idempotent. */
  lemma LookupIdempotent<T>(m: Store<T>, key: string, now: int)
    ensures Lookup(AfterLookup(m, key, now), key, now) == Lookup(m, key, now)
    ensures AfterLookup(AfterLookup(m, key, now), key, now) == AfterLookup(m, key, now)
  {
  }

  /** The age of an entry is reported even after it expired, as long as no read evicted it. */
  lemma AgeOfExpiredEntry<T>(m: Store<T>, key: string, now: int)
    requires key in m && Expired(m[key], now)
    ensures Age(m, key, now) == Some(now - m[key].timestamp)
    ensures TimeUntilExpiry(m, key, now) == None
    ensures Lookup(m, key, now) == None && Age(AfterLookup(m, key, now), key, now) == None
  {
  }

  /** Freshly stored entries report an age of zero and the whole TTL as time left. */
  lemma FreshEntryDiagnostics<T>(m: Store<T>, key: string, data: T, ttl: int, now: int)
    requires ttl > 0
    ensures Age(Stored(m, key, data, ttl, now), key, now) == Some(0)
    ensures TimeUntilExpiry(Stored(m, key, data, ttl, now), key, now) == Some(ttl)
  {
  }

  /** Deleting a key removes it and only it. */
  lemma DeleteRemovesOnlyKey<T>(m: Store<T>, key: string, now: int)
    ensures Lookup(m - {key}, key, now) == None
    ensures forall k :: k != key ==> Lookup(m - {key}, k, now) == Lookup(m, k, now)
  {
  }
}

/**
 * The in-memory cache of agent responses, each entry stamped with the time it was stored and
 * valid for a fixed number of seconds (backend/config/cache.py). Clock readings are parameters.
 */
module Cache {
  import opened Basics

  /** A stored value with the clock reading at which it was stored. */
  datatype Stamped<V> = Stamped(value: V, storedAt: real)

  type Entries<V> = map<string, Stamped<V>>

  /** Five minutes, the lifetime of the service's shared cache. */
  const DefaultTtlSeconds: int := 300

  /** An entry is live while strictly less than `ttl` seconds have passed since it was stored. */
  predicate Live<V>(e: Stamped<V>, now: real, ttl: int) {
    now - e.storedAt < ttl as real
  }

  /** What `get` answers: the value of a live entry, otherwise nothing. */
  function Lookup<V>(entries: Entries<V>, key: string, now: real, ttl: int): (r: Option<V>)
    ensures r.Some? <==> key in entries && Live(entries[key], now, ttl)
    ensures r.Some? ==> r.value == entries[key].value
  {
    if key in entries && Live(entries[key], now, ttl) then Some(entries[key].value) else None
  }

  /** The entries after `get`: an expired entry for the key is dropped, nothing else changes. */
  function AfterLookup<V>(entries: Entries<V>, key: string, now: real, ttl: int): (m: Entries<V>)
    ensures key in entries && !Live(entries[key], now, ttl) ==> m == entries - {key} && |m| == |entries| - 1
    ensures !(key in entries && !Live(entries[key], now, ttl)) ==> m == entries
    ensures forall k :: k != key ==> (k in m <==> k in entries)
    ensures forall k :: k in m ==> k in entries && m[k] == entries[k]
  {
    if key in entries && !Live(entries[key], now, ttl) then entries - {key} else entries
  }

  class SimpleCache<V> {
    var entries: Entries<V>
    const ttl: int

    /** An empty cache whose entries live `ttlSeconds` seconds. */
    constructor(ttlSeconds: int)
      ensures entries == map[] && ttl == ttlSeconds
    {
      entries := map[];
      ttl := ttlSeconds;
    }

    /** `get`: the value stored under `key` if it is still live; an expired entry is removed. */
    method Get(key: string, now: real) returns (r: Option<V>)
      modifies this
      ensures r == Lookup(old(entries), key, now, ttl)
      ensures entries == AfterLookup(old(entries), key, now, ttl)
    {
      r := None;
      if key in entries {
        var e := entries[key];
        if now - e.storedAt < ttl as real {
          return Some(e.value);
        } else {
          entries := entries - {key};
        }
      }
    }

    /** `set`: stores `value` under `key`, stamped `now`, replacing any earlier entry. */
    method Set(key: string, value: V, now: real)
      modifies this
      ensures entries == old(entries)[key := Stamped(value, now)]
    {
      entries := entries[key := Stamped(value, now)];
    }

    /** `clear`: drops every entry. */
    method Clear()
      modifies this
      ensures entries == map[] && Size() == 0
    {
      entries := map[];
    }

    /** `size`: the number of entries, expired ones not yet looked up included. */
    function Size(): (n: nat)
      reads this
      ensures n == |entries.Keys|
    {
      |entries|
    }
  }

  /** A value read back before its lifetime is over is the value stored; exactly `ttl` seconds
      later it has expired. */
  lemma SetThenGet<V>(entries: Entries<V>, key: string, value: V, storedAt: real, now: real, ttl: int)
    ensures now - storedAt < ttl as real ==>
      Lookup(entries[key := Stamped(value, storedAt)], key, now, ttl) == Some(value)
    ensures now - storedAt >= ttl as real ==>
      Lookup(entries[key := Stamped(value, storedAt)], key, now, ttl) == None
    ensures Lookup(entries[key := Stamped(value, storedAt)], key, storedAt + ttl as real, ttl) == None
  {
  }

  /** Storing under one key changes no lookup of another. */
  lemma SetLeavesOthers<V>(entries: Entries<V>, key: string, other: string, value: V, storedAt: real, now: real, ttl: int)
    requires other != key
    ensures Lookup(entries[key := Stamped(value, storedAt)], other, now, ttl) == Lookup(entries, other, now, ttl)
  {
  }

  /** A lookup never refreshes an entry: looking up again later gives what a lookup on the
      original entries would give then. */
  lemma LookupDoesNotRefresh<V>(entries: Entries<V>, key: string, now: real, later: real, ttl: int)
    requires now <= later
    ensures Lookup(AfterLookup(entries, key, now, ttl), key, later, ttl) == Lookup(entries, key, later, ttl)
  {
  }

  /** Looking up twice at the same moment answers the same as looking up once. */
  lemma LookupIdempotent<V>(entries: Entries<V>, key: string, now: real, ttl: int)
    ensures Lookup(AfterLookup(entries, key, now, ttl), key, now, ttl) == Lookup(entries, key, now, ttl)
    ensures AfterLookup(AfterLookup(entries, key, now, ttl), key, now, ttl) == AfterLookup(entries, key, now, ttl)
  {
  }

  /** Set followed by Get on a cache object, within the lifetime, returns the value stored and
      leaves the other entries as they were. */
  method SetThenGetRoundTrip<V>(c: SimpleCache<V>, key: string, value: V, storedAt: real, now: real)
      returns (r: Option<V>)
    requires now - storedAt < c.ttl as real
    modifies c
    ensures r == Some(value)
    ensures c.entries == old(c.entries)[key := Stamped(value, storedAt)]
  {
    c.Set(key, value, storedAt);
    r := c.Get(key, now);
  }
}

/** The in-process result cache of the resolver layer: a string-keyed map of
    values stamped with the clock reading at which they were stored, valid
    for Ttl milliseconds and evicted lazily by the lookup that finds them
    stale. The clock (`Date.now()`) is the explicit parameter `now`. */
module Cache {
  import opened Wrappers

  /** Time-to-live of an entry, in milliseconds. */
  const Ttl: int := 60000

  datatype Entry<V> = Entry(value: V, timestamp: int)

  /** An entry observed at `now` is still valid. */
  predicate Fresh<V>(e: Entry<V>, now: int) {
    now - e.timestamp <= Ttl
  }

  /** What a lookup of `key` at `now` answers. */
  function Lookup<V>(entries: map<string, Entry<V>>, key: string, now: int): Option<V> {
    if key in entries && Fresh(entries[key], now) then Some(entries[key].value) else None
  }

  /** The map after a lookup of `key` at `now`: a stale entry under `key` is dropped. */
  function AfterLookup<V>(entries: map<string, Entry<V>>, key: string, now: int): map<string, Entry<V>> {
    if key in entries && !Fresh(entries[key], now) then entries - {key} else entries
  }

  /** A lookup touches nothing but `key`, and drops `key` exactly when it yields nothing. */
  lemma LookupFrame<V>(entries: map<string, Entry<V>>, key: string, now: int)
    ensures forall k :: k != key ==> (k in AfterLookup(entries, key, now) <==> k in entries)
    ensures forall k :: k != key && k in entries ==> AfterLookup(entries, key, now)[k] == entries[k]
    ensures key in AfterLookup(entries, key, now) <==> Lookup(entries, key, now).Some?
  {
  }

  /** A value stored at `t` is returned by every lookup up to Ttl later, and by none after. */
  lemma StoreThenLookup<V>(entries: map<string, Entry<V>>, key: string, v: V, t: int, now: int)
    ensures Lookup(entries[key := Entry(v, t)], key, now) == (if now - t <= Ttl then Some(v) else None)
  {
  }

  /** Lazy eviction is unobservable: once an entry is stale it stays stale, so
      any later lookup answers as if the entry were still there. */
  lemma EvictionUnobservable<V>(entries: map<string, Entry<V>>, key: string, now: int, later: int, k: string)
    requires now <= later
    ensures Lookup(AfterLookup(entries, key, now), k, later) == Lookup(entries, k, later)
  {
  }

  class ResultCache<V> {
    var entries: map<string, Entry<V>>

    constructor ()
      ensures entries == map[]
    {
      entries := map[];
    }

    /** `set(key, value)`: insert or overwrite, stamped with `now`. */
    method Set(key: string, value: V, now: int)
      modifies this
      ensures entries == old(entries)[key := Entry(value, now)]
    {
      entries := entries[key := Entry(value, now)];
    }

    /** `get(key)`: the stored value while fresh; a stale entry is removed and nothing returned. */
    method Get(key: string, now: int) returns (r: Option<V>)
      modifies this
      ensures r == Lookup(old(entries), key, now)
      ensures entries == AfterLookup(old(entries), key, now)
      ensures r.Some? <==> key in old(entries) && now - old(entries)[key].timestamp <= Ttl
      ensures r.Some? ==> r.value == old(entries)[key].value && entries == old(entries)
      ensures key in old(entries) && r.None? ==> entries == old(entries) - {key}
    {
      if key !in entries {
        return None;
      }
      var entry := entries[key];
      if now - entry.timestamp > Ttl {
        entries := entries - {key};
        return None;
      }
      return Some(entry.value);
    }

    /** `invalidate(key)`: drop one entry, if present. */
    method Invalidate(key: string)
      modifies this
      ensures entries == old(entries) - {key}
    {
      entries := entries - {key};
    }

    /** `invalidateAll()`: drop every entry. */
    method InvalidateAll()
      modifies this
      ensures entries == map[]
    {
      entries := map[];
    }
  }

  /** Invalidation of one key is idempotent and removes nothing else. */
  lemma InvalidateIdempotent<V>(entries: map<string, Entry<V>>, key: string)
    ensures (entries - {key}) - {key} == entries - {key}
    ensures forall k :: k != key && k in entries ==> k in entries - {key} && (entries - {key})[k] == entries[k]
  {
  }
}

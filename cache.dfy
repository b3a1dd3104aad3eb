/**
  The in-memory TTL store behind `userCache` (`CacheContainer` over `MemoryStorage`),
  as the plugin uses it: `setItem(key, value, { ttl })` and `getItem(key)`.
  The clock is an explicit `now`, in the same unit as the TTL.
*/
module Cache {
  import opened Wrappers

  /** A stored value with the time it was written and its time to live. */
  datatype Slot<V> = Slot(value: V, createdAt: int, ttl: int)

  type Slots<V> = map<string, Slot<V>>

  predicate Expired<V>(slot: Slot<V>, now: int)
  {
    now > slot.createdAt + slot.ttl
  }

  /** What `getItem` yields: the value of a live slot; a missing or expired one is absent. */
  function Get<V>(slots: Slots<V>, key: string, now: int): Option<V>
  {
    if key in slots && !Expired(slots[key], now) then Some(slots[key].value) else None
  }

  class MemoryCache<V> {
    var slots: Slots<V>

    constructor ()
      ensures slots == map[]
    {
      slots := map[];
    }

    /** `setItem`: replaces any entry under `key` wholesale and starts a new TTL window. */
    method SetItem(key: string, value: V, ttl: int, now: int)
      modifies this
      ensures slots == old(slots)[key := Slot(value, now, ttl)]
    {
      slots := slots[key := Slot(value, now, ttl)];
    }

    /** `getItem`: reading changes nothing. */
    method GetItem(key: string, now: int) returns (r: Option<V>)
      ensures r == Get(slots, key, now)
    {
      if key in slots && !Expired(slots[key], now) {
        r := Some(slots[key].value);
      } else {
        r := None;
      }
    }
  }

  /**
    The TTL window: a value written at `t` with time to live `ttl` is read back until
    `t + ttl` and is absent afterwards; the entries under other keys are untouched.
  */
  lemma TtlWindow<V>(slots: Slots<V>, key: string, value: V, t: int, ttl: int, other: string, now: int)
    requires other != key
    ensures Get(slots[key := Slot(value, t, ttl)], key, now) == (if now <= t + ttl then Some(value) else None)
    ensures Get(slots[key := Slot(value, t, ttl)], other, now) == Get(slots, other, now)
  {
  }
}

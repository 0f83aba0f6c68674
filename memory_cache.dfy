/**
 * The in-memory cache (internal/memorycache/memorycache.go): a map from keys to
 * (value, expiry) pairs with Get and Set, no eviction, and no error ever reported.
 */
module MemoryCache {
  import opened Wrappers
  import opened Clock

  /** One stored entry: the value and the expiry it was stored with. */
  datatype Item<V> = Item(val: V, expiry: Time)

  /**
   * What a cache Get answers: the value (None stands for Go's nil), its expiry and
   * an error. This is the shape of the coordinator's Cache interface too.
   */
  datatype GetReply<V> = GetReply(value: Option<V>, expiry: Time, err: Option<string>)

  /** The answer Get gives on the map `values`; the clock plays no part (no eviction). */
  function Lookup<K, V>(values: map<K, Item<V>>, key: K): GetReply<V>
  {
    if key in values then GetReply(Some(values[key].val), values[key].expiry, None)
    else GetReply(None, ZeroTime, None)
  }

  /** A never-set key answers a nil value, the zero time and no error. */
  lemma GetUnsetKey<K, V>(values: map<K, Item<V>>, key: K)
    requires key !in values
    ensures Lookup(values, key) == GetReply(None, ZeroTime, None)
  {
  }

  /** Set(k, v, e) followed by Get(k) gives back exactly (v, e, no error). */
  lemma SetThenGet<K, V>(values: map<K, Item<V>>, key: K, val: V, expiry: Time)
    ensures Lookup(values[key := Item(val, expiry)], key) == GetReply(Some(val), expiry, None)
  {
  }

  /** A second Set on the same key replaces the first value and expiry. */
  lemma SetTwiceLastWins<K, V>(values: map<K, Item<V>>, key: K, v1: V, e1: Time, v2: V, e2: Time)
    ensures values[key := Item(v1, e1)][key := Item(v2, e2)] == values[key := Item(v2, e2)]
    ensures Lookup(values[key := Item(v1, e1)][key := Item(v2, e2)], key) == GetReply(Some(v2), e2, None)
  {
  }

  /** Set on one key leaves what Get answers for every other key unchanged. */
  lemma SetLeavesOtherKeys<K, V>(values: map<K, Item<V>>, key: K, other: K, val: V, expiry: Time)
    requires other != key
    ensures Lookup(values[key := Item(val, expiry)], other) == Lookup(values, other)
  {
  }

  /** Get never reports an error, and it reports a value exactly when the key was set. */
  lemma GetNeverFails<K, V>(values: map<K, Item<V>>, key: K)
    ensures Lookup(values, key).err == None
    ensures Lookup(values, key).value.Some? <==> key in values
  {
  }

  /** The cache object: `values` is the map that Set writes in place and Get reads. */
  class MemoryCache<K(==), V> {
    var values: map<K, Item<V>>

    /** `New`: an empty cache. */
    constructor ()
      ensures values == map[]
    {
      values := map[];
    }

    /**
     * Get: the stored value and expiry, whatever the expiry (entries are never
     * evicted), or (nil, zero time) for an unset key; never an error. Changes nothing.
     */
    method Get(key: K) returns (val: Option<V>, expiry: Time, err: Option<string>)
      ensures key in values ==> val == Some(values[key].val) && expiry == values[key].expiry
      ensures key !in values ==> val == None && expiry == ZeroTime
      ensures err == None
    {
      if key in values {
        var entry := values[key];
        return Some(entry.val), entry.expiry, None;
      }
      return None, ZeroTime, None;
    }

    /** Set: store (val, expiry) under key, replacing any previous entry; never an error. */
    method Set(key: K, val: V, expiry: Time) returns (err: Option<string>)
      modifies this
      ensures values == old(values)[key := Item(val, expiry)]
      ensures err == None
    {
      values := values[key := Item(val, expiry)];
      err := None;
    }
  }
}

/** The response cache over its whole history: pkg/reqmgr/cache.go. */
module CacheTheorems {
  import opened Common
  import opened Transactions
  import opened Manager

  datatype Act = Put(key: Key, payload: Bytes, at: Time, ttl: nat) | Sweep(at: Time)

  function Do(cache: map<Key, CacheEntry>, a: Act): map<Key, CacheEntry> {
    match a
    case Put(key, payload, at, ttl) => CacheSet(cache, key, payload, at, ttl)
    case Sweep(at) => CacheSweep(cache, at)
  }

  function After(acts: seq<Act>): map<Key, CacheEntry> {
    if acts == [] then map[] else Do(After(acts[..|acts| - 1]), acts[|acts| - 1])
  }

  /** The latest entry made for `key`, found without looking at the cache. */
  function LastPut(acts: seq<Act>, key: Key): Option<Act> {
    if acts == [] then None
    else
      var last := acts[|acts| - 1];
      if last.Put? && last.key == key then Some(last) else LastPut(acts[..|acts| - 1], key)
  }

  /**
   * However insertions and sweeps interleave, a lookup returns the payload of the latest insertion under
   * its key while that has not expired, and nothing otherwise.
   */
  lemma {:induction false} LastSetWins(acts: seq<Act>, key: Key, now: Time)
    requires forall i :: 0 <= i < |acts| ==> acts[i].at <= now
    ensures var last := LastPut(acts, key);
            && (last.Some? ==> last.value in acts && last.value.Put? && last.value.key == key)
            && CacheGet(After(acts), key, now) ==
               if last.Some? && now < last.value.at + last.value.ttl then Some(last.value.payload) else None
  {
    if acts != [] {
      LastSetWins(acts[..|acts| - 1], key, now);
    }
  }
}

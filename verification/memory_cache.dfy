/**
 The in-process memory cache the report activity consults. Entries never expire
 in this model; a read of an absent key yields `null` (`Lookup`).
 */
module MemoryCache {
  import opened Wrappers

  type Cache = map<string, string>

  /** Cache write: last writer wins, every other key is left alone. */
  function Set(cache: Cache, key: string, value: string): (c: Cache)
    ensures c.Keys == cache.Keys + {key}
    ensures c[key] == value
    ensures forall k :: k in cache && k != key ==> c[k] == cache[k]
  {
    cache[key := value]
  }

  /** `IsNullOrEmpty` on the value read back from the cache. */
  predicate IsNullOrEmpty(v: Option<string>)
  {
    v.None? || v.value == ""
  }

  /** The keys whose read is neither `null` nor "": the ones that count as hits. */
  function FilledKeys(cache: Cache): (ks: set<string>)
    ensures forall k :: k in ks <==> !IsNullOrEmpty(Lookup(cache, k))
  {
    set k | k in cache && cache[k] != ""
  }
}

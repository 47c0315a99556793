/**
  The in-memory caches the middleware is given (ILoginMemoryCache and
  IMemoryCache<string, UserTheme>): a dictionary with TryGetValue and TryRemove.
  Expiry and sweeping are not part of this model.
 */
module Caching {
  import opened Wrappers

  class MemoryCache<K(==), V> {
    var entries: map<K, V>

    constructor (initial: map<K, V>)
      ensures entries == initial
    {
      entries := initial;
    }

    /** TryGetValue: the cached value when the key is present, and no change to the cache. */
    method TryGetValue(key: K) returns (found: Option<V>)
      ensures found.Some? <==> key in entries
      ensures found.Some? ==> found.value == entries[key]
    {
      if key in entries {
        found := Some(entries[key]);
      } else {
        found := None;
      }
    }

    /** TryRemove: removes the key if present (an absent key is not an error) and returns what was there. */
    method TryRemove(key: K) returns (removed: Option<V>)
      modifies this
      ensures entries == old(entries) - {key}
      ensures removed.Some? <==> key in old(entries)
      ensures removed.Some? ==> removed.value == old(entries)[key]
    {
      if key in entries {
        removed := Some(entries[key]);
      } else {
        removed := None;
      }
      entries := entries - {key};
    }
  }
}

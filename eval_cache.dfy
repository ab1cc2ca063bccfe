/**
 * The cache of parsed programs, keyed by expression text, in its two
 * policies: a map that keeps every program put into it, and a no-op cache
 * that keeps nothing.
 */
module Caching {
  import opened Common
  import opened Items

  datatype CacheItem = CacheItem(Items: seq<RPNItem>)

  /** What `Get` answers on a map: the program and true, or an empty program and false. */
  function Lookup(cache: map<Name, CacheItem>, key: Name): (r: (seq<RPNItem>, bool))
    ensures r.1 <==> key in cache
    ensures r.1 ==> r.0 == cache[key].Items
    ensures !r.1 ==> r.0 == []
  {
    if key in cache then (cache[key].Items, true) else ([], false)
  }

  class EvalMapCache {
    var cache: map<Name, CacheItem>

    constructor ()
      ensures cache == map[]
    {
      cache := map[];
    }

    /** Stores (or replaces) the program of `key`. */
    method Put(key: Name, items: seq<RPNItem>)
      modifies this
      ensures cache == old(cache)[key := CacheItem(items)]
    {
      cache := cache[key := CacheItem(items)];
    }

    method Get(key: Name) returns (items: seq<RPNItem>, found: bool)
      ensures (items, found) == Lookup(cache, key)
    {
      if key !in cache {
        return [], false;
      }
      return cache[key].Items, true;
    }
  }

  class EvalNoopCache {
    constructor ()
    {
    }

    /** Keeps nothing: it changes no state. */
    method Put(key: Name, items: seq<RPNItem>)
    {
    }

    method Get(key: Name) returns (items: seq<RPNItem>, found: bool)
      ensures !found && items == []
    {
      return [], false;
    }
  }

  /** Either cache policy, behind one interface. */
  datatype EvalCache = MapPolicy(m: EvalMapCache) | NoopPolicy(n: EvalNoopCache) {

    function Repr(): set<object> {
      if MapPolicy? then {m} else {n}
    }

    /** The programs the cache holds: the map's contents, or none. */
    ghost function Entries(): map<Name, seq<RPNItem>>
      reads Repr()
    {
      if MapPolicy? then map k | k in m.cache :: m.cache[k].Items else map[]
    }

    method Put(key: Name, items: seq<RPNItem>)
      modifies Repr()
      ensures MapPolicy? ==> Entries() == old(Entries())[key := items]
      ensures NoopPolicy? ==> Entries() == old(Entries()) == map[]
    {
      if MapPolicy? {
        m.Put(key, items);
      } else {
        n.Put(key, items);
      }
    }

    method Get(key: Name) returns (items: seq<RPNItem>, found: bool)
      ensures found <==> key in Entries()
      ensures found ==> items == Entries()[key]
    {
      if MapPolicy? {
        items, found := m.Get(key);
      } else {
        items, found := n.Get(key);
      }
    }
  }

  /** A `Get` after a `Put` of the same key finds what was put. */
  lemma GetAfterPut(cache: map<Name, CacheItem>, key: Name, items: seq<RPNItem>)
    ensures Lookup(cache[key := CacheItem(items)], key) == (items, true)
  {
  }

  /** The second `Put` on a key wins. */
  lemma LastPutWins(cache: map<Name, CacheItem>, key: Name, first: seq<RPNItem>, second: seq<RPNItem>)
    ensures cache[key := CacheItem(first)][key := CacheItem(second)] == cache[key := CacheItem(second)]
  {
  }

  /** A `Put` on one key leaves every other key's answer as it was. */
  lemma PutLeavesOtherKeys(cache: map<Name, CacheItem>, key: Name, other: Name, items: seq<RPNItem>)
    requires other != key
    ensures Lookup(cache[key := CacheItem(items)], other) == Lookup(cache, other)
  {
  }
}

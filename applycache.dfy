/** The apply trigger's plan cache: a hash table of prepared statements
    keyed by their query text, threaded on a doubly linked list from the
    least to the most recently used entry, with the count applyCacheUsed of
    plans prepared since the last flush. Here the hash table is a map and
    the list a sequence of keys; the ghost trace records the lookups since
    the last flush, and the class is proved to behave as the policy of
    module Lru on that trace. */
module ApplyCache {
  import Lru

  /** A prepared plan, identified by the query it was prepared from. */
  datatype Plan = Plan(query: string)

  /** A cache entry: the saved plan and whether this node forwards the
      table's set (whether the applied row is kept in the local log). */
  datatype CacheEntry = CacheEntry(plan: Plan, forward: bool)

  /** applyCacheSize. */
  const CacheSize: int := 100

  class Cache {
    var order: seq<Lru.Key>
    var entries: map<Lru.Key, CacheEntry>
    var used: int
    ghost var trace: seq<Lru.Key>

    ghost predicate Valid()
      reads this
    {
      && Lru.Run(trace, CacheSize) == Lru.LruState(order, used)
      && (forall k :: k in entries <==> k in order)
    }

    /** The state before the first call: no list, no entries. */
    constructor ()
      ensures Valid() && trace == []
      ensures order == [] && entries == map[] && used == 0
    {
      order := [];
      entries := map[];
      used := 0;
      trace := [];
    }

    /** The per-transaction flush: every plan is freed, the list emptied,
        the count reset and the hash table recreated empty. */
    method Flush()
      modifies this
      ensures Valid() && trace == []
      ensures order == [] && entries == map[] && used == 0
    {
      order := [];
      entries := map[];
      used := 0;
      trace := [];
    }

    /** The hash probe for a query. On a hit the entry is moved to the
        tail of the list (unless it is there already); on a miss nothing
        changes. */
    method Probe(key: Lru.Key) returns (hit: bool, entry: CacheEntry)
      requires Valid()
      modifies this
      ensures Valid()
      ensures hit <==> key in old(entries)
      ensures hit ==> entry == old(entries)[key] && entries == old(entries)
      ensures hit ==> trace == old(trace) + [key]
      ensures hit ==> Lru.LruState(order, used) == Lru.Step(Lru.LruState(old(order), old(used)), key, CacheSize)
      ensures !hit ==> order == old(order) && entries == old(entries) && used == old(used) && trace == old(trace)
    {
      if key !in entries {
        hit, entry := false, CacheEntry(Plan(key), false);
        return;
      }
      hit, entry := true, entries[key];
      Lru.RunShape(trace, CacheSize);
      if order[|order| - 1] != key {
        order := Lru.Remove(order, key) + [key];
      } else {
        Lru.RemoveLast(order, key);
      }
      Lru.RunSnoc(trace, key, CacheSize);
      trace := trace + [key];
    }

    /** A miss: the freshly prepared plan is appended at the tail and
        counted; when the count then exceeds the cache size the head of the
        list is evicted from the list and the hash table. The count is not
        decremented on eviction. */
    method Insert(key: Lru.Key, entry: CacheEntry)
      requires Valid() && key !in entries
      modifies this
      ensures Valid()
      ensures trace == old(trace) + [key]
      ensures Lru.LruState(order, used) == Lru.Step(Lru.LruState(old(order), old(used)), key, CacheSize)
      ensures key in entries && entries[key] == entry
      ensures used > CacheSize ==> |old(order)| > 0 && entries == old(entries)[key := entry] - {old(order)[0]}
      ensures used <= CacheSize ==> entries == old(entries)[key := entry]
    {
      Lru.RunShape(trace, CacheSize);
      InsertKeys(order, entries, key, entry);
      order := order + [key];
      entries := entries[key := entry];
      used := used + 1;
      if used > CacheSize {
        var evict := order[0];
        order := order[1..];
        entries := entries - {evict};
      }
      Lru.RunSnoc(trace, key, CacheSize);
      trace := trace + [key];
    }
  }

  /** The hash table and the list hold the same keys after an insertion,
      with or without the eviction of the list's head. */
  lemma InsertKeys(order: seq<Lru.Key>, entries: map<Lru.Key, CacheEntry>, key: Lru.Key, entry: CacheEntry)
    requires forall k :: k in entries <==> k in order
    requires key !in order && Lru.Distinct(order)
    ensures forall k :: k in entries[key := entry] <==> k in order + [key]
    ensures |order| > 0 ==> forall k :: k in entries[key := entry] - {order[0]} <==> k in (order + [key])[1..]
  {
    if |order| > 0 {
      Lru.DropHead(order, key);
    }
  }
}

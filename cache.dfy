/**
 * The in-memory LRU cache (backend/storage/cache.py). The `OrderedDict` is a key order, least
 * recently used first, beside a map from key to entry. Time is the integer clock `now`.
 */
module Cache {
  import opened Wrappers
  import Seqs

  /** A cached value, when it was stored, its optional time to live, and its use. */
  datatype Entry = Entry(value: string, createdAt: int, ttl: Option<int>, accessCount: nat, lastAccessed: int) {
    /** `is_expired`: never without a ttl; otherwise once strictly more than `ttl` has passed. */
    predicate IsExpired(now: int) {
      ttl.Some? && now - createdAt > ttl.value
    }

    /** `access`: one more use, at `now`. */
    function Access(now: int): (r: Entry)
      ensures r.value == value && r.createdAt == createdAt && r.ttl == ttl
      ensures r.accessCount == accessCount + 1 && r.lastAccessed == now
      ensures forall t :: r.IsExpired(t) == IsExpired(t)
    {
      this.(accessCount := accessCount + 1, lastAccessed := now)
    }
  }

  /** `CacheEntry(value, ttl)` created at `now`. */
  function NewEntry(value: string, ttl: Option<int>, now: int): (r: Entry)
    ensures r.value == value && r.ttl == ttl && r.accessCount == 0
    ensures !r.IsExpired(now) <==> (ttl.None? || ttl.value >= 0)
  {
    Entry(value, now, ttl, 0, now)
  }

  /** Once expired, an entry stays expired: the clock only adds to its age. */
  lemma ExpiryMonotone(e: Entry, now: int, later: int)
    requires now <= later && e.IsExpired(now)
    ensures e.IsExpired(later)
  {
  }

  /** An entry without a ttl never expires. */
  lemma NoTtlNeverExpires(e: Entry, now: int)
    requires e.ttl.None?
    ensures !e.IsExpired(now)
  {
  }

  /** The keys of `order` whose entries are expired at `now`, in order (the comprehension of `cleanup_expired`). */
  function ExpiredKeys(order: seq<string>, entries: map<string, Entry>, now: int): (r: seq<string>)
    requires forall k :: k in order ==> k in entries
    ensures forall k :: k in r <==> k in order && entries[k].IsExpired(now)
  {
    if order == [] then []
    else (if entries[order[0]].IsExpired(now) then [order[0]] else []) + ExpiredKeys(order[1..], entries, now)
  }

  /** `len(cache)` stays at most `max_size` (and at 0 when `max_size` is not positive). */
  function Bound(maxSize: int): nat {
    if maxSize > 0 then maxSize else 0
  }

  /** Dropping a key keeps an exact listing exact and within its bound; an absent key is no change. */
  lemma Dropped(order: seq<string>, entries: map<string, Entry>, key: string, bound: nat)
    requires Seqs.Lists(order, entries.Keys) && |order| <= bound
    ensures Seqs.Lists(Seqs.Without(order, key), (entries - {key}).Keys)
    ensures |Seqs.Without(order, key)| <= bound
    ensures key !in entries ==> Seqs.Without(order, key) == order && entries - {key} == entries
    ensures key in entries ==> |Seqs.Without(order, key)| == |order| - 1
  {
    Seqs.WithoutLists(order, entries.Keys, key);
    Seqs.ListsLength(order, entries.Keys);
    Seqs.ListsLength(Seqs.Without(order, key), entries.Keys - {key});
    if key !in entries {
      Seqs.WithoutAbsent(order, key);
    }
  }

  /** Appending a new key below the bound keeps the listing exact and within the bound. */
  lemma Appended(order: seq<string>, entries: map<string, Entry>, key: string, e: Entry, bound: nat)
    requires Seqs.Lists(order, entries.Keys) && key !in entries && |order| < bound
    ensures Seqs.Lists(order + [key], entries[key := e].Keys) && |order + [key]| <= bound
  {
    Seqs.AppendLists(order, entries.Keys, key);
  }

  /** Evicting the front key keeps the listing exact, one shorter. */
  lemma Evicted(order: seq<string>, entries: map<string, Entry>)
    requires Seqs.Lists(order, entries.Keys) && order != []
    ensures Seqs.Lists(order[1..], (entries - {order[0]}).Keys)
  {
    assert forall k :: k in order[1..] <==> k in order && k != order[0];
  }

  /** The keys whose entries are expired at `now`. */
  function Expired(entries: map<string, Entry>, now: int): set<string> {
    set k | k in entries && entries[k].IsExpired(now)
  }

  /** After deleting the expired keys in turn, what is left is exact, within the bound and all live. */
  lemma Swept(order: seq<string>, entries: map<string, Entry>, now: int, bound: nat)
    requires Seqs.Lists(order, entries.Keys) && |order| <= bound
    ensures Seqs.Elems(ExpiredKeys(order, entries, now)) == Expired(entries, now)
    ensures Seqs.Lists(Seqs.Kept(order, Expired(entries, now)), (entries - Expired(entries, now)).Keys)
    ensures |Seqs.Kept(order, Expired(entries, now))| <= bound
    ensures forall k :: k in entries - Expired(entries, now) ==> !entries[k].IsExpired(now)
  {
    Seqs.KeptLists(order, entries.Keys, Expired(entries, now));
  }

  /** Before the first deletion nothing is gone. */
  lemma SweepStart(order: seq<string>, entries: map<string, Entry>, keys: seq<string>)
    ensures entries == entries - Seqs.Elems(keys[..0]) && order == Seqs.Kept(order, Seqs.Elems(keys[..0]))
  {
    assert Seqs.Elems(keys[..0]) == {};
    Seqs.KeptNothing(order);
  }

  /** Deleting the next listed key extends the deleted prefix by one. */
  lemma SweepStep(order: seq<string>, entries: map<string, Entry>, keys: seq<string>, i: nat)
    requires i < |keys|
    ensures Seqs.Without(Seqs.Kept(order, Seqs.Elems(keys[..i])), keys[i]) == Seqs.Kept(order, Seqs.Elems(keys[..i + 1]))
    ensures (entries - Seqs.Elems(keys[..i])) - {keys[i]} == entries - Seqs.Elems(keys[..i + 1])
  {
    Seqs.PrefixElemsStep(keys, i);
    Seqs.KeptWithout(order, Seqs.Elems(keys[..i]), keys[i]);
  }

  class LRUCache {
    const maxSize: int
    /** The keys, least recently used first. */
    var order: seq<string>
    var entries: map<string, Entry>
    var hits: nat
    var misses: nat

    /** The order lists each key once, and the size bound holds. */
    ghost predicate Valid()
      reads this
    {
      Seqs.Lists(order, entries.Keys) && |order| <= Bound(maxSize)
    }

    /** `__init__` */
    constructor (maxSize: int)
      ensures Valid() && this.maxSize == maxSize
      ensures order == [] && entries == map[] && hits == 0 && misses == 0
    {
      this.maxSize := maxSize;
      order := [];
      entries := map[];
      hits := 0;
      misses := 0;
    }

    /**
     * `get`: a live entry is a hit (returned, used, moved to the most recent end); a missing key is
     * a miss; an expired entry is a miss and is deleted.
     */
    method Get(key: string, now: int) returns (r: Option<string>)
      requires Valid()
      modifies this
      ensures Valid()
      ensures key in old(entries) && !old(entries[key]).IsExpired(now) ==>
        && r == Some(old(entries[key]).value)
        && entries == old(entries)[key := old(entries[key]).Access(now)]
        && order == Seqs.Without(old(order), key) + [key]
        && hits == old(hits) + 1 && misses == old(misses)
      ensures !(key in old(entries) && !old(entries[key]).IsExpired(now)) ==>
        && r == None
        && entries == old(entries) - {key}
        && order == Seqs.Without(old(order), key)
        && (key !in old(entries) ==> order == old(order))
        && misses == old(misses) + 1 && hits == old(hits)
    {
      Dropped(order, entries, key, Bound(maxSize));
      if key in entries {
        var entry := entries[key];
        if entry.IsExpired(now) {
          entries := entries - {key};
          order := Seqs.Without(order, key);
          misses := misses + 1;
          return None;
        }
        Appended(Seqs.Without(order, key), entries - {key}, key, entry.Access(now), Bound(maxSize));
        assert (entries - {key})[key := entry.Access(now)] == entries[key := entry.Access(now)];
        entries := entries[key := entry.Access(now)];
        order := Seqs.Without(order, key) + [key];
        hits := hits + 1;
        return Some(entry.value);
      }
      misses := misses + 1;
      r := None;
    }

    /**
     * `set`: an old entry for `key` is dropped first; then, when the cache is at `max_size`, the
     * least recently used entry is evicted (`popitem(last=False)`, which raises `KeyError` on an
     * empty cache, reported as `raised`), and the new entry goes to the most recent end.
     */
    method Set(key: string, value: string, ttl: Option<int>, now: int) returns (raised: bool)
      requires Valid()
      modifies this`order, this`entries
      ensures Valid()
      ensures raised <==> maxSize <= 0
      ensures raised ==> entries == old(entries) - {key} && order == Seqs.Without(old(order), key)
      ensures !raised && (key in old(entries) || |old(order)| < maxSize) ==>
        && order == Seqs.Without(old(order), key) + [key]
        && entries == old(entries)[key := NewEntry(value, ttl, now)]
      ensures !raised && key !in old(entries) && |old(order)| >= maxSize ==>
        && old(order) != []
        && order == old(order)[1..] + [key]
        && entries == (old(entries) - {old(order)[0]})[key := NewEntry(value, ttl, now)]
    {
      Dropped(order, entries, key, Bound(maxSize));
      var rest := Seqs.Without(order, key);
      var live := entries - {key};
      var entry := NewEntry(value, ttl, now);
      if |rest| >= maxSize {
        if rest == [] {
          entries, order := live, rest;
          return true;
        }
        var lru := rest[0];
        Evicted(rest, live);
        Appended(rest[1..], live - {lru}, key, entry, Bound(maxSize));
        entries := (live - {lru})[key := entry];
        order := rest[1..] + [key];
        return false;
      }
      Appended(rest, live, key, entry, Bound(maxSize));
      assert live[key := entry] == entries[key := entry];
      entries := entries[key := entry];
      order := rest + [key];
      raised := false;
    }

    /** `delete`: the key's entry goes; an absent key changes nothing. */
    method Delete(key: string)
      requires Valid()
      modifies this`order, this`entries
      ensures Valid()
      ensures entries == old(entries) - {key} && order == Seqs.Without(old(order), key)
      ensures key !in old(entries) ==> entries == old(entries) && order == old(order)
    {
      Dropped(order, entries, key, Bound(maxSize));
      if key in entries {
        entries := entries - {key};
        order := Seqs.Without(order, key);
      }
    }

    /** `clear`: no entries and both counters back to zero. */
    method Clear()
      modifies this
      ensures Valid()
      ensures order == [] && entries == map[] && hits == 0 && misses == 0
    {
      order := [];
      entries := map[];
      hits := 0;
      misses := 0;
    }

    /** `cleanup_expired`: exactly the expired entries go; the rest keep their values and order. */
    method CleanupExpired(now: int)
      requires Valid()
      modifies this`order, this`entries
      ensures Valid()
      ensures entries == old(entries) - Expired(old(entries), now)
      ensures order == Seqs.Kept(old(order), Expired(old(entries), now))
      ensures forall k :: k in entries ==> !entries[k].IsExpired(now)
    {
      var expired := ExpiredKeys(order, entries, now);
      Swept(order, entries, now, Bound(maxSize));
      DeleteAll(expired);
    }

    /** The `for key in expired_keys: del self.cache[key]` loop. */
    method DeleteAll(keys: seq<string>)
      modifies this`order, this`entries
      ensures entries == old(entries) - Seqs.Elems(keys)
      ensures order == Seqs.Kept(old(order), Seqs.Elems(keys))
    {
      SweepStart(order, entries, keys);
      var i := 0;
      while i < |keys|
        invariant 0 <= i <= |keys|
        invariant entries == old(entries) - Seqs.Elems(keys[..i])
        invariant order == Seqs.Kept(old(order), Seqs.Elems(keys[..i]))
      {
        SweepStep(old(order), old(entries), keys, i);
        entries := entries - {keys[i]};
        order := Seqs.Without(order, keys[i]);
        i := i + 1;
      }
      assert keys[..i] == keys;
    }

    /** `len(cache)` */
    function Size(): (r: nat)
      reads this
      requires Valid()
      ensures r == |entries| && r <= Bound(maxSize)
    {
      Seqs.ListsLength(order, entries.Keys);
      |order|
    }
  }
}

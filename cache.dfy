/** The response cache: analyses keyed by a digest of the text and the session, valid
    for a fixed time, with oldest-first eviction at capacity and hit/miss counters. */
module Cache {
  import opened Util

  /** The text the cache key is the digest of. */
  function KeyText(text: string, sessionId: string): (r: string)
    ensures |r| == |text| + 1 + |sessionId| && r[|text|] == ':'
  {
    text + ":" + sessionId
  }

  /** The key is not injective in the pair: a colon may belong to either side. */
  lemma KeyTextAmbiguous()
    ensures KeyText("a:b", "c") == KeyText("a", "b:c")
  {
  }

  datatype Stats = Stats(size: nat, maxSize: int, hits: nat, misses: nat, hitRate: real, ttlSeconds: int)

  /** `hits / (hits + misses)`, or 0 before any lookup. */
  function HitRate(hits: nat, misses: nat): (r: real)
    ensures 0.0 <= r <= 1.0
    ensures hits + misses == 0 ==> r == 0.0
    ensures r == 1.0 <==> hits > 0 && misses == 0
    ensures r == 0.0 <==> hits == 0
  {
    if hits + misses > 0 then hits as real / (hits + misses) as real else 0.0
  }

  class ResponseCache<V> {
    const ttl: int
    const maxSize: int
    /** `hashlib.sha256(...).hexdigest()` */
    const digest: string -> string
    /** key -> (entry, time stored) */
    var cache: map<string, (V, real)>
    var hits: nat
    var misses: nat

    /** The cache never holds more entries than its capacity. */
    predicate Valid()
      reads this
    {
      1 <= maxSize && |cache| <= maxSize
    }

    /** `_get_key`: the digest of the key text, so two pairs with the same key text
        share their entry. */
    function Key(text: string, sessionId: string): string
      reads this
    {
      digest(KeyText(text, sessionId))
    }

    /** Whether an entry stored at `stored` is still fresh at `now`. */
    predicate Fresh(stored: real, now: real)
      reads this
    {
      now - stored < ttl as real
    }

    constructor (ttlSeconds: int, maxSize: int, digest: string -> string)
      requires maxSize >= 1
      ensures Valid()
      ensures ttl == ttlSeconds && this.maxSize == maxSize && this.digest == digest
      ensures cache == map[] && hits == 0 && misses == 0
    {
      ttl := ttlSeconds;
      this.maxSize := maxSize;
      this.digest := digest;
      cache := map[];
      hits, misses := 0, 0;
    }

    /** `get`: a hit exactly when the key is present and fresh, returning its entry; a
        stale entry is deleted; exactly one counter goes up. */
    method Get(text: string, sessionId: string, now: real) returns (r: Option<V>)
      requires Valid()
      modifies this
      ensures Valid()
      ensures var k := Key(text, sessionId);
        && (r.Some? <==> k in old(cache) && Fresh(old(cache)[k].1, now))
        && (r.Some? ==> r.value == old(cache)[k].0 && cache == old(cache)
                          && hits == old(hits) + 1 && misses == old(misses))
        && (r.None? ==> cache == old(cache) - {k} && hits == old(hits) && misses == old(misses) + 1)
    {
      var k := Key(text, sessionId);
      if k in cache {
        var (entry, timestamp) := cache[k];
        if Fresh(timestamp, now) {
          hits := hits + 1;
          return Some(entry);
        }
        cache := cache - {k};
      }
      misses := misses + 1;
      return None;
    }

    /** The key of an entry with the smallest timestamp. */
    method OldestKey() returns (k: string)
      requires cache != map[]
      ensures k in cache
      ensures forall j :: j in cache ==> cache[k].1 <= cache[j].1
    {
      var keys := cache.Keys;
      k :| k in keys;
      keys := keys - {k};
      while keys != {}
        invariant keys <= cache.Keys && k in cache
        invariant forall j :: j in cache && j !in keys ==> cache[k].1 <= cache[j].1
        decreases |keys|
      {
        var j :| j in keys;
        if cache[j].1 < cache[k].1 {
          k := j;
        }
        keys := keys - {j};
      }
    }

    /** `set`: at capacity an oldest entry is evicted first (even when the key is already
        present), then the result is stored with the current time. */
    method Set(text: string, sessionId: string, result: V, now: real)
      requires Valid()
      modifies this
      ensures Valid() && hits == old(hits) && misses == old(misses)
      ensures var k := Key(text, sessionId);
        && (|old(cache)| < maxSize ==> cache == old(cache)[k := (result, now)])
        && (|old(cache)| >= maxSize ==>
              exists o :: o in old(cache)
                && (forall j :: j in old(cache) ==> old(cache)[o].1 <= old(cache)[j].1)
                && cache == (old(cache) - {o})[k := (result, now)])
    {
      if |cache| >= maxSize {
        var o := OldestKey();
        cache := cache - {o};
      }
      cache := cache[Key(text, sessionId) := (result, now)];
    }

    /** `clear` */
    method Clear()
      modifies this
      ensures cache == map[] && hits == 0 && misses == 0
      ensures Valid() <==> 1 <= maxSize
    {
      cache := map[];
      hits, misses := 0, 0;
    }

    /** `stats` */
    method GetStats() returns (s: Stats)
      ensures s == Stats(|cache|, maxSize, hits, misses, HitRate(hits, misses), ttl)
    {
      var total := hits + misses;
      var rate := if total > 0 then hits as real / total as real else 0.0;
      s := Stats(|cache|, maxSize, hits, misses, rate, ttl);
    }
  }
}

/** `cache.py`: an in-memory key/value cache whose entries expire a fixed number
    of seconds after they were stored, and the three specialised caches built on
    it (prediction results, statistics, paginated history).

    The clock is a parameter: every operation that reads `datetime.now()` in the
    source takes `now`, an instant in whole microseconds. TTLs are whole seconds.
    An entry is expired when its age is strictly greater than its TTL. */
module Cache {
  import opened Basics

  const MicrosPerSecond: int := 1_000_000

  datatype Entry<V> = Entry(value: V, createdAt: int, ttl: int)

  /** `age > entry['ttl']`, with the age measured at `now`. */
  predicate Expired<V>(e: Entry<V>, now: int)
  {
    now - e.createdAt > e.ttl * MicrosPerSecond
  }

  /** Keys of `entries` that `sel` picks out. */
  function Selected<V>(entries: map<string, Entry<V>>, sel: (string, Entry<V>) -> bool): set<string>
  {
    set k | k in entries && sel(k, entries[k])
  }

  /** The keys whose entries have expired at `now`. */
  function ExpiredKeys<V>(entries: map<string, Entry<V>>, now: int): (s: set<string>)
    ensures forall k :: k in s <==> k in entries && Expired(entries[k], now)
  {
    set k | k in entries && Expired(entries[k], now)
  }

  /** The keys that start with `prefix`. */
  function PrefixedKeys<V>(entries: map<string, Entry<V>>, prefix: string): (s: set<string>)
    ensures forall k :: k in s <==> k in entries && StartsWith(k, prefix)
  {
    set k | k in entries && StartsWith(k, prefix)
  }

  /** What `get_stats` reports; the hit rate is a percentage, kept unrounded. */
  datatype CacheStats = CacheStats(size: nat, hits: nat, misses: nat, totalRequests: nat,
                                   hitRate: real, ttlSeconds: int)

  /** `CacheManager` (the first class of that name in `cache.py`). */
  class CacheManager<V> {
    var entries: map<string, Entry<V>>
    const defaultTtl: int
    var hitCount: nat
    var missCount: nat

    constructor (defaultTtlSeconds: int)
      ensures entries == map[] && defaultTtl == defaultTtlSeconds
      ensures hitCount == 0 && missCount == 0
    {
      entries := map[];
      defaultTtl := defaultTtlSeconds;
      hitCount := 0;
      missCount := 0;
    }

    /** `set`: stores the value stamped with `now`, replacing any old entry. */
    method Set(key: string, value: V, ttl: Option<int>, now: int)
      modifies this
      ensures entries == old(entries)[key := Entry(value, now, if ttl.Some? then ttl.value else defaultTtl)]
      ensures hitCount == old(hitCount) && missCount == old(missCount)
    {
      var t := if ttl.None? then defaultTtl else ttl.value;
      entries := entries[key := Entry(value, now, t)];
    }

    /** `get`: a miss for an absent key; a miss that also drops the entry when it
        has expired; otherwise a hit that returns the stored value. */
    method Get(key: string, now: int) returns (r: Option<V>)
      modifies this
      ensures key !in old(entries) ==>
        r == None && entries == old(entries) && missCount == old(missCount) + 1 && hitCount == old(hitCount)
      ensures key in old(entries) && Expired(old(entries)[key], now) ==>
        r == None && entries == old(entries) - {key} && missCount == old(missCount) + 1 && hitCount == old(hitCount)
      ensures key in old(entries) && !Expired(old(entries)[key], now) ==>
        r == Some(old(entries)[key].value) && entries == old(entries) &&
        hitCount == old(hitCount) + 1 && missCount == old(missCount)
    {
      if key !in entries {
        missCount := missCount + 1;
        return None;
      }
      var entry := entries[key];
      if now - entry.createdAt > entry.ttl * MicrosPerSecond {
        entries := entries - {key};
        missCount := missCount + 1;
        return None;
      }
      hitCount := hitCount + 1;
      r := Some(entry.value);
    }

    /** `delete`: true exactly when the key was present; only that key goes. */
    method Delete(key: string) returns (deleted: bool)
      modifies this
      ensures deleted <==> key in old(entries)
      ensures entries == old(entries) - {key}
      ensures hitCount == old(hitCount) && missCount == old(missCount)
    {
      if key in entries {
        entries := entries - {key};
        return true;
      }
      return false;
    }

    /** `clear`: empties the cache and keeps the hit and miss counters. */
    method Clear()
      modifies this
      ensures entries == map[]
      ensures hitCount == old(hitCount) && missCount == old(missCount)
    {
      entries := map[];
    }

    /** The first loop of `cleanup_expired` and the list comprehension of
        `invalidate_history`: every key the selector picks, each once. */
    method KeysWhere(sel: (string, Entry<V>) -> bool) returns (keys: seq<string>)
      ensures Distinct(keys)
      ensures forall k :: k in keys <==> k in Selected(entries, sel)
    {
      var remaining := entries.Keys;
      keys := [];
      while remaining != {}
        invariant remaining <= entries.Keys
        invariant Distinct(keys)
        invariant forall k :: k in keys ==> k !in remaining
        invariant forall k :: k in keys <==> k in entries && k !in remaining && sel(k, entries[k])
        decreases |remaining|
      {
        var k :| k in remaining;
        if sel(k, entries[k]) {
          keys := keys + [k];
        }
        remaining := remaining - {k};
      }
    }

    /** The second loop of `cleanup_expired` and of `invalidate_history`:
        delete each listed key in turn. */
    method DeleteAll(keys: seq<string>)
      modifies this
      ensures entries == old(entries) - Elems(keys)
      ensures hitCount == old(hitCount) && missCount == old(missCount)
    {
      var i := 0;
      while i < |keys|
        invariant 0 <= i <= |keys|
        invariant entries == old(entries) - Elems(keys[..i])
        invariant hitCount == old(hitCount) && missCount == old(missCount)
      {
        var _ := Delete(keys[i]);
        assert Elems(keys[..i + 1]) == Elems(keys[..i]) + {keys[i]};
        i := i + 1;
      }
      assert keys[..i] == keys;
    }

    /** `cleanup_expired`: removes exactly the entries that have expired at
        `now`, keeps every other entry as it was, and returns how many went. */
    method CleanupExpired(now: int) returns (count: nat)
      modifies this
      ensures entries == old(entries) - ExpiredKeys(old(entries), now)
      ensures forall k :: k in entries <==> k in old(entries) && !Expired(old(entries)[k], now)
      ensures count == |ExpiredKeys(old(entries), now)|
      ensures hitCount == old(hitCount) && missCount == old(missCount)
    {
      var expired := KeysWhere((k: string, e: Entry<V>) => Expired(e, now));
      assert Elems(expired) == ExpiredKeys(entries, now);
      DistinctCard(expired);
      DeleteAll(expired);
      count := |expired|;
    }

    /** Deletes every key that starts with `prefix` and returns how many there
        were; the shape shared by `invalidate_history` and the statistics half
        of `invalidate_dependent_caches`. */
    method DeletePrefixed(prefix: string) returns (count: nat)
      modifies this
      ensures entries == old(entries) - PrefixedKeys(old(entries), prefix)
      ensures forall k :: k in entries <==> k in old(entries) && !StartsWith(k, prefix)
      ensures count == |PrefixedKeys(old(entries), prefix)|
      ensures hitCount == old(hitCount) && missCount == old(missCount)
    {
      var doomed := KeysWhere((k: string, e: Entry<V>) => StartsWith(k, prefix));
      assert Elems(doomed) == PrefixedKeys(entries, prefix);
      DistinctCard(doomed);
      DeleteAll(doomed);
      count := |doomed|;
    }

    /** `get_stats`: the total is hits plus misses, the size is the number of
        stored entries (expired ones included until swept), and the hit rate is
        a percentage that is 0 before the first request. */
    function Stats(): (s: CacheStats)
      reads this
      ensures s.size == |entries| && s.hits == hitCount && s.misses == missCount
      ensures s.totalRequests == hitCount + missCount
      ensures s.totalRequests == 0 ==> s.hitRate == 0.0
      ensures 0.0 <= s.hitRate <= 100.0
      ensures s.hitRate == 100.0 <==> s.totalRequests > 0 && missCount == 0
      ensures s.ttlSeconds == defaultTtl
    {
      var total := hitCount + missCount;
      if total > 0 then
        FractionBounds(hitCount as real, total as real);
        CacheStats(|entries|, hitCount, missCount, total, hitCount as real / total as real * 100.0, defaultTtl)
      else
        CacheStats(|entries|, hitCount, missCount, total, 0.0, defaultTtl)
    }
  }

  /** A part of a positive whole is a fraction in [0, 1], and 1 exactly when
      it is the whole. */
  lemma FractionBounds(part: real, whole: real)
    requires 0.0 <= part <= whole && whole > 0.0
    ensures 0.0 <= part / whole <= 1.0
    ensures part / whole == 1.0 <==> part == whole
  {
    var q := part / whole;
    assert q * whole == part;
    assert q > 1.0 ==> q * whole > 1.0 * whole;
    assert q < 0.0 ==> q * whole < 0.0;
  }

  // ---------------------------------------------------------------------------
  // The specialised caches
  // ---------------------------------------------------------------------------

  /** The eleven model inputs, in the order `generate_key` lists them. */
  datatype PredictionInputs = PredictionInputs(
    age: int, gender: int, height: int, weight: int, apHi: int, apLo: int,
    cholesterol: int, gluc: int, smoke: int, alco: int, active: int)

  function InputFields(x: PredictionInputs): seq<int>
  {
    [x.age, x.gender, x.height, x.weight, x.apHi, x.apLo, x.cholesterol, x.gluc, x.smoke, x.alco, x.active]
  }

  function Render(fields: seq<int>): (parts: seq<string>)
    ensures |parts| == |fields|
    ensures forall i :: 0 <= i < |fields| ==> parts[i] == IntToString(fields[i])
  {
    if fields == [] then [] else [IntToString(fields[0])] + Render(fields[1..])
  }

  /** The text `generate_key` hashes: the inputs joined by `-`. */
  function KeyText(x: PredictionInputs): string
  {
    Join("-", Render(InputFields(x)))
  }

  lemma NatStringHasNoMinus(n: int)
    requires n >= 0
    ensures '-' !in IntToString(n)
  {
    assert IsDigits(IntToString(n));
  }

  /** Two lists of non-negative integers of the same length that render to the
      same `-`-joined text are equal. */
  lemma {:induction false} JoinedNaturalsInjective(a: seq<int>, b: seq<int>)
    requires |a| == |b|
    requires forall i :: 0 <= i < |a| ==> a[i] >= 0
    requires forall i :: 0 <= i < |b| ==> b[i] >= 0
    requires Join("-", Render(a)) == Join("-", Render(b))
    ensures a == b
  {
    if |a| == 1 {
      IntToStringInjective(a[0], b[0]);
    } else if |a| > 1 {
      var ha, ta := IntToString(a[0]), Join("-", Render(a[1..]));
      var hb, tb := IntToString(b[0]), Join("-", Render(b[1..]));
      JoinedHead(a);
      JoinedHead(b);
      NatStringHasNoMinus(a[0]);
      NatStringHasNoMinus(b[0]);
      SplitAtFirstSeparator(ha, ta, hb, tb, '-');
      IntToStringInjective(a[0], b[0]);
      JoinedNaturalsInjective(a[1..], b[1..]);
      assert a == [a[0]] + a[1..] && b == [b[0]] + b[1..];
    }
  }

  /** The joined text of two or more fields is the first field, a `-`, and the
      joined text of the rest. */
  lemma JoinedHead(a: seq<int>)
    requires |a| > 1
    ensures Join("-", Render(a)) == IntToString(a[0]) + ['-'] + Join("-", Render(a[1..]))
  {
    var r := Render(a);
    assert r[1..] == Render(a[1..]);
  }

  /** Validated inputs are non-negative, and for those two different inputs
      never share the text that is hashed: a shared key can only come from the
      digest itself. */
  lemma KeyTextInjective(x: PredictionInputs, y: PredictionInputs)
    requires forall i :: 0 <= i < 11 ==> InputFields(x)[i] >= 0 && InputFields(y)[i] >= 0
    requires KeyText(x) == KeyText(y)
    ensures x == y
  {
    JoinedNaturalsInjective(InputFields(x), InputFields(y));
  }

  /** `generate_key`; the MD5 hex digest is the opaque function `digest`. */
  function PredictionKey(digest: string -> string, x: PredictionInputs): (key: string)
    ensures StartsWith(key, "pred_")
  {
    "pred_" + digest(KeyText(x))
  }

  function StatsKey(statsType: string): (key: string)
    ensures StartsWith(key, "stats_") && key[|"stats_"|..] == statsType
  {
    "stats_" + statsType
  }

  function HistoryKey(limit: int, offset: int): (key: string)
    ensures StartsWith(key, "history_")
  {
    "history_" + (IntToString(limit) + "_" + IntToString(offset))
  }

  /** Every page of history has its own key. */
  lemma HistoryKeyInjective(l1: int, o1: int, l2: int, o2: int)
    requires HistoryKey(l1, o1) == HistoryKey(l2, o2)
    ensures l1 == l2 && o1 == o2
  {
    PrefixCancels("history_", IntToString(l1) + "_" + IntToString(o1), IntToString(l2) + "_" + IntToString(o2));
    IntPairInjective(l1, o1, l2, o2);
  }

  /** The three key schemes never collide, so invalidating history by prefix
      never touches a statistics or prediction key. */
  lemma KeySchemesDisjoint(digest: string -> string, x: PredictionInputs, t: string, l: int, o: int)
    ensures !StartsWith(PredictionKey(digest, x), "history_")
    ensures !StartsWith(StatsKey(t), "history_")
    ensures !StartsWith(HistoryKey(l, o), "stats_")
  {
    assert PredictionKey(digest, x)[0] == 'p';
    assert StatsKey(t)[0] == 's';
    assert HistoryKey(l, o)[0] == 'h';
  }

  /** The wrapper dictionaries the specialised caches store. */
  datatype Payload<D> =
    | PredictionPayload(inputs: PredictionInputs, result: D, cachedAt: int)
    | StatsPayload(statsType: string, data: D, cachedAt: int)
    | HistoryPayload(limit: int, offset: int, data: D, cachedAt: int)

  const PredictionTtl: int := 3600
  const StatisticsTtl: int := 600
  const HistoryTtl: int := 1800

  method NewPredictionCache<D>() returns (c: CacheManager<Payload<D>>)
    ensures fresh(c) && c.defaultTtl == PredictionTtl && c.entries == map[]
    ensures c.hitCount == 0 && c.missCount == 0
  {
    c := new CacheManager(PredictionTtl);
  }

  method NewStatisticsCache<D>() returns (c: CacheManager<Payload<D>>)
    ensures fresh(c) && c.defaultTtl == StatisticsTtl && c.entries == map[]
    ensures c.hitCount == 0 && c.missCount == 0
  {
    c := new CacheManager(StatisticsTtl);
  }

  method NewHistoryCache<D>() returns (c: CacheManager<Payload<D>>)
    ensures fresh(c) && c.defaultTtl == HistoryTtl && c.entries == map[]
    ensures c.hitCount == 0 && c.missCount == 0
  {
    c := new CacheManager(HistoryTtl);
  }

  /** `PredictionCache.cache_prediction`; an omitted `ttl` is 3600 seconds. */
  method CachePrediction<D>(c: CacheManager<Payload<D>>, digest: string -> string,
                            inputs: PredictionInputs, result: D, ttl: Option<int>, now: int) returns (key: string)
    modifies c
    ensures key == PredictionKey(digest, inputs)
    ensures c.entries == old(c.entries)[key := Entry(PredictionPayload(inputs, result, now), now,
                                                     if ttl.Some? then ttl.value else PredictionTtl)]
    ensures c.hitCount == old(c.hitCount) && c.missCount == old(c.missCount)
  {
    key := PredictionKey(digest, inputs);
    c.Set(key, PredictionPayload(inputs, result, now), Some(if ttl.Some? then ttl.value else PredictionTtl), now);
  }

  /** `PredictionCache.get_cached_prediction`. */
  method GetCachedPrediction<D>(c: CacheManager<Payload<D>>, digest: string -> string,
                                inputs: PredictionInputs, now: int) returns (r: Option<Payload<D>>)
    modifies c
    ensures var key := PredictionKey(digest, inputs);
      r == (if key in old(c.entries) && !Expired(old(c.entries)[key], now)
            then Some(old(c.entries)[key].value) else None)
    ensures r.Some? ==> c.hitCount == old(c.hitCount) + 1 && c.missCount == old(c.missCount)
    ensures r.None? ==> c.missCount == old(c.missCount) + 1 && c.hitCount == old(c.hitCount)
    ensures var key := PredictionKey(digest, inputs);
      c.entries == if key in old(c.entries) && Expired(old(c.entries)[key], now)
                   then old(c.entries) - {key} else old(c.entries)
  {
    r := c.Get(PredictionKey(digest, inputs), now);
  }

  /** `StatisticsCache.cache_stats`; an omitted `ttl` is 600 seconds. */
  method CacheStatistics<D>(c: CacheManager<Payload<D>>, statsType: string, data: D, ttl: Option<int>, now: int)
    returns (key: string)
    modifies c
    ensures key == StatsKey(statsType)
    ensures c.entries == old(c.entries)[key := Entry(StatsPayload(statsType, data, now), now,
                                                     if ttl.Some? then ttl.value else StatisticsTtl)]
    ensures c.hitCount == old(c.hitCount) && c.missCount == old(c.missCount)
  {
    key := StatsKey(statsType);
    c.Set(key, StatsPayload(statsType, data, now), Some(if ttl.Some? then ttl.value else StatisticsTtl), now);
  }

  /** `StatisticsCache.get_cached_stats`. */
  method GetCachedStatistics<D>(c: CacheManager<Payload<D>>, statsType: string, now: int)
    returns (r: Option<Payload<D>>)
    modifies c
    ensures var key := StatsKey(statsType);
      r == (if key in old(c.entries) && !Expired(old(c.entries)[key], now)
            then Some(old(c.entries)[key].value) else None)
    ensures r.Some? ==> c.hitCount == old(c.hitCount) + 1 && c.missCount == old(c.missCount)
    ensures r.None? ==> c.missCount == old(c.missCount) + 1 && c.hitCount == old(c.hitCount)
    ensures var key := StatsKey(statsType);
      c.entries == if key in old(c.entries) && Expired(old(c.entries)[key], now)
                   then old(c.entries) - {key} else old(c.entries)
  {
    r := c.Get(StatsKey(statsType), now);
  }

  /** `HistoryCache.cache_history`; an omitted `ttl` is 1800 seconds. */
  method CacheHistory<D>(c: CacheManager<Payload<D>>, limit: int, offset: int, data: D, ttl: Option<int>, now: int)
    returns (key: string)
    modifies c
    ensures key == HistoryKey(limit, offset)
    ensures c.entries == old(c.entries)[key := Entry(HistoryPayload(limit, offset, data, now), now,
                                                     if ttl.Some? then ttl.value else HistoryTtl)]
    ensures c.hitCount == old(c.hitCount) && c.missCount == old(c.missCount)
  {
    key := HistoryKey(limit, offset);
    c.Set(key, HistoryPayload(limit, offset, data, now), Some(if ttl.Some? then ttl.value else HistoryTtl), now);
  }

  /** `HistoryCache.get_cached_history`. */
  method GetCachedHistory<D>(c: CacheManager<Payload<D>>, limit: int, offset: int, now: int)
    returns (r: Option<Payload<D>>)
    modifies c
    ensures var key := HistoryKey(limit, offset);
      r == (if key in old(c.entries) && !Expired(old(c.entries)[key], now)
            then Some(old(c.entries)[key].value) else None)
    ensures r.Some? ==> c.hitCount == old(c.hitCount) + 1 && c.missCount == old(c.missCount)
    ensures r.None? ==> c.missCount == old(c.missCount) + 1 && c.hitCount == old(c.hitCount)
    ensures var key := HistoryKey(limit, offset);
      c.entries == if key in old(c.entries) && Expired(old(c.entries)[key], now)
                   then old(c.entries) - {key} else old(c.entries)
  {
    r := c.Get(HistoryKey(limit, offset), now);
  }

  /** Caching a page and reading it back no later than its TTL returns the
      wrapper holding the cached data; the instant `age == ttl` still hits. */
  method HistoryRoundTrip<D>(c: CacheManager<Payload<D>>, limit: int, offset: int, data: D,
                             ttl: Option<int>, now: int, later: int)
    returns (r: Option<Payload<D>>)
    requires later - now <= (if ttl.Some? then ttl.value else HistoryTtl) * MicrosPerSecond
    modifies c
    ensures r == Some(HistoryPayload(limit, offset, data, now))
    ensures c.entries == old(c.entries)[HistoryKey(limit, offset) :=
      Entry(HistoryPayload(limit, offset, data, now), now, if ttl.Some? then ttl.value else HistoryTtl)]
    ensures c.hitCount == old(c.hitCount) + 1
  {
    var _ := CacheHistory(c, limit, offset, data, ttl, now);
    r := GetCachedHistory(c, limit, offset, later);
  }

  /** `HistoryCache.invalidate_history`: drops exactly the `history_` keys and
      returns how many there were. */
  method InvalidateHistory<D>(c: CacheManager<Payload<D>>) returns (count: nat)
    modifies c
    ensures forall k :: k in c.entries <==> k in old(c.entries) && !StartsWith(k, "history_")
    ensures c.entries == old(c.entries) - PrefixedKeys(old(c.entries), "history_")
    ensures count == |PrefixedKeys(old(c.entries), "history_")|
    ensures c.hitCount == old(c.hitCount) && c.missCount == old(c.missCount)
  {
    count := c.DeletePrefixed("history_");
  }

  /** `invalidate_dependent_caches`: the statistics cache loses its `stats_`
      keys and the history cache its `history_` keys; nothing else changes. */
  method InvalidateDependentCaches<D>(statistics: CacheManager<Payload<D>>, history: CacheManager<Payload<D>>)
    requires statistics != history
    modifies statistics, history
    ensures statistics.entries == old(statistics.entries) - PrefixedKeys(old(statistics.entries), "stats_")
    ensures history.entries == old(history.entries) - PrefixedKeys(old(history.entries), "history_")
    ensures statistics.hitCount == old(statistics.hitCount) && statistics.missCount == old(statistics.missCount)
    ensures history.hitCount == old(history.hitCount) && history.missCount == old(history.missCount)
  {
    var _ := statistics.DeletePrefixed("stats_");
    var _ := InvalidateHistory(history);
  }
}

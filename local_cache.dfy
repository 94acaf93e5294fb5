/** `cachel.local`: the two-tier wrapper that refreshes a stale tier2 entry in
    the calling thread (cachel/local.py). The clock is the parameter `now`
    of each operation; a custom `refresh` is a pure function of the key and
    the arguments. */
module LocalCache {
  import opened Common
  import opened WireFormat
  import opened Backend
  import opened TwoTier

  /** `default_refresh(key, *args)`: run the function; on success write both
      tiers and report True; on an exception write nothing and report False. */
  function DefaultRefreshSpec<A, V>(tiers: Tiers, fn: A -> Reply<V>, codec: Codec<V>, ttl1: int, ttl2: int,
                                    k: Key, args: A, now: real): Refresh {
    match fn(args)
    case Raised => Refresh(false, tiers, true)
    case Returned(v) => Refresh(true, Refreshed(tiers, k, codec.dumps(v), ttl1, ttl2, now), true)
  }

  /** The stale branch's refresher: the custom `refresh` when one is set,
      else `default_refresh`. */
  function LocalRefresh<A, V>(tiers: Tiers, fn: A -> Reply<V>, codec: Codec<V>, ttl1: int, ttl2: int,
                              refresh: Option<(Key, A) -> bool>, k: Key, args: A, now: real): Refresh {
    match refresh
    case Some(r) => Refresh(r(k, args), tiers, false)
    case None => DefaultRefreshSpec(tiers, fn, codec, ttl1, ttl2, k, args, now)
  }

  /** `LocalCacheWrapper.__call__(*args)` at clock `now`. */
  function LocalCallSpec<A, V>(tiers: Tiers, fn: A -> Reply<V>, keyfunc: A -> Key, codec: Codec<V>, ttl1: int, ttl2: int,
                               refresh: Option<(Key, A) -> bool>, args: A, now: real): TierStep<V> {
    var k := keyfunc(args);
    CallSpec(tiers, k, codec, ttl1, ttl2, now, fn(args), LocalRefresh(tiers, fn, codec, ttl1, ttl2, refresh, k, args, now))
  }

  /** On a stale entry without a custom refresh, a successful recomputation
      leaves both tiers holding the new value (tier1 is not overwritten with
      the stale payload), while the caller still gets the stale value. */
  lemma StaleRefreshSucceeds<A, V>(tiers: Tiers, fn: A -> Reply<V>, keyfunc: A -> Key, codec: Codec<V>,
                                   ttl1: int, ttl2: int, args: A, now: real, inner: Bytes)
    requires Classify(tiers, keyfunc(args), now) == Tier2Stale(inner)
    requires fn(args).Returned?
    ensures var step := LocalCallSpec(tiers, fn, keyfunc, codec, ttl1, ttl2, None, args, now);
            && step.result == Ok(codec.loads(inner))
            && step.tiers == Refreshed(tiers, keyfunc(args), codec.dumps(fn(args).value), ttl1, ttl2, now)
            && step.called
  {
    StaleServesStale(tiers, keyfunc(args), codec, ttl1, ttl2, now, fn(args),
                     LocalRefresh(tiers, fn, codec, ttl1, ttl2, None, keyfunc(args), args, now), inner);
  }

  /** On a stale entry without a custom refresh, a failing recomputation is
      swallowed: tier1 gets the stale payload, tier2 keeps the stale entry,
      and the caller gets the stale value. */
  lemma StaleRefreshFails<A, V>(tiers: Tiers, fn: A -> Reply<V>, keyfunc: A -> Key, codec: Codec<V>,
                                ttl1: int, ttl2: int, args: A, now: real, inner: Bytes)
    requires Classify(tiers, keyfunc(args), now) == Tier2Stale(inner)
    requires fn(args).Raised?
    ensures var step := LocalCallSpec(tiers, fn, keyfunc, codec, ttl1, ttl2, None, args, now);
            && step.result == Ok(codec.loads(inner))
            && step.tiers == CopiedBack(tiers, keyfunc(args), inner, ttl1)
            && step.called
  {
    StaleServesStale(tiers, keyfunc(args), codec, ttl1, ttl2, now, fn(args),
                     LocalRefresh(tiers, fn, codec, ttl1, ttl2, None, keyfunc(args), args, now), inner);
  }

  /** With a custom refresh, the function never runs on a stale entry; tier1
      gets the stale payload exactly when the refresh returns falsy. */
  lemma CustomRefreshDecides<A, V>(tiers: Tiers, fn: A -> Reply<V>, keyfunc: A -> Key, codec: Codec<V>,
                                   ttl1: int, ttl2: int, refresh: (Key, A) -> bool, args: A, now: real, inner: Bytes)
    requires Classify(tiers, keyfunc(args), now) == Tier2Stale(inner)
    ensures var step := LocalCallSpec(tiers, fn, keyfunc, codec, ttl1, ttl2, Some(refresh), args, now);
            && step.result == Ok(codec.loads(inner))
            && !step.called
            && (refresh(keyfunc(args), args) ==> step.tiers == tiers)
            && (!refresh(keyfunc(args), args) ==> step.tiers == CopiedBack(tiers, keyfunc(args), inner, ttl1))
  {
    StaleServesStale(tiers, keyfunc(args), codec, ttl1, ttl2, now, fn(args),
                     LocalRefresh(tiers, fn, codec, ttl1, ttl2, Some(refresh), keyfunc(args), args, now), inner);
  }

  /** `LocalCacheWrapper`: tier1 `cache1`, tier2 `cache2` (two distinct
      backends), their ttls, the optional custom refresh, and a call counter
      for the wrapped function. */
  class LocalCacheWrapper<A, V> {
    const fn: A -> Reply<V>
    const keyfunc: A -> Key
    const codec: Codec<V>
    const cache1: MapCache
    const cache2: MapCache
    const ttl1: int
    const ttl2: int
    const refresh: Option<(Key, A) -> bool>
    var calls: nat

    constructor (fn: A -> Reply<V>, keyfunc: A -> Key, codec: Codec<V>, cache1: MapCache, cache2: MapCache,
                 ttl1: int, ttl2: int, refresh: Option<(Key, A) -> bool>)
      requires cache1 != cache2
      ensures this.fn == fn && this.keyfunc == keyfunc && this.codec == codec
      ensures this.cache1 == cache1 && this.cache2 == cache2 && this.ttl1 == ttl1 && this.ttl2 == ttl2
      ensures this.refresh == refresh && calls == 0
    {
      this.fn := fn;
      this.keyfunc := keyfunc;
      this.codec := codec;
      this.cache1 := cache1;
      this.cache2 := cache2;
      this.ttl1 := ttl1;
      this.ttl2 := ttl2;
      this.refresh := refresh;
      calls := 0;
    }

    /** Both backends' contents. */
    function Contents(): Tiers
      reads cache1, cache2
    {
      Tiers(cache1.data, cache2.data)
    }

    /** `__call__(*args)`. */
    method Call(args: A, now: real) returns (r: Result<V>)
      requires cache1 != cache2
      modifies this, cache1, cache2
      ensures var step := LocalCallSpec(old(Contents()), fn, keyfunc, codec, ttl1, ttl2, refresh, args, now);
              r == step.result && Contents() == step.tiers && calls == old(calls) + (if step.called then 1 else 0)
    {
      var k := keyfunc(args);
      var result := cache1.Get(k);
      if result.Some? {
        return Ok(codec.loads(result.value));
      }
      result := cache2.Get(k);
      if result.None? {
        calls := calls + 1;
        var reply := fn(args);
        if reply.Raised? {
          return Err(FuncRaised);
        }
        var sdata := codec.dumps(reply.value);
        cache1.Set(k, sdata, ttl1);
        cache2.Set(k, Dumps2(now, ttl1, sdata), ttl2);
        return Ok(reply.value);
      }
      var parsed := Loads2(result.value);
      if parsed.Err? {
        return Err(BadTier2Entry);
      }
      var (expire, inner) := parsed.value;
      var updated := false;
      if now > expire as real {
        if refresh.Some? {
          updated := refresh.value(k, args);
        } else {
          updated := DefaultRefresh(k, args, now);
        }
      }
      if !updated {
        cache1.Set(k, inner, ttl1);
      }
      return Ok(codec.loads(inner));
    }

    /** `default_refresh(key, *args)`. */
    method DefaultRefresh(key: Key, args: A, now: real) returns (updated: bool)
      requires cache1 != cache2
      modifies this, cache1, cache2
      ensures var rr := DefaultRefreshSpec(old(Contents()), fn, codec, ttl1, ttl2, key, args, now);
              updated == rr.updated && Contents() == rr.tiers && calls == old(calls) + 1
    {
      calls := calls + 1;
      var reply := fn(args);
      if reply.Raised? {
        return false;
      }
      var sdata := codec.dumps(reply.value);
      cache1.Set(key, sdata, ttl1);
      cache2.Set(key, Dumps2(now, ttl1, sdata), ttl2);
      return true;
    }

    /** `get(*args)`: reads tier2 only. */
    method Get(args: A) returns (r: Result<Option<V>>)
      ensures r == Get2(cache2.data, keyfunc(args), codec)
    {
      var k := keyfunc(args);
      var result := cache2.Get(k);
      if result.Some? && Truthy(result.value) {
        var parsed := Loads2(result.value);
        if parsed.Err? {
          return Err(parsed.error);
        }
        return Ok(Some(codec.loads(parsed.value.1)));
      }
      return Ok(None);
    }

    /** `set(value, *args)` at clock `now`: writes tier2 only. */
    method Set(value: V, args: A, now: real)
      modifies cache2
      ensures cache2.data == Set2(old(cache2.data), keyfunc(args), codec, value, ttl1, ttl2, now)
    {
      var k := keyfunc(args);
      cache2.Set(k, Dumps2(now, ttl1, codec.dumps(value)), ttl2);
    }

    /** `invalidate(*args)`: deletes the tier2 key only; tier1 keeps its copy
        until it expires. */
    method Invalidate(args: A)
      modifies cache2
      ensures cache2.data == old(cache2.data) - {keyfunc(args)}
    {
      var k := keyfunc(args);
      cache2.Delete(k);
    }
  }

  /** `make_local_cache(cache1, cache2, ttl1=600, ttl2=None, fmt='msgpack',
      fuzzy_ttl=True, refresh=None)` and its decorator `__call__`. The key
      function and the codec arrive resolved; `getExpire` stands for
      `get_expire`. */
  class LocalCacheFactory<A, V> {
    const cache1: MapCache
    const cache2: MapCache
    const ttl1: int
    const ttl2: Option<int>
    const fuzzyTtl: bool
    const refresh: Option<(Key, A) -> bool>

    constructor (cache1: MapCache, cache2: MapCache, ttl1: int, ttl2: Option<int>, fuzzyTtl: bool,
                 refresh: Option<(Key, A) -> bool>)
      requires cache1 != cache2
      ensures this.cache1 == cache1 && this.cache2 == cache2 && this.ttl1 == ttl1 && this.ttl2 == ttl2
      ensures this.fuzzyTtl == fuzzyTtl && this.refresh == refresh
    {
      this.cache1 := cache1;
      this.cache2 := cache2;
      this.ttl1 := ttl1;
      this.ttl2 := ttl2;
      this.fuzzyTtl := fuzzyTtl;
      this.refresh := refresh;
    }

    /** `__call__(tpl, ttl1=None, ttl2=None, fmt=None, fuzzy_ttl=None)(func)`. */
    method Decorate(fn: A -> Reply<V>, keyfunc: A -> Key, codec: Codec<V>, getExpire: (int, bool) -> int,
                    ttl1Arg: Option<int>, ttl2Arg: Option<int>, fuzzyArg: Option<bool>) returns (w: LocalCacheWrapper<A, V>)
      requires cache1 != cache2
      ensures fresh(w)
      ensures w.fn == fn && w.keyfunc == keyfunc && w.codec == codec && w.calls == 0
      ensures w.cache1 == cache1 && w.cache2 == cache2 && w.refresh == refresh
      ensures var ttls := ResolveTtls(getExpire, ttl1, ttl2, fuzzyTtl, ttl1Arg, ttl2Arg, fuzzyArg);
              w.ttl1 == ttls.ttl1 && w.ttl2 == ttls.ttl2
    {
      var ttls := ResolveTtls(getExpire, ttl1, ttl2, fuzzyTtl, ttl1Arg, ttl2Arg, fuzzyArg);
      w := new LocalCacheWrapper(fn, keyfunc, codec, cache1, cache2, ttls.ttl1, ttls.ttl2, refresh);
    }
  }
}

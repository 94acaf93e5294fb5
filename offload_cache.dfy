/** `cachel.offload`: the two-tier wrapper that hands a stale tier2 entry to
    an offload function instead of recomputing it in the caller
    (cachel/offload.py), the stock offload functions `default_offload` and
    `offloader`, and the factory whose registry routes a deferred refresh
    back to its wrapper by cache id. */
module OffloadCache {
  import opened Common
  import opened WireFormat
  import opened Backend
  import opened TwoTier

  /** The parameters `offloader` hands its transport function:
      `{cache_id, key, args, kwargs}` (the arguments as one value). */
  datatype Message<A> = Message(cacheId: string, key: Key, args: A)

  /** The transport an `offloader` sends through; it only records messages. */
  class Outbox<A> {
    var sent: seq<Message<A>>

    constructor ()
      ensures sent == []
    {
      sent := [];
    }

    method Send(m: Message<A>)
      modifies this
      ensures sent == old(sent) + [m]
    {
      sent := sent + [m];
    }
  }

  /** The wrapper's offload function: `default_offload`, an `offloader`
      around a transport, or a custom function of the key and the arguments. */
  datatype Offload<!A> = DefaultOffload | Offloader(outbox: Outbox<A>) | Custom(f: (Key, A) -> bool)

  /** The objects an offload function may change besides the two tiers. */
  function OffloadFrame<A>(o: Offload<A>): set<object> {
    if o.Offloader? then {o.outbox} else {}
  }

  /** `default_offload(cache, key, args, kwargs, update_cache1)`. On success:
      both tiers rewritten, True. On an exception: with `update_cache1` False
      nothing is written and the result is False; with True the tier2 entry,
      if truthy, has its inner payload copied to tier1, and the result is
      True. A malformed tier2 entry in that re-read raises ValueError. */
  function DefaultOffloadSpec<A, V>(tiers: Tiers, fn: A -> Reply<V>, codec: Codec<V>, ttl1: int, ttl2: int,
                                    k: Key, args: A, now: real, updateCache1: bool): Result<Refresh> {
    match fn(args)
    case Returned(v) => Ok(Refresh(true, Refreshed(tiers, k, codec.dumps(v), ttl1, ttl2, now), true))
    case Raised =>
      if !updateCache1 then Ok(Refresh(false, tiers, true))
      else if k in tiers.t2 && Truthy(tiers.t2[k].value) then
        match Loads2(tiers.t2[k].value)
        case Err(e) => Err(e)
        case Ok((_, inner)) => Ok(Refresh(true, CopiedBack(tiers, k, inner, ttl1), true))
      else Ok(Refresh(true, tiers, true))
  }

  /** The wrapper's own call, `update_cache1=False`, never raises. */
  lemma DefaultOffloadFromCallIsOk<A, V>(tiers: Tiers, fn: A -> Reply<V>, codec: Codec<V>, ttl1: int, ttl2: int,
                                         k: Key, args: A, now: real)
    ensures DefaultOffloadSpec(tiers, fn, codec, ttl1, ttl2, k, args, now, false).Ok?
    ensures fn(args).Raised? ==> DefaultOffloadSpec(tiers, fn, codec, ttl1, ttl2, k, args, now, false) == Ok(Refresh(false, tiers, true))
  {
  }

  /** The stale branch's outcome for each kind of offload function. */
  function OffloadRefresh<A, V>(tiers: Tiers, fn: A -> Reply<V>, codec: Codec<V>, ttl1: int, ttl2: int,
                                offload: Offload<A>, k: Key, args: A, now: real): Refresh {
    match offload
    case DefaultOffload =>
      DefaultOffloadFromCallIsOk(tiers, fn, codec, ttl1, ttl2, k, args, now);
      DefaultOffloadSpec(tiers, fn, codec, ttl1, ttl2, k, args, now, false).value
    case Offloader(_) => Refresh(false, tiers, false)
    case Custom(f) => Refresh(f(k, args), tiers, false)
  }

  /** `OffloadCacheWrapper.__call__(*args)` at clock `now`. */
  function OffloadCallSpec<A, V>(tiers: Tiers, fn: A -> Reply<V>, keyfunc: A -> Key, codec: Codec<V>, ttl1: int, ttl2: int,
                                 offload: Offload<A>, args: A, now: real): TierStep<V> {
    var k := keyfunc(args);
    CallSpec(tiers, k, codec, ttl1, ttl2, now, fn(args), OffloadRefresh(tiers, fn, codec, ttl1, ttl2, offload, k, args, now))
  }

  /** Whether a call at `now` reaches the offload function. */
  predicate Offloads(tiers: Tiers, k: Key, now: real) {
    Classify(tiers, k, now).Tier2Stale?
  }

  /** With an `offloader`, a stale entry is never recomputed in the caller:
      the function does not run, tier1 gets the stale payload, tier2 is
      untouched, and the caller gets the stale value. */
  lemma OffloaderRefreshesTier1<A, V>(tiers: Tiers, fn: A -> Reply<V>, keyfunc: A -> Key, codec: Codec<V>,
                                      ttl1: int, ttl2: int, outbox: Outbox<A>, args: A, now: real, inner: Bytes)
    requires Classify(tiers, keyfunc(args), now) == Tier2Stale(inner)
    ensures var step := OffloadCallSpec(tiers, fn, keyfunc, codec, ttl1, ttl2, Offloader(outbox), args, now);
            && step.result == Ok(codec.loads(inner))
            && step.tiers == CopiedBack(tiers, keyfunc(args), inner, ttl1)
            && !step.called
  {
    StaleServesStale(tiers, keyfunc(args), codec, ttl1, ttl2, now, fn(args),
                     OffloadRefresh(tiers, fn, codec, ttl1, ttl2, Offloader(outbox), keyfunc(args), args, now), inner);
  }

  /** With `default_offload`, a stale entry whose recomputation succeeds
      leaves both tiers holding the new value; one that fails leaves tier1
      with the stale payload. The caller gets the stale value either way. */
  lemma DefaultOffloadOnStale<A, V>(tiers: Tiers, fn: A -> Reply<V>, keyfunc: A -> Key, codec: Codec<V>,
                                    ttl1: int, ttl2: int, args: A, now: real, inner: Bytes)
    requires Classify(tiers, keyfunc(args), now) == Tier2Stale(inner)
    ensures var step := OffloadCallSpec(tiers, fn, keyfunc, codec, ttl1, ttl2, DefaultOffload, args, now);
            && step.result == Ok(codec.loads(inner))
            && step.called
            && (fn(args).Returned? ==> step.tiers == Refreshed(tiers, keyfunc(args), codec.dumps(fn(args).value), ttl1, ttl2, now))
            && (fn(args).Raised? ==> step.tiers == CopiedBack(tiers, keyfunc(args), inner, ttl1))
  {
    StaleServesStale(tiers, keyfunc(args), codec, ttl1, ttl2, now, fn(args),
                     OffloadRefresh(tiers, fn, codec, ttl1, ttl2, DefaultOffload, keyfunc(args), args, now), inner);
  }

  /** The deferred refresh (`update_cache1=True`) after a failure puts the
      payload tier2 holds back into tier1, so a following call is a tier1 hit
      serving that value. */
  lemma {:induction false} DeferredFailureRestoresTier1<A, V(!new)>(tiers: Tiers, fn: A -> Reply<V>, k: Key, codec: Codec<V>,
                                                                     ttl1: int, ttl2: int, w: real, now: real, v: V, args: A)
    requires RoundTrips(codec)
    requires fn(args).Raised?
    ensures var t := tiers.(t2 := tiers.t2[k := Entry(Dumps2(w, ttl1, codec.dumps(v)), ttl2)]);
            var r := DefaultOffloadSpec(t, fn, codec, ttl1, ttl2, k, args, now, true);
            && r.Ok? && r.value.updated
            && k in r.value.tiers.t1 && codec.loads(r.value.tiers.t1[k].value) == v
            && r.value.tiers.t2 == t.t2
  {
    var d := codec.dumps(v);
    Loads2Dumps2(w, ttl1, d);
    assert |Dumps2(w, ttl1, d)| > 0 by {
      DecimalRoundTrip(Expiry(w, ttl1));
    }
    assert codec.loads(d) == v;
  }

  /** `OffloadCacheWrapper`: its id `'<module>.<name>'`, the two tiers (two
      distinct backends), their ttls, the offload function, and a call
      counter for the wrapped function. */
  class OffloadCacheWrapper<A, V> {
    const id: string
    const fn: A -> Reply<V>
    const keyfunc: A -> Key
    const codec: Codec<V>
    const cache1: MapCache
    const cache2: MapCache
    const ttl1: int
    const ttl2: int
    const offload: Offload<A>
    var calls: nat

    constructor (moduleName: string, name: string, fn: A -> Reply<V>, keyfunc: A -> Key, codec: Codec<V>,
                 cache1: MapCache, cache2: MapCache, ttl1: int, ttl2: int, offload: Offload<A>)
      requires cache1 != cache2
      ensures id == moduleName + "." + name
      ensures this.fn == fn && this.keyfunc == keyfunc && this.codec == codec
      ensures this.cache1 == cache1 && this.cache2 == cache2 && this.ttl1 == ttl1 && this.ttl2 == ttl2
      ensures this.offload == offload && calls == 0
    {
      id := moduleName + "." + name;
      this.fn := fn;
      this.keyfunc := keyfunc;
      this.codec := codec;
      this.cache1 := cache1;
      this.cache2 := cache2;
      this.ttl1 := ttl1;
      this.ttl2 := ttl2;
      this.offload := offload;
      calls := 0;
    }

    /** Both backends' contents. */
    function Contents(): Tiers
      reads cache1, cache2
    {
      Tiers(cache1.data, cache2.data)
    }

    /** `__call__(*args)`. An `offloader` additionally sends one message, for
        this wrapper's id and the key, on every stale read. */
    method Call(args: A, now: real) returns (r: Result<V>)
      requires cache1 != cache2
      modifies this, cache1, cache2, OffloadFrame(offload)
      ensures var step := OffloadCallSpec(old(Contents()), fn, keyfunc, codec, ttl1, ttl2, offload, args, now);
              r == step.result && Contents() == step.tiers && calls == old(calls) + (if step.called then 1 else 0)
      ensures offload.Offloader? ==>
                offload.outbox.sent == old(offload.outbox.sent) +
                  (if Offloads(old(Contents()), keyfunc(args), now) then [Message(id, keyfunc(args), args)] else [])
    {
      ghost var t0 := Contents();
      var k := keyfunc(args);
      var result := cache1.Get(k);
      if result.Some? {
        assert Classify(t0, k, now) == Tier1Hit(result.value);
        return Ok(codec.loads(result.value));
      }
      result := cache2.Get(k);
      if result.None? {
        assert Classify(t0, k, now) == FullMiss;
        calls := calls + 1;
        var reply := fn(args);
        if reply.Raised? {
          return Err(FuncRaised);
        }
        var sdata := codec.dumps(reply.value);
        cache1.Set(k, sdata, ttl1);
        cache2.Set(k, Dumps2(now, ttl1, sdata), ttl2);
        return Ok(reply.value);
      }
      var parsed := Loads2(result.value);
      if parsed.Err? {
        assert Classify(t0, k, now) == Tier2Corrupt;
        return Err(BadTier2Entry);
      }
      var (expire, inner) := parsed.value;
      var updated := false;
      if now > expire as real {
        assert Classify(t0, k, now) == Tier2Stale(inner);
        updated := RunOffload(k, args, now);
      } else {
        assert Classify(t0, k, now) == Tier2Fresh(inner);
      }
      if !updated {
        cache1.Set(k, inner, ttl1);
      }
      return Ok(codec.loads(inner));
    }

    /** `self.offload(self, k, args, kwargs)` on a stale entry. */
    method RunOffload(k: Key, args: A, now: real) returns (updated: bool)
      requires cache1 != cache2
      modifies this, cache1, cache2, OffloadFrame(offload)
      ensures var refresh := OffloadRefresh(old(Contents()), fn, codec, ttl1, ttl2, offload, k, args, now);
              updated == refresh.updated && Contents() == refresh.tiers &&
              calls == old(calls) + (if refresh.called then 1 else 0)
      ensures offload.Offloader? ==> offload.outbox.sent == old(offload.outbox.sent) + [Message(id, k, args)]
    {
      match offload {
        case DefaultOffload =>
          DefaultOffloadFromCallIsOk(Contents(), fn, codec, ttl1, ttl2, k, args, now);
          var o := RunDefaultOffload(this, k, args, now, false);
          updated := o.value;
        case Offloader(outbox) =>
          outbox.Send(Message(id, k, args));
          updated := false;
        case Custom(f) =>
          updated := f(k, args);
      }
    }

    /** `get(*args)`: reads tier2 only. */
    method Get(args: A) returns (r: Result<Option<V>>)
      ensures r == Get2(cache2.data, keyfunc(args), codec)
    {
      var k := keyfunc(args);
      var result := cache2.Get(k);
      if result.Some? && Truthy(result.value) {
        var parsed := Loads2(result.value);
        if parsed.Err? {
          return Err(parsed.error);
        }
        return Ok(Some(codec.loads(parsed.value.1)));
      }
      return Ok(None);
    }

    /** `set(value, *args)` at clock `now`: writes tier2 only. */
    method Set(value: V, args: A, now: real)
      modifies cache2
      ensures cache2.data == Set2(old(cache2.data), keyfunc(args), codec, value, ttl1, ttl2, now)
    {
      var k := keyfunc(args);
      cache2.Set(k, Dumps2(now, ttl1, codec.dumps(value)), ttl2);
    }

    /** `invalidate(*args)`: deletes the tier2 key only. */
    method Invalidate(args: A)
      modifies cache2
      ensures cache2.data == old(cache2.data) - {keyfunc(args)}
    {
      var k := keyfunc(args);
      cache2.Delete(k);
    }
  }

  /** `default_offload(cache, key, args, kwargs, update_cache1)` run on a
      wrapper; the boolean is the value it returns. */
  method RunDefaultOffload<A, V>(w: OffloadCacheWrapper<A, V>, key: Key, args: A, now: real, updateCache1: bool)
    returns (r: Result<bool>)
    requires w.cache1 != w.cache2
    modifies w, w.cache1, w.cache2
    ensures var spec := DefaultOffloadSpec(old(w.Contents()), w.fn, w.codec, w.ttl1, w.ttl2, key, args, now, updateCache1);
            && (spec.Ok? ==> r == Ok(spec.value.updated) && w.Contents() == spec.value.tiers)
            && (spec.Err? ==> r == Err(spec.error) && w.Contents() == old(w.Contents()))
            && w.calls == old(w.calls) + 1
  {
    w.calls := w.calls + 1;
    var reply := w.fn(args);
    if reply.Returned? {
      var sdata := w.codec.dumps(reply.value);
      w.cache1.Set(key, sdata, w.ttl1);
      w.cache2.Set(key, Dumps2(now, w.ttl1, sdata), w.ttl2);
      return Ok(true);
    }
    if updateCache1 {
      var result := w.cache2.Get(key);
      if result.Some? && Truthy(result.value) {
        var parsed := Loads2(result.value);
        if parsed.Err? {
          return Err(parsed.error);
        }
        w.cache1.Set(key, parsed.value.1, w.ttl1);
      }
    }
    return Ok(updateCache1);
  }

  /** An offload message as received back from the transport; `offload_params`
      pops its `cache_id`. */
  class Params<A> {
    var cacheId: Option<string>
    const key: Key
    const args: A

    constructor (cacheId: Option<string>, key: Key, args: A)
      ensures this.cacheId == cacheId && this.key == key && this.args == args
    {
      this.cacheId := cacheId;
      this.key := key;
      this.args := args;
    }
  }

  /** What `offload_params` did with a message that had a cache id. */
  datatype Dispatch = Dispatched | CacheNotFound(id: string)

  /** `make_offload_cache(cache1, cache2, ttl1=600, ttl2=None, fmt='msgpack',
      fuzzy_ttl=True, offload=None)`: shared tiers and defaults, and the
      registry `caches` of every wrapper it has built, by id. */
  class OffloadFactory<A, V> {
    var caches: map<string, OffloadCacheWrapper<A, V>>
    const cache1: MapCache
    const cache2: MapCache
    const ttl1: int
    const ttl2: Option<int>
    const fuzzyTtl: bool
    const offload: Option<Offload<A>>

    /** Every registered wrapper sits under its own id and uses the factory's
        two tiers. */
    ghost predicate Valid()
      reads this
    {
      && cache1 != cache2
      && forall id :: id in caches ==> caches[id].id == id && caches[id].cache1 == cache1 && caches[id].cache2 == cache2
    }

    constructor (cache1: MapCache, cache2: MapCache, ttl1: int, ttl2: Option<int>, fuzzyTtl: bool, offload: Option<Offload<A>>)
      requires cache1 != cache2
      ensures Valid() && caches == map[]
      ensures this.cache1 == cache1 && this.cache2 == cache2 && this.ttl1 == ttl1 && this.ttl2 == ttl2
      ensures this.fuzzyTtl == fuzzyTtl && this.offload == offload
    {
      caches := map[];
      this.cache1 := cache1;
      this.cache2 := cache2;
      this.ttl1 := ttl1;
      this.ttl2 := ttl2;
      this.fuzzyTtl := fuzzyTtl;
      this.offload := offload;
    }

    /** `__call__(tpl, ttl1=None, ttl2=None, fmt=None, fuzzy_ttl=None)(func)`:
        builds the wrapper with the resolved ttls and `self.offload or
        default_offload`, and registers it under its id (replacing an earlier
        wrapper of the same id). */
    method Decorate(moduleName: string, name: string, fn: A -> Reply<V>, keyfunc: A -> Key, codec: Codec<V>,
                    getExpire: (int, bool) -> int, ttl1Arg: Option<int>, ttl2Arg: Option<int>, fuzzyArg: Option<bool>)
      returns (w: OffloadCacheWrapper<A, V>)
      requires Valid()
      modifies this
      ensures Valid() && fresh(w)
      ensures w.id == moduleName + "." + name && caches == old(caches)[w.id := w]
      ensures w.fn == fn && w.keyfunc == keyfunc && w.codec == codec && w.calls == 0
      ensures w.cache1 == cache1 && w.cache2 == cache2
      ensures w.offload == (if offload.Some? then offload.value else DefaultOffload)
      ensures var ttls := ResolveTtls(getExpire, ttl1, ttl2, fuzzyTtl, ttl1Arg, ttl2Arg, fuzzyArg);
              w.ttl1 == ttls.ttl1 && w.ttl2 == ttls.ttl2
    {
      var ttls := ResolveTtls(getExpire, ttl1, ttl2, fuzzyTtl, ttl1Arg, ttl2Arg, fuzzyArg);
      var o := if offload.Some? then offload.value else DefaultOffload;
      w := new OffloadCacheWrapper(moduleName, name, fn, keyfunc, codec, cache1, cache2, ttls.ttl1, ttls.ttl2, o);
      caches := caches[w.id := w];
    }

    /** `offload_params(params)`: pops `cache_id` (a KeyError when absent) and
        runs `default_offload(update_cache1=True)` on exactly the wrapper
        registered under it; an unknown id changes nothing. */
    method OffloadParams(params: Params<A>, now: real) returns (r: Result<Dispatch>)
      requires Valid()
      modifies params, caches.Values, cache1, cache2
      ensures Valid() && caches == old(caches)
      ensures params.cacheId == None
      ensures old(params.cacheId).None? ==> r == Err(NoCacheId) && cache1.data == old(cache1.data) && cache2.data == old(cache2.data)
      ensures old(params.cacheId).Some? && old(params.cacheId).value !in caches ==>
                r == Ok(CacheNotFound(old(params.cacheId).value)) &&
                cache1.data == old(cache1.data) && cache2.data == old(cache2.data)
      ensures old(params.cacheId).Some? && old(params.cacheId).value in caches ==>
                var w := caches[old(params.cacheId).value];
                var spec := DefaultOffloadSpec(Tiers(old(cache1.data), old(cache2.data)), w.fn, w.codec, w.ttl1, w.ttl2,
                                               params.key, params.args, now, true);
                && (spec.Ok? ==> r == Ok(Dispatched) && w.Contents() == spec.value.tiers)
                && (spec.Err? ==> r == Err(spec.error) && w.Contents() == old(w.Contents()))
                && w.calls == old(w.calls) + 1
      ensures forall id :: id in caches && (old(params.cacheId) != Some(id)) ==> caches[id].calls == old(caches[id].calls)
    {
      var popped := params.cacheId;
      params.cacheId := None;
      if popped.None? {
        return Err(NoCacheId);
      }
      var id := popped.value;
      if id !in caches {
        return Ok(CacheNotFound(id));
      }
      var w := caches[id];
      var o := RunDefaultOffload(w, params.key, params.args, now, true);
      if o.Err? {
        return Err(o.error);
      }
      return Ok(Dispatched);
    }
  }
}

/** The single-backend memoizing wrappers of cachel/wrappers/wrappers_t.py:
    `CacheWrapper` (one key per call) and `ObjectsCacheWrapper` (one key per
    id of a batch). The backend is a `MapCache`; the wrapped function, the key
    function and the codec are parameters fixed at construction. */
module SimpleWrappers {
  import opened Common
  import opened Backend
  import opened TtlBuckets

  // ---------------------------------------------------------------------
  // CacheWrapper, as functions of the backend contents

  /** One call's outcome: what the caller gets, the backend afterwards, and
      whether the wrapped function ran. */
  datatype Step<R> = Step(result: Result<R>, store: Store, called: bool)

  /** `CacheWrapper.__call__`: a stored value (any value but None) is decoded
      and returned; otherwise the function runs, its result is stored encoded
      with the `_Expire` ttl or the wrapper's own, and returned as it is. */
  function CallSpec<A, V>(s: Store, fn: A -> Reply<Ret<V>>, keyfunc: A -> Key, codec: Codec<V>, ttl: int, args: A): Step<V> {
    var k := keyfunc(args);
    match Lookup(s, k)
    case Some(b) => Step(Ok(codec.loads(b)), s, false)
    case None =>
      match fn(args)
      case Raised => Step(Err(FuncRaised), s, true)
      case Returned(r) => Step(Ok(r.value), s[k := Entry(codec.dumps(r.value), r.TtlOr(ttl))], true)
  }

  /** `CacheWrapper.get`: decodes only a truthy stored value. */
  function GetSpec<A, V>(s: Store, keyfunc: A -> Key, codec: Codec<V>, args: A): (r: Option<V>)
    ensures r.Some? <==> keyfunc(args) in s && Truthy(s[keyfunc(args)].value)
    ensures r.Some? ==> r.value == codec.loads(s[keyfunc(args)].value)
  {
    match Lookup(s, keyfunc(args))
    case Some(b) => if Truthy(b) then Some(codec.loads(b)) else None
    case None => None
  }

  /** A hit returns the decoded stored value; the function does not run and
      the backend is unchanged. */
  lemma HitServesStored<A, V>(s: Store, fn: A -> Reply<Ret<V>>, keyfunc: A -> Key, codec: Codec<V>, ttl: int, args: A)
    requires keyfunc(args) in s
    ensures CallSpec(s, fn, keyfunc, codec, ttl, args) == Step(Ok(codec.loads(s[keyfunc(args)].value)), s, false)
  {
  }

  /** A miss runs the function once and stores its encoded value under the
      key, with the `_Expire` ttl if it gave one and the wrapper's ttl if not;
      the value returned is the function's, unencoded, and an exception
      leaves the backend as it was. */
  lemma MissStoresResult<A, V>(s: Store, fn: A -> Reply<Ret<V>>, keyfunc: A -> Key, codec: Codec<V>, ttl: int, args: A)
    requires keyfunc(args) !in s
    ensures CallSpec(s, fn, keyfunc, codec, ttl, args).called
    ensures fn(args).Raised? ==> CallSpec(s, fn, keyfunc, codec, ttl, args) == Step(Err(FuncRaised), s, true)
    ensures fn(args).Returned? && fn(args).value.Plain? ==>
              CallSpec(s, fn, keyfunc, codec, ttl, args) ==
              Step(Ok(fn(args).value.value), s[keyfunc(args) := Entry(codec.dumps(fn(args).value.value), ttl)], true)
    ensures fn(args).Returned? && fn(args).value.WithTtl? ==>
              CallSpec(s, fn, keyfunc, codec, ttl, args) ==
              Step(Ok(fn(args).value.value),
                   s[keyfunc(args) := Entry(codec.dumps(fn(args).value.value), fn(args).value.ttl)], true)
  {
  }

  /** Memoization: with a codec that round-trips, the call after a computed
      one is a hit that returns the same value without running the function. */
  lemma SecondCallHits<A, V(!new)>(s: Store, fn: A -> Reply<Ret<V>>, keyfunc: A -> Key, codec: Codec<V>, ttl: int, args: A)
    requires RoundTrips(codec)
    requires CallSpec(s, fn, keyfunc, codec, ttl, args).result.Ok?
    ensures var first := CallSpec(s, fn, keyfunc, codec, ttl, args);
            CallSpec(first.store, fn, keyfunc, codec, ttl, args) == Step(first.result, first.store, false)
  {
    var k := keyfunc(args);
    if k !in s {
      var r := fn(args).value;
      assert codec.loads(codec.dumps(r.value)) == r.value;
    }
  }

  /** `set` stores the encoded value with the wrapper's ttl and nothing else. */
  function SetSpec<A, V>(s: Store, keyfunc: A -> Key, codec: Codec<V>, ttl: int, value: V, args: A): Store {
    s[keyfunc(args) := Entry(codec.dumps(value), ttl)]
  }

  /** `invalidate` deletes the call's key only. */
  function InvalidateSpec<A>(s: Store, keyfunc: A -> Key, args: A): Store {
    s - {keyfunc(args)}
  }

  /** After `set(value, args)` a call with those arguments returns `value`
      without running the function, and `get` returns it when its encoding is
      non-empty. */
  lemma SetThenCall<A, V(!new)>(s: Store, fn: A -> Reply<Ret<V>>, keyfunc: A -> Key, codec: Codec<V>, ttl: int, value: V, args: A)
    requires RoundTrips(codec)
    ensures var s' := SetSpec(s, keyfunc, codec, ttl, value, args);
            CallSpec(s', fn, keyfunc, codec, ttl, args) == Step(Ok(value), s', false) &&
            (Truthy(codec.dumps(value)) ==> GetSpec(s', keyfunc, codec, args) == Some(value))
  {
    assert codec.loads(codec.dumps(value)) == value;
  }

  /** After `invalidate(args)` the next call runs the function, `get` gives
      None, and every other key is untouched. */
  lemma InvalidateThenCall<A, V>(s: Store, fn: A -> Reply<Ret<V>>, keyfunc: A -> Key, codec: Codec<V>, ttl: int, args: A)
    ensures var s' := InvalidateSpec(s, keyfunc, args);
            CallSpec(s', fn, keyfunc, codec, ttl, args).called &&
            GetSpec(s', keyfunc, codec, args) == None &&
            forall k :: k != keyfunc(args) ==> Lookup(s', k) == Lookup(s, k)
  {
  }

  /** `get` and `__call__` disagree on a stored empty value: the call treats
      it as a hit, `get` as absent. */
  lemma EmptyStoredValue<A, V>(s: Store, fn: A -> Reply<Ret<V>>, keyfunc: A -> Key, codec: Codec<V>, ttl: int, args: A)
    requires keyfunc(args) in s && s[keyfunc(args)].value == []
    ensures GetSpec(s, keyfunc, codec, args) == None
    ensures CallSpec(s, fn, keyfunc, codec, ttl, args) == Step(Ok(codec.loads([])), s, false)
  {
  }

  /** `BaseCacheWrapper` and `CacheWrapper`: the wrapped function, the backend,
      the key function, the codec and the ttl, plus the number of times the
      function has run. */
  class CacheWrapper<A, V> {
    const fn: A -> Reply<Ret<V>>
    const cache: MapCache
    const keyfunc: A -> Key
    const codec: Codec<V>
    const ttl: int
    var calls: nat

    constructor (fn: A -> Reply<Ret<V>>, cache: MapCache, keyfunc: A -> Key, codec: Codec<V>, ttl: int)
      ensures this.fn == fn && this.cache == cache && this.keyfunc == keyfunc
      ensures this.codec == codec && this.ttl == ttl && calls == 0
    {
      this.fn := fn;
      this.cache := cache;
      this.keyfunc := keyfunc;
      this.codec := codec;
      this.ttl := ttl;
      calls := 0;
    }

    method Call(args: A) returns (r: Result<V>)
      modifies this, cache
      ensures var st := CallSpec(old(cache.data), fn, keyfunc, codec, ttl, args);
              r == st.result && cache.data == st.store && calls == old(calls) + (if st.called then 1 else 0)
    {
      var k := keyfunc(args);
      var stored := cache.Get(k);
      if stored.None? {
        calls := calls + 1;
        var reply := fn(args);
        if reply.Raised? {
          return Err(FuncRaised);
        }
        var result := reply.value;
        var value, t;
        if result.WithTtl? {
          value, t := result.value, result.ttl;
        } else {
          value, t := result.value, ttl;
        }
        cache.Set(k, codec.dumps(value), t);
        return Ok(value);
      } else {
        return Ok(codec.loads(stored.value));
      }
    }

    method Get(args: A) returns (r: Option<V>)
      ensures r == GetSpec(cache.data, keyfunc, codec, args)
    {
      var stored := cache.Get(keyfunc(args));
      if stored.Some? && Truthy(stored.value) {
        r := Some(codec.loads(stored.value));
      } else {
        r := None;
      }
    }

    method Set(value: V, args: A)
      modifies cache
      ensures cache.data == SetSpec(old(cache.data), keyfunc, codec, ttl, value, args)
    {
      cache.Set(keyfunc(args), codec.dumps(value), ttl);
    }

    method Invalidate(args: A)
      modifies cache
      ensures cache.data == InvalidateSpec(old(cache.data), keyfunc, args)
    {
      cache.Delete(keyfunc(args));
    }
  }

  // ---------------------------------------------------------------------
  // ObjectsCacheWrapper, as functions of the backend contents

  /** The batch key function: one key per id, each the key of its own id. */
  function KeysOf<Id, A>(keyOf: (Id, A) -> Key, ids: seq<Id>, args: A): (keys: seq<Key>)
    ensures |keys| == |ids| && forall i :: 0 <= i < |ids| ==> keys[i] == keyOf(ids[i], args)
  {
    seq(|ids|, i requires 0 <= i < |ids| => keyOf(ids[i], args))
  }

  /** `cresult` after the mget: every id whose key holds a value, decoded. */
  function CachedPart<Id, A, V>(s: Store, keyOf: (Id, A) -> Key, codec: Codec<V>, ids: seq<Id>, args: A): map<Id, V> {
    map id | id in ids && keyOf(id, args) in s :: codec.loads(s[keyOf(id, args)].value)
  }

  /** `ids_to_fetch`: the requested ids that were not cached. */
  function ToFetch<Id, A, V>(s: Store, keyOf: (Id, A) -> Key, codec: Codec<V>, ids: seq<Id>, args: A): set<Id> {
    (set id | id in ids) - CachedPart(s, keyOf, codec, ids, args).Keys
  }

  /** `ObjectsCacheWrapper.__call__`'s result: the cached part, and when ids
      were missing, the function's values for them (and for any other id it
      returned), unwrapped, overriding. */
  function ObjectsCallSpec<Id, A, V>(s: Store, fn: (set<Id>, A) -> Reply<Batch<Id, V>>, keyOf: (Id, A) -> Key,
                                     codec: Codec<V>, ids: seq<Id>, args: A): Result<map<Id, V>> {
    var cached := CachedPart(s, keyOf, codec, ids, args);
    var missing := ToFetch(s, keyOf, codec, ids, args);
    if missing == {} then Ok(cached)
    else match fn(missing, args)
      case Raised => Err(FuncRaised)
      case Returned(fr) => Ok(cached + Unwrapped(fr))
  }

  /** The backend entry each returned id is to be written as. */
  function Writes<Id, V>(codec: Codec<V>, ttl: int, fr: Batch<Id, V>): map<Id, Entry> {
    map id | id in fr :: Entry(codec.dumps(fr[id].value), fr[id].TtlOr(ttl))
  }

  /** The keys of a set of ids. */
  function KeyImage<Id, A>(keyOf: (Id, A) -> Key, args: A, ids: set<Id>): set<Key> {
    set id | id in ids :: keyOf(id, args)
  }

  /** Key `k` is as it was. */
  predicate Unchanged(s0: Store, s: Store, k: Key) {
    (k in s <==> k in s0) && (k in s ==> s[k] == s0[k])
  }

  /** `s` is `s0` after writing the entries `w`, one key per id, in some
      order: keys of no id are untouched, and each written key holds the entry
      of some id with that key (of the id itself when keys are distinct). */
  ghost predicate WrittenBack<Id, A>(s0: Store, s: Store, keyOf: (Id, A) -> Key, args: A, w: map<Id, Entry>) {
    KeepsOthers(s0, s, keyOf, args, w.Keys) && HoldsWritten(s, keyOf, args, w)
  }

  /** Keys of none of `ids` are untouched. */
  ghost predicate KeepsOthers<Id, A>(s0: Store, s: Store, keyOf: (Id, A) -> Key, args: A, ids: set<Id>) {
    forall k :: k !in KeyImage(keyOf, args, ids) ==> Unchanged(s0, s, k)
  }

  /** Key `k` holds the entry of some id of `w` whose key it is. */
  ghost predicate HoldsAt<Id, A>(s: Store, keyOf: (Id, A) -> Key, args: A, w: map<Id, Entry>, k: Key) {
    k in s && exists id2 :: id2 in w && keyOf(id2, args) == k && s[k] == w[id2]
  }

  /** Every id's key holds the entry of some id with that key. */
  ghost predicate HoldsWritten<Id, A>(s: Store, keyOf: (Id, A) -> Key, args: A, w: map<Id, Entry>) {
    forall id :: id in w ==> HoldsAt(s, keyOf, args, w, keyOf(id, args))
  }

  /** With distinct keys per id, the write-back stores exactly each id's entry. */
  lemma WrittenBackInjective<Id, A>(s0: Store, s: Store, keyOf: (Id, A) -> Key, args: A, w: map<Id, Entry>)
    requires WrittenBack(s0, s, keyOf, args, w)
    requires forall i, j :: i in w && j in w && keyOf(i, args) == keyOf(j, args) ==> i == j
    ensures forall id :: id in w ==> keyOf(id, args) in s && s[keyOf(id, args)] == w[id]
  {
  }

  /** The cached part is exactly the requested ids whose key is stored. */
  lemma CachedPartAt<Id, A, V>(s: Store, keyOf: (Id, A) -> Key, codec: Codec<V>, ids: seq<Id>, args: A, i: nat)
    requires i < |ids|
    ensures ids[i] in CachedPart(s, keyOf, codec, ids, args) <==> keyOf(ids[i], args) in s
    ensures keyOf(ids[i], args) in s ==>
              CachedPart(s, keyOf, codec, ids, args)[ids[i]] == codec.loads(s[keyOf(ids[i], args)].value)
    ensures ids[i] in ToFetch(s, keyOf, codec, ids, args) <==> keyOf(ids[i], args) !in s
  {
  }

  /** A full hit runs nothing and returns one decoded value per requested id. */
  lemma FullHit<Id, A, V>(s: Store, fn: (set<Id>, A) -> Reply<Batch<Id, V>>, keyOf: (Id, A) -> Key,
                          codec: Codec<V>, ids: seq<Id>, args: A)
    requires forall i :: 0 <= i < |ids| ==> keyOf(ids[i], args) in s
    ensures ToFetch(s, keyOf, codec, ids, args) == {}
    ensures ObjectsCallSpec(s, fn, keyOf, codec, ids, args) == Ok(CachedPart(s, keyOf, codec, ids, args))
    ensures CachedPart(s, keyOf, codec, ids, args).Keys == set id | id in ids
  {
    var c := CachedPart(s, keyOf, codec, ids, args);
    forall id | id in ids
      ensures id in c
    {
      var i :| 0 <= i < |ids| && ids[i] == id;
    }
  }

  /** What a successful batch call returns: an id is in the result exactly when
      it was cached or the function returned it; the function's value wins;
      requested ids the function omitted stay absent. */
  lemma ObjectsResultContents<Id, A, V>(s: Store, fn: (set<Id>, A) -> Reply<Batch<Id, V>>, keyOf: (Id, A) -> Key,
                                        codec: Codec<V>, ids: seq<Id>, args: A)
    requires ObjectsCallSpec(s, fn, keyOf, codec, ids, args).Ok?
    ensures var m := ObjectsCallSpec(s, fn, keyOf, codec, ids, args).value;
            var cached := CachedPart(s, keyOf, codec, ids, args);
            var missing := ToFetch(s, keyOf, codec, ids, args);
            var fr := if missing == {} then map[] else fn(missing, args).value;
            (forall id :: id in m <==> id in cached || id in fr) &&
            (forall id :: id in fr ==> m[id] == fr[id].value) &&
            (forall id :: id in cached && id !in fr ==> m[id] == cached[id])
  {
  }

  /** With round-tripping codec and distinct keys, ids the function returned
      are hits on the next call, with the values it returned. */
  lemma WriteBackThenHit<Id, A, V(!new)>(s0: Store, s: Store, keyOf: (Id, A) -> Key, codec: Codec<V>, ttl: int,
                                          fr: Batch<Id, V>, ids: seq<Id>, args: A)
    requires RoundTrips(codec)
    requires WrittenBack(s0, s, keyOf, args, Writes(codec, ttl, fr))
    requires forall i, j :: i in fr && j in fr && keyOf(i, args) == keyOf(j, args) ==> i == j
    ensures forall id :: id in ids && id in fr ==>
              id in CachedPart(s, keyOf, codec, ids, args) && CachedPart(s, keyOf, codec, ids, args)[id] == fr[id].value
  {
    var w := Writes(codec, ttl, fr);
    WrittenBackInjective(s0, s, keyOf, args, w);
    forall id | id in ids && id in fr
      ensures codec.loads(s[keyOf(id, args)].value) == fr[id].value
    {
      assert s[keyOf(id, args)] == w[id];
      assert codec.loads(codec.dumps(fr[id].value)) == fr[id].value;
    }
  }

  // ---------------------------------------------------------------------
  // Proof steps of the write-back

  /** The returned entries whose ttl is among `ts`. */
  /** Taking one element out of the work list adds it to what is done. */
  lemma MoveToDone<T>(all: set<T>, todo: set<T>, t: T)
    requires t in todo && todo <= all
    ensures all - (todo - {t}) == (all - todo) + {t}
  {
  }

  function Select<Id, V>(fr: Batch<Id, V>, ttl: int, ts: set<int>): map<Id, V> {
    map id | id in fr && fr[id].TtlOr(ttl) in ts :: fr[id].value
  }

  /** The backend entries of the returned ids whose ttl is among `ts`. */
  function WritesIn<Id, V>(codec: Codec<V>, ttl: int, fr: Batch<Id, V>, ts: set<int>): map<Id, Entry> {
    map id | id in fr && fr[id].TtlOr(ttl) in ts :: Entry(codec.dumps(fr[id].value), fr[id].TtlOr(ttl))
  }

  /** A bucket of the corrected split is the selection of its ttl. */
  lemma BucketIsSelect<Id, V>(fr: Batch<Id, V>, ttl: int, t: int)
    requires t in AggExpire(fr, ttl)
    ensures AggExpire(fr, ttl)[t] == Select(fr, ttl, {t})
  {
    var b := AggExpire(fr, ttl)[t];
    var sel := Select(fr, ttl, {t});
    CorrectedIsSound(fr, ttl);
    AggExpireFilesEveryEntry(fr, ttl);
    forall id | id in b
      ensures id in sel && sel[id] == b[id]
    {
    }
    forall id | id in sel
      ensures id in b
    {
      assert fr[id].TtlOr(ttl) == t;
    }
    assert b.Keys == sel.Keys;
  }

  /** The pairs `zip(keys, values)` that write `entries` for the ids `bids`. */
  function PairsOf<Id, A>(keyOf: (Id, A) -> Key, args: A, entries: map<Id, Entry>, bids: seq<Id>): (pairs: seq<(Key, Bytes)>)
    requires forall i :: 0 <= i < |bids| ==> bids[i] in entries
    ensures |pairs| == |bids|
    ensures forall i :: 0 <= i < |bids| ==> pairs[i] == (keyOf(bids[i], args), entries[bids[i]].value)
  {
    seq(|bids|, i requires 0 <= i < |bids| => (keyOf(bids[i], args), entries[bids[i]].value))
  }

  /** Writing one more bucket leaves keys of neither bucket untouched. */
  lemma StepKeepsOthers<Id, A>(s0: Store, s1: Store, keyOf: (Id, A) -> Key, args: A,
                               done: set<Id>, entries: map<Id, Entry>, bids: seq<Id>, t: int)
    requires KeepsOthers(s0, s1, keyOf, args, done)
    requires (set id | id in bids) == entries.Keys
    ensures KeepsOthers(s0, SetAll(s1, PairsOf(keyOf, args, entries, bids), t), keyOf, args, done + entries.Keys)
  {
    var pairs := PairsOf(keyOf, args, entries, bids);
    forall k | k !in KeyImage(keyOf, args, done + entries.Keys)
      ensures Unchanged(s0, SetAll(s1, pairs, t), k)
    {
      SetAllAt(s1, pairs, t, k);
      assert k !in KeyImage(keyOf, args, done);
      forall j | 0 <= j < |pairs|
        ensures pairs[j].0 != k
      {
        assert bids[j] in entries;
      }
    }
  }

  /** Writing one more bucket: a key it writes holds one of its entries. */
  lemma StepHoldsNew<Id, A>(s1: Store, keyOf: (Id, A) -> Key, args: A,
                            w1: map<Id, Entry>, entries: map<Id, Entry>, bids: seq<Id>, t: int, id: Id)
    requires (set id | id in bids) == entries.Keys
    requires forall id :: id in entries ==> entries[id].ttl == t
    requires id in entries
    ensures HoldsAt(SetAll(s1, PairsOf(keyOf, args, entries, bids), t), keyOf, args, w1 + entries, keyOf(id, args))
  {
    var pairs := PairsOf(keyOf, args, entries, bids);
    var k := keyOf(id, args);
    var i :| 0 <= i < |bids| && bids[i] == id;
    assert pairs[i].0 == k;
    SetAllAt(s1, pairs, t, k);
    var j :| 0 <= j < |pairs| && pairs[j].0 == k && SetAll(s1, pairs, t)[k] == Entry(pairs[j].1, t);
    assert bids[j] in entries;
    assert (w1 + entries)[bids[j]] == entries[bids[j]];
  }

  /** Writing one more bucket: a key only an earlier bucket wrote still holds
      what it held. */
  lemma StepHoldsOld<Id, A>(s1: Store, keyOf: (Id, A) -> Key, args: A,
                            w1: map<Id, Entry>, entries: map<Id, Entry>, bids: seq<Id>, t: int, id: Id)
    requires HoldsWritten(s1, keyOf, args, w1)
    requires w1.Keys !! entries.Keys
    requires (set id | id in bids) == entries.Keys
    requires forall id :: id in entries ==> entries[id].ttl == t
    requires id in w1
    ensures HoldsAt(SetAll(s1, PairsOf(keyOf, args, entries, bids), t), keyOf, args, w1 + entries, keyOf(id, args))
  {
    var pairs := PairsOf(keyOf, args, entries, bids);
    var k := keyOf(id, args);
    if exists j :: 0 <= j < |pairs| && pairs[j].0 == k {
      var j :| 0 <= j < |pairs| && pairs[j].0 == k;
      StepHoldsNew(s1, keyOf, args, w1, entries, bids, t, bids[j]);
    } else {
      SetAllAt(s1, pairs, t, k);
      assert HoldsAt(s1, keyOf, args, w1, k);
      var id2 :| id2 in w1 && keyOf(id2, args) == k && s1[k] == w1[id2];
      assert (w1 + entries)[id2] == w1[id2];
    }
  }

  /** Writing one more bucket, key by key, extends a write-back. */
  lemma WrittenBackStep<Id, A>(s0: Store, s1: Store, keyOf: (Id, A) -> Key, args: A,
                               w1: map<Id, Entry>, entries: map<Id, Entry>, bids: seq<Id>, t: int)
    requires WrittenBack(s0, s1, keyOf, args, w1)
    requires w1.Keys !! entries.Keys
    requires (set id | id in bids) == entries.Keys
    requires forall id :: id in entries ==> entries[id].ttl == t
    ensures WrittenBack(s0, SetAll(s1, PairsOf(keyOf, args, entries, bids), t), keyOf, args, w1 + entries)
  {
    var s2 := SetAll(s1, PairsOf(keyOf, args, entries, bids), t);
    StepKeepsOthers(s0, s1, keyOf, args, w1.Keys, entries, bids, t);
    assert (w1 + entries).Keys == w1.Keys + entries.Keys;
    forall id | id in w1 + entries
      ensures HoldsAt(s2, keyOf, args, w1 + entries, keyOf(id, args))
    {
      if id in entries {
        StepHoldsNew(s1, keyOf, args, w1, entries, bids, t, id);
      } else {
        StepHoldsOld(s1, keyOf, args, w1, entries, bids, t, id);
      }
    }
  }

  /** The backend entries of one bucket written with ttl `t`. */
  function EntriesOf<Id, V>(codec: Codec<V>, bucket: map<Id, V>, t: int): (e: map<Id, Entry>)
    ensures e.Keys == bucket.Keys
    ensures forall id :: id in e ==> e[id] == Entry(codec.dumps(bucket[id]), t)
  {
    map id | id in bucket :: Entry(codec.dumps(bucket[id]), t)
  }

  /** One more bucket extends both the merged result and the written entries. */
  lemma SelectStep<Id, V>(codec: Codec<V>, fr: Batch<Id, V>, ttl: int, done: set<int>, t: int)
    requires t !in done
    ensures Select(fr, ttl, done) + Select(fr, ttl, {t}) == Select(fr, ttl, done + {t})
    ensures WritesIn(codec, ttl, fr, done) + EntriesOf(codec, Select(fr, ttl, {t}), t) == WritesIn(codec, ttl, fr, done + {t})
    ensures WritesIn(codec, ttl, fr, done).Keys !! Select(fr, ttl, {t}).Keys
  {
    var e := EntriesOf(codec, Select(fr, ttl, {t}), t);
    assert WritesIn(codec, ttl, fr, done) + e == WritesIn(codec, ttl, fr, done + {t});
  }

  /** One bucket's mset extends the write-back and the merged result. */
  lemma BucketStep<Id, A, V>(s0: Store, s1: Store, keyOf: (Id, A) -> Key, args: A, codec: Codec<V>,
                             fr: Batch<Id, V>, ttl: int, done: set<int>, t: int, bids: seq<Id>)
    requires t !in done
    requires WrittenBack(s0, s1, keyOf, args, WritesIn(codec, ttl, fr, done))
    requires (set id | id in bids) == Select(fr, ttl, {t}).Keys
    ensures var pairs := PairsOf(keyOf, args, EntriesOf(codec, Select(fr, ttl, {t}), t), bids);
            WrittenBack(s0, SetAll(s1, pairs, t), keyOf, args, WritesIn(codec, ttl, fr, done + {t}))
    ensures Select(fr, ttl, done) + Select(fr, ttl, {t}) == Select(fr, ttl, done + {t})
  {
    SelectStep(codec, fr, ttl, done, t);
    WrittenBackStep(s0, s1, keyOf, args, WritesIn(codec, ttl, fr, done), EntriesOf(codec, Select(fr, ttl, {t}), t), bids, t);
  }

  lemma UnionAssoc<K, V>(a: map<K, V>, b: map<K, V>, c: map<K, V>)
    ensures (a + b) + c == a + (b + c)
  {
  }

  /** Selecting every ttl of the split selects everything. */
  lemma SelectAll<Id, V>(codec: Codec<V>, fr: Batch<Id, V>, ttl: int)
    ensures Select(fr, ttl, AggExpire(fr, ttl).Keys) == Unwrapped(fr)
    ensures WritesIn(codec, ttl, fr, AggExpire(fr, ttl).Keys) == Writes(codec, ttl, fr)
  {
    AggExpireFilesEveryEntry(fr, ttl);
  }

  /** `iteritems(m)` split into its ids, in some order. */
  method Items<K, V>(m: map<K, V>) returns (ks: seq<K>)
    ensures (set k | k in ks) == m.Keys
  {
    ks := [];
    var todo := m.Keys;
    while todo != {}
      invariant todo <= m.Keys
      invariant (set k | k in ks) == m.Keys - todo
      decreases |todo|
    {
      var k :| k in todo;
      assert (set x | x in ks + [k]) == (set x | x in ks) + {k};
      ks := ks + [k];
      todo := todo - {k};
    }
  }

  /** `ObjectsCacheWrapper`: the batch wrapper. The key function maps a list
      of ids to one key per id; the wrapped function takes the set of missing
      ids and returns a map from id to value or `_Expire`. */
  class ObjectsCacheWrapper<Id(==), A, V> {
    const fn: (set<Id>, A) -> Reply<Batch<Id, V>>
    const cache: MapCache
    const keyOf: (Id, A) -> Key
    const codec: Codec<V>
    const ttl: int
    /** The id sets the wrapped function has been called with, in order. */
    var fetched: seq<set<Id>>

    constructor (fn: (set<Id>, A) -> Reply<Batch<Id, V>>, cache: MapCache, keyOf: (Id, A) -> Key, codec: Codec<V>, ttl: int)
      ensures this.fn == fn && this.cache == cache && this.keyOf == keyOf
      ensures this.codec == codec && this.ttl == ttl && fetched == []
    {
      this.fn := fn;
      this.cache := cache;
      this.keyOf := keyOf;
      this.codec := codec;
      this.ttl := ttl;
      fetched := [];
    }

    /** `__call__(ids, *args)`. */
    method Call(ids: seq<Id>, args: A) returns (r: Result<map<Id, V>>)
      modifies this, cache
      ensures r == ObjectsCallSpec(old(cache.data), fn, keyOf, codec, ids, args)
      ensures var missing := ToFetch(old(cache.data), keyOf, codec, ids, args);
              fetched == old(fetched) + (if missing == {} then [] else [missing])
      ensures var missing := ToFetch(old(cache.data), keyOf, codec, ids, args);
              if missing != {} && fn(missing, args).Returned? then
                WrittenBack(old(cache.data), cache.data, keyOf, args, Writes(codec, ttl, fn(missing, args).value))
              else cache.data == old(cache.data)
    {
      var cresult := Lookup(ids, args);
      var missing := (set id | id in ids) - cresult.Keys;
      if missing == {} {
        return Ok(cresult);
      }
      fetched := fetched + [missing];
      var reply := fn(missing, args);
      if reply.Raised? {
        return Err(FuncRaised);
      }
      var fresult := reply.value;
      if fresult != map[] {
        cresult := WriteBack(cresult, fresult, args);
      } else {
        assert cresult + Unwrapped(fresult) == cresult;
        assert Writes(codec, ttl, fresult) == map[];
      }
      return Ok(cresult);
    }

    /** The mget of lines 46-51: skipped for no ids; otherwise the values,
        zipped with the ids, decoded where present. */
    method Lookup(ids: seq<Id>, args: A) returns (cresult: map<Id, V>)
      ensures cresult == CachedPart(cache.data, keyOf, codec, ids, args)
    {
      var keys := KeysOf(keyOf, ids, args);
      cresult := map[];
      if |keys| > 0 {
        var values := cache.MGet(keys);
        var i := 0;
        while i < |ids|
          invariant 0 <= i <= |ids|
          invariant cresult == CachedPart(cache.data, keyOf, codec, ids[..i], args)
        {
          assert ids[..i + 1] == ids[..i] + [ids[i]];
          if values[i].Some? {
            cresult := cresult[ids[i] := codec.loads(values[i].value)];
          }
          i := i + 1;
        }
        assert ids[..i] == ids;
      }
    }

    /** Lines 56-65: one mset per bucket of the (corrected) ttl split, with the
        bucket's ttl, and the bucket's values merged into the result. */
    method WriteBack(cresult0: map<Id, V>, fr: Batch<Id, V>, args: A) returns (cresult: map<Id, V>)
      requires fr != map[]
      modifies cache
      ensures cresult == cresult0 + Unwrapped(fr)
      ensures WrittenBack(old(cache.data), cache.data, keyOf, args, Writes(codec, ttl, fr))
    {
      ghost var s0 := cache.data;
      var buckets := Split(fr);
      cresult := cresult0;
      var todo := buckets.Keys;
      NothingSelected(s0, cresult0, fr, args);
      while todo != {}
        invariant todo <= buckets.Keys
        invariant cresult == cresult0 + Select(fr, ttl, buckets.Keys - todo)
        invariant WrittenBack(s0, cache.data, keyOf, args, WritesIn(codec, ttl, fr, buckets.Keys - todo))
        decreases |todo|
      {
        var t :| t in todo;
        cresult := WriteBucket(s0, cresult0, cresult, fr, buckets.Keys - todo, t, buckets[t], args);
        MoveToDone(buckets.Keys, todo, t);
        todo := todo - {t};
      }
      assert buckets.Keys - todo == buckets.Keys;
    }

    /** Before the first bucket: nothing merged, nothing written. */
    lemma NothingSelected(s0: Store, cresult0: map<Id, V>, fr: Batch<Id, V>, args: A)
      ensures cresult0 == cresult0 + Select(fr, ttl, {})
      ensures WrittenBack(s0, s0, keyOf, args, WritesIn(codec, ttl, fr, {}))
    {
      assert Select(fr, ttl, {}) == map[];
      assert WritesIn(codec, ttl, fr, {}) == map[];
    }

    /** `agg_expire(result, self.ttl)`, whose buckets together select every
        returned entry. */
    method Split(fr: Batch<Id, V>) returns (buckets: Buckets<Id, V>)
      ensures buckets == AggExpire(fr, ttl)
      ensures Select(fr, ttl, buckets.Keys) == Unwrapped(fr)
      ensures WritesIn(codec, ttl, fr, buckets.Keys) == Writes(codec, ttl, fr)
    {
      buckets := Aggregate(fr, ttl);
      SelectAll(codec, fr, ttl);
    }

    /** Lines 60-65 for one bucket: the mset of its ids' keys and encoded
        values with the bucket's ttl, then the bucket merged into the result. */
    method WriteBucket(ghost s0: Store, ghost cresult0: map<Id, V>, cresult: map<Id, V>, ghost fr: Batch<Id, V>,
                       ghost done: set<int>, t: int, bucket: map<Id, V>, args: A) returns (cresult': map<Id, V>)
      requires t !in done && t in AggExpire(fr, ttl) && bucket == AggExpire(fr, ttl)[t]
      requires cresult == cresult0 + Select(fr, ttl, done)
      requires WrittenBack(s0, cache.data, keyOf, args, WritesIn(codec, ttl, fr, done))
      modifies cache
      ensures cresult' == cresult0 + Select(fr, ttl, done + {t})
      ensures WrittenBack(s0, cache.data, keyOf, args, WritesIn(codec, ttl, fr, done + {t}))
    {
      BucketIsSelect(fr, ttl, t);
      var bids, pairs := BucketPairs(bucket, t, args);
      BucketStep(s0, cache.data, keyOf, args, codec, fr, ttl, done, t, bids);
      UnionAssoc(cresult0, Select(fr, ttl, done), bucket);
      cache.MSet(pairs, t);
      cresult' := cresult + bucket;
    }

    /** Lines 60-63: the bucket's ids and values, the ids' keys, zipped. */
    method BucketPairs(bucket: map<Id, V>, t: int, args: A) returns (bids: seq<Id>, pairs: seq<(Key, Bytes)>)
      ensures (set id | id in bids) == bucket.Keys
      ensures pairs == PairsOf(keyOf, args, EntriesOf(codec, bucket, t), bids)
    {
      bids := Items(bucket);
      var keys := KeysOf(keyOf, bids, args);
      assert forall i :: 0 <= i < |bids| ==> bids[i] in bucket;
      var values := seq(|bids|, i requires 0 <= i < |bids| => codec.dumps(bucket[bids[i]]));
      pairs := seq(|bids|, i requires 0 <= i < |bids| => (keys[i], values[i]));
    }

    /** `invalidate(ids, *args)`: multi-deletes the ids' keys only. */
    method Invalidate(ids: seq<Id>, args: A)
      modifies cache
      ensures cache.data == old(cache.data) - (set id | id in ids :: keyOf(id, args))
    {
      var keys := KeysOf(keyOf, ids, args);
      cache.MDelete(keys);
      assert (set k | k in keys) == (set id | id in ids :: keyOf(id, args)) by {
        forall id | id in ids
          ensures keyOf(id, args) in keys
        {
          var i :| 0 <= i < |ids| && ids[i] == id;
          assert keys[i] == keyOf(id, args);
        }
      }
    }

    /** `one(id, *args, _default=default)`: the batch call for `[id]`, then
        the id's value or the default. */
    method One(id: Id, args: A, default: Option<V>) returns (r: Result<Option<V>>)
      modifies this, cache
      ensures var m := ObjectsCallSpec(old(cache.data), fn, keyOf, codec, [id], args);
              r == (if m.Ok? then Ok(if id in m.value then Some(m.value[id]) else default) else Err(m.error))
      ensures var missing := ToFetch(old(cache.data), keyOf, codec, [id], args);
              fetched == old(fetched) + (if missing == {} then [] else [missing])
    {
      var m := Call([id], args);
      if m.Ok? {
        r := Ok(if id in m.value then Some(m.value[id]) else default);
      } else {
        r := Err(m.error);
      }
    }
  }
}

# cachel, modelled in Dafny

cachel memoizes function results in a key/value backend. A decorator
compiles a key template (`'user:{}'`, `'{foo}-{boo}'`) against the
decorated function's signature. The result is a key function, and the
decorated call then consults the backend before calling the function.

There are three variants:

- **`make_cache`** (cachel/simple.py) has one backend. `CacheWrapper` holds
  single keys. `ObjectsCacheWrapper` holds batches of ids: it fetches only
  the ids it has no entry for and writes them back grouped by ttl.
  `agg_expire` does the grouping.
- **`make_local_cache`** (cachel/local.py) has two tiers. Tier 1 is a short
  local cache. Tier 2 holds `b'<expire>:' + payload`. A stale tier-2 entry is
  still served, and the caller refreshes it in line (`default_refresh`) or
  through a custom `refresh`.
- **`make_offload_cache`** (cachel/offload.py) is the same two-tier protocol,
  but it hands a stale entry to an offload function. `default_offload` runs
  the function now. `offloader` sends a message out instead, and
  `offload_params` dispatches that message later to the wrapper registered
  under the message's cache id.

## How the model is built

- **Values and pure logic** are datatypes and functions. This covers the
  template compiler, the ttl jitter, the ttl buckets, tier-2 encoding and the
  decision table of a two-tier call.
- **Objects the source mutates** are classes with `modifies` clauses:
  - the backend (`Backend.MapCache`, a map from key to stored bytes and ttl);
  - each wrapper, with a call counter recording how often the decorated
    function ran;
  - the offload factory's registry of wrappers;
  - the outbox an `offloader` sends through.
- **Methods** ensure that the new state and the result equal a
  specification function of the old state. The lemmas about those functions
  carry the properties.
- **Things from outside** are parameters:
  - the clock is a `now: real` argument, read once per call;
  - the decorated function is a total function returning a value, a value
    with its own ttl, or an exception;
  - the serializer is a `Codec` (`dumps`/`loads`), and `RoundTrips(codec)`
    is assumed where a lemma needs it;
  - `get_serializer` is a table and `get_expire` a function.

Where the source and the intent disagree, the model states the code as
written, shows the discrepancy, and then uses the corrected definition (see
"## Findings").

## Model

| member | source | states |
|---|---|---|
| Backend.MapCache.constructor | tests/helpers.py:5-6 | a new backend holds no entries |
| Backend.MapCache.Get | tests/helpers.py:11-15 | returns the stored bytes exactly when the key is present |
| Backend.MapCache.Set | tests/helpers.py:8-9 | the key maps to the given bytes and ttl; every other key is unchanged |
| Backend.MapCache.Delete | tests/helpers.py:17-18 | removes exactly that key; a missing key changes nothing |
| Backend.MapCache.MGet | cachel/_async_base.py:17-27 | one answer per key, in order, each the lookup of that key |
| Backend.MapCache.MSet | cachel/_async_base.py:29-31 | the store afterwards is the old store with the pairs written in order, all with the one ttl |
| Backend.MapCache.MDelete | cachel/_async_base.py:33-35 | removes exactly the listed keys |
| Backend.SetAllAt | cachel/_async_base.py:29-31 | after a batch write, a key in no pair is untouched, and a named key holds the value of the last pair naming it, with the batch ttl |
| WireFormat.Trunc | cachel/local.py:65 | `int()` of a float truncates toward zero, for both signs |
| WireFormat.DigitsRoundTrip | cachel/local.py:65-69 | the decimal digits of a natural number are non-empty, all digits, and parse back to the number |
| WireFormat.DecimalRoundTrip | cachel/local.py:62-69 | `int(str(n))` is `n` for every integer, and the text has no colon |
| WireFormat.FirstColon | cachel/local.py:61 | finds the first `:`, with no colon before it, or reports that there is none |
| WireFormat.Partition | cachel/local.py:61 | `bytes.partition(b':')`: the head has no colon and head + `:` + tail is the input; without a colon the tail is empty |
| WireFormat.Loads2 | cachel/local.py:60-62 | parses the head as the expiry and returns the tail; fails exactly when the head is not an integer |
| WireFormat.Loads2Dumps2 | cachel/local.py:60-69 | `loads2(dumps2(data))` gives back `int(now + ttl1)` and the payload unchanged, whatever bytes the payload holds |
| WireFormat.PrefixSplit | cachel/local.py:61 | the split at the first colon is unique |
| WireFormat.FirstColonAt | cachel/local.py:61 | a colon with none before it is the one `partition` splits at |
| WireFormat.Loads2WithoutSeparator | cachel/local.py:60-62 | bytes with no colon parse whole as the expiry, with an empty payload |
| WireFormat.Loads2Empty | cachel/local.py:60-62 | empty tier-2 bytes are an error (`int('')` raises) |
| KeyTemplate.FirstUnknown | cachel/base.py:52-54 | the first field naming no parameter; none exactly when every named field is a parameter |
| KeyTemplate.IndexOf | cachel/base.py:75 | `args.index(name)`: the first position holding the name |
| KeyTemplate.FindUnknown | cachel/base.py:52-54 | the assertion loop finds the first unknown field name |
| KeyTemplate.SegmentStep | cachel/base.py:69-81 | one step of the template loop: the pieces of one segment; the unnamed counter moves only on `{}` |
| KeyTemplate.CompileFields | cachel/base.py:66-81 | the template loop computes the pieces and target list of the compile function |
| KeyTemplate.CompileSucceeds | cachel/base.py:77-80 | compilation succeeds exactly when the unnamed fields do not outnumber the parameters |
| KeyTemplate.CompileInRange | cachel/base.py:66-81 | every compiled field and every target refers to an existing parameter |
| KeyTemplate.MakeKeyFunc | cachel/base.py:37-85 | the method computes the key function the specification function describes |
| KeyTemplate.CallableIsKept | cachel/base.py:38-39 | a callable template is the key function itself |
| KeyTemplate.ConstantIgnoresArguments | cachel/base.py:41-43 | a template with no field gives the same key for every call |
| KeyTemplate.TextCompilation | cachel/base.py:45-54 | varargs are refused; an unknown name is refused with that name and the valid names; otherwise the template compiles exactly when the unnamed fields fit |
| KeyTemplate.BindFrom | cachel/base.py:56-63 | binds each remaining parameter from positional, keyword or default values, or fails if one cannot be bound |
| KeyTemplate.Bind | cachel/base.py:56-63 | binding the generated lambda's arguments succeeds exactly when Python's call would, and yields each parameter's value |
| KeyTemplate.BindPositional | cachel/base.py:84-85 | a full positional call binds every parameter to its argument |
| KeyTemplate.SegmentMeansText | cachel/base.py:69-81 | a compiled segment renders to its literal followed by the value of the parameter it names |
| KeyTemplate.CompileMeansReference | cachel/base.py:66-85 | the compiled pieces format to the reference rendering of the template |
| KeyTemplate.CompiledKeyIsReference | cachel/base.py:37-85 | for any call that binds, the key is the template with each field replaced by the value of the parameter it names |
| KeyTemplate.AsWrittenAgreesInOrder | cachel/base.py:81-85 | when fields name parameters in signature order, the as-written key function agrees with the corrected one |
| KeyTemplate.FormatPrefixArgs | cachel/base.py:84-85 | formatting reads only the arguments the fields refer to |
| KeyTemplate.DefaultCarriesIntoKey | tests/test_base.py:22-23 | `'{foo}'` on `foo=20` called with no argument gives `'20'` |
| KeyTemplate.SwappedCompiles | cachel/base.py:66-81 | `'{boo}-{foo}'` on `f(foo, boo)` compiles to fields 1 and 0 with targets `[boo, foo]` |
| KeyTemplate.SwappedFieldsAsWritten | cachel/base.py:81-85 | as written, `'{boo}-{foo}'` on `f(10, 20)` gives `'10-20'`, and the corrected function gives `'20-10'` |
| KeyTemplate.SwappedFieldsReference | tests/test_base.py:28-29 | the reference rendering of `'{boo}-{foo}'` with foo=10, boo=20 is `'20-10'` |
| KeyTemplate.SecondParameterAloneAsWritten | cachel/base.py:81-85 | as written, `'{boo}'` on `f(foo, boo)` makes an index error at call time; corrected, it gives the value of `boo` |
| KeyTemplate.FloorDiv | cachel/base.py:32-33 | integer `/` floors: the quotient times the divisor brackets the dividend, for both signs |
| KeyTemplate.GenExpire | cachel/base.py:31-34 | the result lies in `[e - e/spread, e + e/spread]`; an empty range or a zero spread raises |
| KeyTemplate.JitterAroundNominal | cachel/base.py:31-34 | for a positive spread the range is symmetric around the nominal ttl, non-negative, and its half-width times the spread is at most the ttl |
| KeyTemplate.DefaultJitterOfTen | tests/test_base.py:39-40 | `gen_expire(10)` lies in `[9, 11]` |
| KeyTemplate.SmallTtlIsExact | cachel/base.py:31-34 | a ttl below the spread is not jittered |
| TtlBuckets.CustomSpecAt | cachel/wrappers/__init__.py:20-23 | custom-ttl entries sit in their ttl's bucket; every bucket entry is such an entry; no custom bucket is empty |
| TtlBuckets.BucketsExt | cachel/wrappers/__init__.py:20-23 | bucket maps with the same entries and no empty bucket are equal |
| TtlBuckets.CustomStep | cachel/wrappers/__init__.py:21-23 | one loop step: a plain value changes nothing; a custom one is added to its ttl's bucket (`setdefault`) |
| TtlBuckets.CollectCustom | cachel/wrappers/__init__.py:20-23 | the loop builds the custom buckets |
| TtlBuckets.Aggregate | cachel/wrappers/__init__.py:15-28 | the method computes the corrected `agg_expire` |
| TtlBuckets.FastPathTest | cachel/wrappers/__init__.py:16-17 | `len(dttl) == len(result)` holds exactly when no entry has a custom ttl |
| TtlBuckets.SplitAt | cachel/wrappers/__init__.py:15-28 | the three branches, as written and corrected: fast path, custom entries only, and mixed entries |
| TtlBuckets.FastPath | cachel/wrappers/__init__.py:17-18 | with no custom ttl, everything goes in one bucket under the default ttl |
| TtlBuckets.DefaultBucket | cachel/wrappers/__init__.py:25-26 | the default bucket exists exactly when there are plain entries or a custom ttl equal to the default; corrected, it holds every plain entry |
| TtlBuckets.BucketsAreSound | cachel/wrappers/__init__.py:15-28 | both versions put each entry only under its own ttl, with its unwrapped value |
| TtlBuckets.AsWrittenIsSound | cachel/wrappers/__init__.py:15-28 | as written, every bucket entry comes from the input under its own ttl |
| TtlBuckets.CorrectedIsSound | cachel/wrappers/__init__.py:15-28 | corrected, every bucket entry comes from the input under its own ttl |
| TtlBuckets.BucketsAreDisjoint | cachel/wrappers/__init__.py:15-28 | no id appears in two buckets |
| TtlBuckets.BucketsAreNonEmpty | cachel/wrappers/__init__.py:15-28 | for a non-empty input, no bucket is empty (each is unpacked by `zip(*…)` in the caller) |
| TtlBuckets.AggExpireFilesEveryEntry | cachel/wrappers/__init__.py:15-28 | corrected, every entry is filed under its ttl with its value |
| TtlBuckets.AggExpireCovers | cachel/wrappers/__init__.py:15-28 | corrected, the buckets together hold exactly the input's ids |
| TtlBuckets.AsWrittenCoverage | cachel/wrappers/__init__.py:25-26 | as written, the buckets cover the input exactly when no custom ttl equals the default while plain entries exist |
| TtlBuckets.CollisionDropsEntry | cachel/wrappers/__init__.py:26 | as written, `{1: expire('a', 10), 2: 'b'}` with default 10 loses id 1 |
| TtlBuckets.CollisionKeepsEntry | cachel/wrappers/__init__.py:15-28 | corrected, both ids land in bucket 10 with their values |
| TtlBuckets.WrapperFlags | cachel/wrappers/__init__.py:31-33 | the flag table: `fn`, `cache`, and `call` = either |
| TtlBuckets.SyncOnlyWhenBothSync | cachel/wrappers/__init__.py:32 | the call is synchronous exactly when both the function and the cache are |
| SimpleWrappers.GetSpec | cachel/wrappers/wrappers_t.py:23-27 | `get` decodes the stored bytes exactly when they are present and non-empty |
| SimpleWrappers.HitServesStored | cachel/wrappers/wrappers_t.py:10-21 | a hit returns the decoded entry, leaves the store unchanged and does not call the function |
| SimpleWrappers.MissStoresResult | cachel/wrappers/wrappers_t.py:12-19 | a miss calls the function; a raise stores nothing; a value is stored under the wrapper's ttl, or under its own ttl when it carries one, and is returned unwrapped |
| SimpleWrappers.SecondCallHits | tests/test_simple.py:16-23 | after a successful call, the same call returns the same result without running the function |
| SimpleWrappers.SetThenCall | tests/test_simple.py:36-39 | after `set(v)`, the call returns `v` without running the function |
| SimpleWrappers.InvalidateThenCall | tests/test_simple.py:28-34 | after `invalidate`, `get` is None, the next call runs the function, and other keys are unchanged |
| SimpleWrappers.EmptyStoredValue | cachel/wrappers/wrappers_t.py:11-12 | an empty stored value counts as a hit for the call but as nothing for `get` |
| SimpleWrappers.CacheWrapper.constructor | cachel/wrappers/__init__.py:6-12 | keeps the function, backend, key function, codec and ttl |
| SimpleWrappers.CacheWrapper.Call | cachel/wrappers/wrappers_t.py:9-21 | result, new store and call count follow the call specification |
| SimpleWrappers.CacheWrapper.Get | cachel/wrappers/wrappers_t.py:23-27 | follows `GetSpec` on the backend's contents |
| SimpleWrappers.CacheWrapper.Set | cachel/wrappers/wrappers_t.py:29-31 | stores the encoded value under the key with the wrapper's ttl |
| SimpleWrappers.CacheWrapper.Invalidate | cachel/wrappers/wrappers_t.py:33-35 | deletes the key |
| SimpleWrappers.KeysOf | cachel/wrappers/wrappers_t.py:46 | one key per id, in order |
| SimpleWrappers.WrittenBackInjective | cachel/wrappers/wrappers_t.py:56-63 | with distinct keys per id, every written id's key holds its entry |
| SimpleWrappers.CachedPartAt | cachel/wrappers/wrappers_t.py:48-53 | an id is cached exactly when its key is present (`is not None`), with the decoded value, and is fetched exactly when it is not |
| SimpleWrappers.FullHit | cachel/wrappers/wrappers_t.py:48-54 | when every key is present, nothing is fetched and the result is the cached part, covering every id |
| SimpleWrappers.ObjectsResultContents | cachel/wrappers/wrappers_t.py:47-65 | the result holds the cached ids and the fetched ids; a fetched value overrides a cached one |
| SimpleWrappers.WriteBackThenHit | tests/test_simple.py:71-79 | after the write-back, every fetched id reads back as a cache hit with its value |
| SimpleWrappers.BucketIsSelect | cachel/wrappers/wrappers_t.py:57-63 | each bucket is the selection of the fetched entries with that ttl |
| SimpleWrappers.PairsOf | cachel/wrappers/wrappers_t.py:59-62 | the `zip(keys, values)` pairs, one per bucket id |
| SimpleWrappers.WrittenBackStep | cachel/wrappers/wrappers_t.py:58-63 | writing one more bucket extends the written-back set and keeps other keys |
| SimpleWrappers.EntriesOf | cachel/wrappers/wrappers_t.py:61-62 | each bucket id's encoded value with the bucket's ttl |
| SimpleWrappers.SelectStep | cachel/wrappers/wrappers_t.py:58-63 | adding one ttl to the done set adds exactly its bucket, disjoint from what was written |
| SimpleWrappers.BucketStep | cachel/wrappers/wrappers_t.py:58-63 | the `mset` of one bucket preserves the write-back invariant |
| SimpleWrappers.SelectAll | cachel/wrappers/wrappers_t.py:57-63 | over all buckets, the selection is every fetched value, and the writes are every fetched entry |
| SimpleWrappers.Items | cachel/wrappers/wrappers_t.py:59 | lists exactly a map's keys |
| SimpleWrappers.ObjectsCacheWrapper.constructor | cachel/wrappers/__init__.py:6-12 | keeps the function, backend, key function, codec and ttl |
| SimpleWrappers.ObjectsCacheWrapper.Call | cachel/wrappers/wrappers_t.py:39-65 | the result follows the batch specification; the function runs once on the missing ids, or not at all; its entries are written back and no other key changes |
| SimpleWrappers.ObjectsCacheWrapper.Lookup | cachel/wrappers/wrappers_t.py:46-51 | the `mget` loop computes the cached part |
| SimpleWrappers.ObjectsCacheWrapper.WriteBack | cachel/wrappers/wrappers_t.py:56-63 | the result gains the fetched values, and the store gains exactly the fetched entries |
| SimpleWrappers.ObjectsCacheWrapper.NothingSelected | cachel/wrappers/wrappers_t.py:57-58 | before the loop, nothing is selected or written |
| SimpleWrappers.ObjectsCacheWrapper.Split | cachel/wrappers/wrappers_t.py:57 | the buckets are the corrected `agg_expire`, and together they are every fetched entry |
| SimpleWrappers.ObjectsCacheWrapper.WriteBucket | cachel/wrappers/wrappers_t.py:59-63 | one loop iteration adds one bucket to the result and the store |
| SimpleWrappers.ObjectsCacheWrapper.BucketPairs | cachel/wrappers/wrappers_t.py:59-61 | the ids and encoded pairs of one bucket |
| SimpleWrappers.ObjectsCacheWrapper.Invalidate | cachel/wrappers/wrappers_t.py:67-69 | deletes exactly the ids' keys |
| SimpleWrappers.ObjectsCacheWrapper.One | cachel/wrappers/wrappers_t.py:71-73 | the batch call on `[id]`, then its value or the default |
| SimpleFactory.NewFactory | cachel/simple.py:18-22 | the defaults are ttl 600, `'msgpack'` and fuzzy on; given arguments are kept |
| SimpleFactory.IsAsyncFunc | cachel/simple.py:8-14 | a coroutine function counts as asynchronous only when the interpreter supports async |
| SimpleFactory.CallDecorator | cachel/simple.py:24-38 | a single-key wrapper is built exactly when the template compiles and the format names a serializer; a template error comes first |
| SimpleFactory.ObjectsDecorator | cachel/simple.py:24-35 | a batch wrapper is built unless the varargs check of `make_key_func` refuses it first or the format names no serializer |
| SimpleFactory.BatchVarArgs | cachel/base.py:41-47 | a batch decoration of a function taking `*args` or `**kwargs` is refused for a template with fields, and not for a field-free one |
| SimpleFactory.ExpireArguments | cachel/simple.py:29-34 | `get_expire` gets `ttl or self.ttl`, and the fuzzy flag from the call unless it is None |
| SimpleFactory.ExplicitFalseFuzzyIsHonoured | cachel/simple.py:29 | `fuzzy_ttl=False` turns jitter off under a fuzzy factory |
| SimpleFactory.SerializerChoice | cachel/simple.py:33 | the serializer named by `fmt or self.fmt` is used, or the decoration is refused |
| SimpleFactory.VariantFlags | cachel/simple.py:26-27 | the variant's flags come from the function and the backend's `is_async` (False when it is missing) |
| SimpleFactory.UnknownFormatIsRefused | tests/test_simple.py:54-59 | `make_cache(None, fmt='boo')` refuses to decorate |
| TwoTier.Ttl2Choice | cachel/local.py:98-106 | `ttl2 or self.ttl2 or ttl * 2`, and tier 1 gets `get_expire(ttl, fuzzy)` |
| TwoTier.FuzzyFalseCannotOverride | cachel/local.py:105 | `fuzzy_ttl or self.fuzzy_ttl`: an explicit False cannot switch off a fuzzy factory |
| TwoTier.Tier1HitServesTier1 | cachel/local.py:25-26 | a tier-1 hit returns the decoded tier-1 value and changes nothing |
| TwoTier.FullMissWritesBoth | cachel/local.py:28-33 | a full miss calls the function and writes both tiers, or writes nothing if it raises |
| TwoTier.FreshEntryCopiedBack | cachel/local.py:34-43 | a fresh tier-2 entry is returned and copied into tier 1 without calling the function |
| TwoTier.StaleServesStale | cachel/local.py:34-43 | a stale entry is still returned; tier 1 gets the stale payload unless the refresh reported an update |
| TwoTier.CorruptEntryRaises | cachel/local.py:34 | a tier-2 entry whose head does not parse raises and changes nothing |
| TwoTier.MissThenHit | cachel/local.py:23-46 | after a full miss stores `v`, the next call serves `v` from tier 1 |
| TwoTier.Tier2AfterEviction | cachel/local.py:34-36 | once tier 1 is evicted, the tier-2 entry is stale exactly when the clock passed `int(w + ttl1)` |
| TwoTier.EvictedThenFresh | cachel/local.py:34-43 | an evicted entry within its expiry is served from tier 2 and copied back, giving the same tiers as before the eviction |
| TwoTier.GetAfterSet | cachel/local.py:71-79 | `get` after `set(v)` gives `v` |
| TwoTier.GetAfterInvalidate | cachel/local.py:71-83 | `get` after `invalidate` gives None |
| TwoTier.GetReadsTier2 | cachel/local.py:71-75 | `get` gives None for a missing or empty entry, and raises on an unparsable one |
| LocalCache.StaleRefreshSucceeds | cachel/local.py:36-58 | with the default refresh, a stale hit returns the stale value and rewrites both tiers with the new result |
| LocalCache.StaleRefreshFails | cachel/local.py:36-53 | if the default refresh raises, the stale payload is copied into tier 1 and tier 2 stays as it was |
| LocalCache.CustomRefreshDecides | cachel/local.py:37-42 | a custom refresh's answer decides whether tier 1 is rewritten with the stale payload |
| LocalCache.LocalCacheWrapper.constructor | cachel/local.py:12-21 | keeps every argument; no call has run yet |
| LocalCache.LocalCacheWrapper.Call | cachel/local.py:23-46 | result, both tiers and call count follow the two-tier specification with this wrapper's refresh |
| LocalCache.LocalCacheWrapper.DefaultRefresh | cachel/local.py:48-58 | runs the function once; on success it writes both tiers and reports True, and on a raise it reports False |
| LocalCache.LocalCacheWrapper.Get | cachel/local.py:71-75 | reads tier 2 only |
| LocalCache.LocalCacheWrapper.Set | cachel/local.py:77-79 | writes `dumps2(dumps(v))` into tier 2 with ttl2 |
| LocalCache.LocalCacheWrapper.Invalidate | cachel/local.py:81-83 | deletes the key from tier 2 only |
| LocalCache.LocalCacheFactory.constructor | cachel/local.py:87-94 | keeps the tiers and the defaults |
| LocalCache.LocalCacheFactory.Decorate | cachel/local.py:96-111 | the wrapper shares the factory's tiers and refresh, with the resolved ttls |
| OffloadCache.Outbox.constructor | cachel/offload.py:90-99 | no message sent yet |
| OffloadCache.Outbox.Send | cachel/offload.py:97 | appends one message |
| OffloadCache.DefaultOffloadFromCallIsOk | cachel/offload.py:72-87 | from a call (`update_cache1=False`) the offload never raises; a raise reports False and changes nothing |
| OffloadCache.OffloaderRefreshesTier1 | cachel/offload.py:38-41 | with an `offloader`, a stale hit returns the stale value, copies it into tier 1 and does not call the function |
| OffloadCache.DefaultOffloadOnStale | cachel/offload.py:37-41 | with `default_offload`, a stale hit calls the function and rewrites both tiers, or copies the stale payload back if it raises |
| OffloadCache.DeferredFailureRestoresTier1 | cachel/offload.py:75-82 | the deferred run of a failing function restores tier 1 from tier 2's payload and leaves tier 2 alone |
| OffloadCache.OffloadCacheWrapper.constructor | cachel/offload.py:12-22 | the id is `module + '.' + name`, and the other arguments are kept |
| OffloadCache.OffloadCacheWrapper.Call | cachel/offload.py:24-44 | result, tiers and call count follow the specification; an `offloader` sends exactly one message (this id, key and arguments) exactly when the entry is stale |
| OffloadCache.OffloadCacheWrapper.RunOffload | cachel/offload.py:38 | the configured offload's effect, and one message for an `offloader` |
| OffloadCache.OffloadCacheWrapper.Get | cachel/offload.py:57-61 | reads tier 2 only |
| OffloadCache.OffloadCacheWrapper.Set | cachel/offload.py:63-65 | writes `dumps2(dumps(v))` into tier 2 with ttl2 |
| OffloadCache.OffloadCacheWrapper.Invalidate | cachel/offload.py:67-69 | deletes the key from tier 2 only |
| OffloadCache.RunDefaultOffload | cachel/offload.py:72-87 | follows the offload specification: success writes both tiers; a raise with `update_cache1` copies a truthy tier-2 payload into tier 1; an unparsable entry raises |
| OffloadCache.Params.constructor | cachel/offload.py:93-96 | the message fields |
| OffloadCache.OffloadFactory.constructor | cachel/offload.py:103-112 | an empty registry and the given defaults |
| OffloadCache.OffloadFactory.Decorate | cachel/offload.py:114-132 | the new wrapper is registered under its id; it uses the factory's offload or `default_offload`, with the resolved ttls |
| OffloadCache.OffloadFactory.OffloadParams | cachel/offload.py:134-141 | pops `cache_id`; an unknown id changes nothing; otherwise it runs `default_offload` with `update_cache1=True` on that wrapper only |

## Left out

- I/O and time: each call reads the clock once, as the parameter `now`. The
  source calls `time()` again inside `dumps2`, which may give a later value.
- Logging (`log.exception`, `log.error`) is not modelled.
- Aliasing: every two-tier class requires `cache1 != cache2`, so the model
  does not cover one backend serving as both tiers.
- Custom `refresh` and custom offload functions are pure functions
  returning a truth value, and they never raise. The model does not cover
  their side effects on the wrapper or a non-boolean truthy return value.
  In the source, an exception from a custom `refresh`, a custom offload or
  an `offloader`'s transport `func(params)` propagates out of `__call__`
  (cachel/local.py:37-38, cachel/offload.py:38 and 97).
- `offloader`: the transport is an outbox that records messages. The
  `params` dict's positional `args` and keyword `kwargs` are folded into one
  argument value.
- The decorated function always returns or raises. It does not run
  forever, and its own side effects are not modelled.
- Serializers: `get_serializer` is a table and `get_expire` a function
  parameter. Neither is part of this model.
- Serializers: a codec's round trip is assumed only where a lemma says so.
- Two-tier factories take an already-compiled key function and an
  already-resolved codec. Their `fmt` lookup is the same as in
  `make_cache`.
- `make_key_func`'s `*head` renaming (cachel/base.py:50-51) is not
  modelled.
  - cachel/simple.py:32, cachel/local.py:101 and cachel/offload.py:119 pass
    `multi` into `*head` positionally.
  - As shown, `head == (False,)` is therefore truthy. The first parameter
    would be renamed to `False`, and the `', '.join` at cachel/base.py:83
    would then fail on a bool.
  - The model follows the empty-`head` behaviour that tests/test_base.py:5-29
    expect.
- The batch key function of `objects` is not modelled. It is an injected
  `keyOf(id, args)`, one key per id.
- SimpleFactory.ObjectsDecorator: of the refusals raised while compiling the
  batch key function, only the varargs one is modelled. The refusals for
  unknown or surplus field names depend on the batch key function, which is
  not part of this model.
- SimpleWrappers.ObjectsCacheWrapper.Call: the model uses the corrected
  `agg_expire`. On the colliding input of the second "## Findings" row, it
  writes back and returns ids that the source as written loses
  (cachel/wrappers/wrappers_t.py:57-63).
- KeyTemplate.Bind: the generated lambda's argument binding is modelled for
  positional and keyword arguments and defaults. `repr`/`eval` of default
  values is not modelled: the values themselves are used.
- KeyTemplate.MakeKeyFunc: a template arrives already parsed, so literal
  braces (`{{`) and conversion flags (`!r`) are not modelled.
- The wrappers do not model a key function that raises a `TypeError` at
  call time. The wrappers use a total `keyfunc`, and
  `KeyTemplate.ApplyKey` models that failure separately.
- WireFormat.Loads2: Python `int()` also accepts surrounding whitespace
  and `_` digit separators. The model accepts only an optional sign and
  decimal digits.
- WireFormat: the PY2 text form of `dumps2` is left out.
- KeyTemplate.GenExpire: uses Python 2 integer division and returns any
  value in the range. Python 3's float bounds and the random choice itself
  are not modelled.
- Dict iteration order is not modelled: buckets, batches and results are
  maps.
- The async variants are not modelled, only the `fn`/`cache`/`call` flag
  table. This covers cachel/_async_base.py, wrappers/async_*.py,
  wrappers/gen.py and the AST rewriting of the wrapper template.
- Backend: the map records each entry's ttl but never expires it, so
  expiry by the backend (as Redis's `set` enforces it) is not modelled. The
  model has one map-backed store, like the test suite's. The adapters
  cachel/redis.py and cachel/uwsgi.py are not modelled.
- `base.make_cache`, `NullCache`, `wrap_in` and `wrap_dict_value_in` are not
  part of this model.
- The offload cache's `objects` variant is commented out in the source and
  is not modelled.

## Findings

| source | as written | input that shows it | evidently intended | confidence | as-written member | corrected member |
|---|---|---|---|---|---|---|
| cachel/base.py:81-85 | each field becomes `{i}`, where `i` is the position of the named parameter in the signature, but `.format(...)` receives the values in field order (`targs`) | `'{boo}-{foo}'` on `f(foo, boo)` called as `f(10, 20)` yields `'10-20'`; `'{boo}'` on `f(foo, boo)` raises an index error at call time | each field renders the value of the parameter it names, as the test expecting `'20-10'` says (tests/test_base.py:28-29) | not executed | KeyTemplate.SwappedFieldsAsWritten | KeyTemplate.CompiledKeyIsReference |
| cachel/wrappers/__init__.py:25-26 | the plain entries replace the default-ttl bucket, even when custom entries already sit in it | `{1: expire('a', 10), 2: 'b'}` with default ttl 10 drops id 1: it is neither written back nor returned | plain entries are merged into the default-ttl bucket | not executed | TtlBuckets.CollisionDropsEntry | TtlBuckets.CollisionKeepsEntry |

The as-written key function is `KeyTemplate.ApplyKeyAsWritten`, and the
corrected one, which the rest of the model uses, is `KeyTemplate.ApplyKey`.
The as-written bucketing is `TtlBuckets.AggExpireAsWritten`, and the
corrected one is `TtlBuckets.AggExpire`. `TtlBuckets.AsWrittenCoverage`
gives the exact condition under which the as-written version loses
entries. `TtlBuckets.AggExpireCovers` proves that the corrected version
never does.

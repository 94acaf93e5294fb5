/** `agg_expire` and the async-flag table of cachel/wrappers/__init__.py:
    splitting a batch result by the ttl each entry is to be cached with. */
module TtlBuckets {
  import opened Common

  /** A batch result: per id, a plain value or an `_Expire(value, ttl)`. */
  type Batch<K, V> = map<K, Ret<V>>

  /** The split of a batch: per ttl, the ids and unwrapped values to write with it. */
  type Buckets<K, V> = map<int, map<K, V>>

  /** `dttl`: the entries with no custom ttl (line 16). */
  function Plains<K, V>(result: Batch<K, V>): map<K, V> {
    map k | k in result && result[k].Plain? :: result[k].value
  }

  /** Every value of the batch, unwrapped. */
  function Unwrapped<K, V>(result: Batch<K, V>): map<K, V> {
    map k | k in result :: result[k].value
  }

  /** No entry carries a custom ttl. */
  predicate NoCustom<K, V>(result: Batch<K, V>) {
    forall k :: k in result ==> result[k].Plain?
  }

  /** The custom ttls that occur in the batch. */
  function CustomTtls<K, V>(result: Batch<K, V>): set<int> {
    set k | k in result && result[k].WithTtl? :: result[k].ttl
  }

  /** The entries whose custom ttl is `t`, unwrapped. */
  function Bucket<K, V>(result: Batch<K, V>, t: int): map<K, V> {
    map k | k in result && result[k].WithTtl? && result[k].ttl == t :: result[k].value
  }

  /** What the loop of lines 20-23 builds: one bucket per custom ttl. */
  function CustomSpec<K, V>(result: Batch<K, V>): Buckets<K, V> {
    map t | t in CustomTtls(result) :: Bucket(result, t)
  }

  /** `agg_expire(result, default_ttl)` as written: the fast path returns the
      whole batch under the default ttl; otherwise the custom buckets, and then
      the plain entries ASSIGNED to the default ttl, replacing any custom
      bucket of that ttl (line 26). */
  function AggExpireAsWritten<K, V>(result: Batch<K, V>, d: int): Buckets<K, V> {
    if |Plains(result)| == |result| then map[d := Unwrapped(result)]
    else if Plains(result) != map[] then CustomSpec(result)[d := Plains(result)]
    else CustomSpec(result)
  }

  /** The bucket a custom-ttl loop has built for `t` so far, or an empty one. */
  function BucketOr<K, V>(ttls: Buckets<K, V>, t: int): map<K, V> {
    if t in ttls then ttls[t] else map[]
  }

  /** `agg_expire` with the evident intent: the plain entries are MERGED into
      the default-ttl bucket, so no entry is lost. */
  function AggExpire<K, V>(result: Batch<K, V>, d: int): Buckets<K, V> {
    if |Plains(result)| == |result| then map[d := Unwrapped(result)]
    else if Plains(result) != map[] then CustomSpec(result)[d := BucketOr(CustomSpec(result), d) + Plains(result)]
    else CustomSpec(result)
  }

  // ---------------------------------------------------------------------
  // The loop

  /** Where an entry sits in the custom buckets: exactly in the bucket of its
      own custom ttl. */
  lemma CustomSpecAt<K, V>(result: Batch<K, V>)
    ensures forall k :: k in result && result[k].WithTtl? ==>
              result[k].ttl in CustomSpec(result) && k in CustomSpec(result)[result[k].ttl] &&
              CustomSpec(result)[result[k].ttl][k] == result[k].value
    ensures forall t, k :: t in CustomSpec(result) && k in CustomSpec(result)[t] ==>
              k in result && result[k].WithTtl? && result[k].ttl == t && CustomSpec(result)[t][k] == result[k].value
    ensures forall t :: t in CustomSpec(result) ==> CustomSpec(result)[t] != map[]
  {
    forall k | k in result && result[k].WithTtl?
      ensures result[k].ttl in CustomTtls(result)
    {
    }
    forall t | t in CustomSpec(result)
      ensures CustomSpec(result)[t] != map[]
    {
      var k :| k in result && result[k].WithTtl? && result[k].ttl == t;
      assert k in Bucket(result, t);
    }
  }

  /** Two bucket maps with the same entries are equal. */
  lemma BucketsExt<K, V>(a: Buckets<K, V>, b: Buckets<K, V>)
    requires forall t :: t in a ==> a[t] != map[]
    requires forall t :: t in b ==> b[t] != map[]
    requires forall t, k :: t in a && k in a[t] ==> t in b && k in b[t] && a[t][k] == b[t][k]
    requires forall t, k :: t in b && k in b[t] ==> t in a && k in a[t]
    ensures a == b
  {
    forall t | t in a
      ensures t in b && a[t] == b[t]
    {
      var k :| k in a[t];
      assert t in b;
      assert a[t].Keys == b[t].Keys;
    }
    forall t | t in b
      ensures t in a
    {
      var k :| k in b[t];
    }
    assert a.Keys == b.Keys;
  }

  /** One more entry handed to the custom-ttl loop. */
  lemma CustomStep<K, V>(done: Batch<K, V>, k: K, r: Ret<V>)
    requires k !in done
    ensures r.Plain? ==> CustomSpec(done[k := r]) == CustomSpec(done)
    ensures r.WithTtl? ==> (CustomSpec(done[k := r]) ==
              CustomSpec(done)[r.ttl := BucketOr(CustomSpec(done), r.ttl)[k := r.value]])
  {
    var m := done[k := r];
    CustomSpecAt(m);
    CustomSpecAt(done);
    var rhs := if r.Plain? then CustomSpec(done) else CustomSpec(done)[r.ttl := BucketOr(CustomSpec(done), r.ttl)[k := r.value]];
    forall t | t in rhs
      ensures rhs[t] != map[]
    {
      if r.WithTtl? && t == r.ttl {
        assert k in rhs[t];
      }
    }
    forall t, k' | t in CustomSpec(m) && k' in CustomSpec(m)[t]
      ensures t in rhs && k' in rhs[t] && CustomSpec(m)[t][k'] == rhs[t][k']
    {
      if k' != k {
        assert k' in done && done[k'] == m[k'];
      }
    }
    forall t, k' | t in rhs && k' in rhs[t]
      ensures t in CustomSpec(m) && k' in CustomSpec(m)[t]
    {
      if k' != k {
        assert t in CustomSpec(done) && k' in CustomSpec(done)[t];
        assert k' in m && m[k'] == done[k'];
      } else {
        assert t !in CustomSpec(done) || k !in CustomSpec(done)[t];
        assert r.WithTtl? && t == r.ttl;
        assert m[k] == r;
      }
    }
    BucketsExt(CustomSpec(m), rhs);
  }

  /** Lines 20-23: for each entry with a custom ttl,
      `ttls.setdefault(ttl, {})[k] = value`. */
  method CollectCustom<K, V>(result: Batch<K, V>) returns (ttls: Buckets<K, V>)
    ensures ttls == CustomSpec(result)
  {
    ttls := map[];
    var todo := result.Keys;
    assert result - todo == map[];
    while todo != {}
      invariant todo <= result.Keys
      invariant ttls == CustomSpec(result - todo)
      decreases |todo|
    {
      var k :| k in todo;
      CustomStep(result - todo, k, result[k]);
      assert (result - todo)[k := result[k]] == result - (todo - {k});
      if result[k].WithTtl? {
        var t := result[k].ttl;
        var bucket := if t in ttls then ttls[t] else map[];
        ttls := ttls[t := bucket[k := result[k].value]];
      }
      todo := todo - {k};
    }
    assert result - todo == result;
  }

  /** The corrected `agg_expire`, built the way the source builds it. */
  method Aggregate<K, V>(result: Batch<K, V>, d: int) returns (ttls: Buckets<K, V>)
    ensures ttls == AggExpire(result, d)
  {
    var dttl := Plains(result);
    if |dttl| == |result| {
      return map[d := Unwrapped(result)];
    }
    ttls := CollectCustom(result);
    if dttl != map[] {
      var existing := if d in ttls then ttls[d] else map[];
      ttls := ttls[d := existing + dttl];
    }
  }

  // ---------------------------------------------------------------------
  // Properties

  lemma {:induction false} SubsetCard<T>(a: set<T>, b: set<T>)
    requires a <= b
    ensures |a| <= |b|
    decreases |b|
  {
    if b != {} {
      var x :| x in b;
      SubsetCard(a - {x}, b - {x});
    }
  }

  /** The fast-path test `len(dttl) == len(result)` holds exactly when no
      entry carries a custom ttl. */
  lemma FastPathTest<K, V>(result: Batch<K, V>)
    ensures |Plains(result)| == |result| <==> NoCustom(result)
  {
    var pk := Plains(result).Keys;
    assert pk <= result.Keys;
    if NoCustom(result) {
      assert pk == result.Keys;
    } else {
      var k :| k in result && result[k].WithTtl?;
      SubsetCard(pk, result.Keys - {k});
      assert |result.Keys - {k}| < |result.Keys|;
    }
  }

  /** Where an entry sits in either split. */
  lemma {:induction false} SplitAt<K, V>(result: Batch<K, V>, d: int)
    ensures NoCustom(result) ==> AggExpireAsWritten(result, d) == AggExpire(result, d) == map[d := Unwrapped(result)]
    ensures !NoCustom(result) && Plains(result) == map[] ==> AggExpireAsWritten(result, d) == AggExpire(result, d) == CustomSpec(result)
    ensures !NoCustom(result) && Plains(result) != map[] ==>
              AggExpireAsWritten(result, d) == CustomSpec(result)[d := Plains(result)] &&
              AggExpire(result, d) == CustomSpec(result)[d := BucketOr(CustomSpec(result), d) + Plains(result)]
  {
    FastPathTest(result);
  }

  /** With no custom ttl the split is `{default_ttl: result}`, in both versions. */
  lemma FastPath<K, V>(result: Batch<K, V>, d: int)
    requires NoCustom(result)
    ensures AggExpireAsWritten(result, d) == map[d := Unwrapped(result)]
    ensures AggExpire(result, d) == map[d := Unwrapped(result)]
  {
    SplitAt(result, d);
  }

  /** Off the fast path, the default bucket exists exactly when there are
      plain entries or custom entries at the default ttl; as written it then
      holds exactly the plain entries when there are any, the corrected split
      holds every plain entry in it. */
  lemma DefaultBucket<K, V>(result: Batch<K, V>, d: int)
    requires !NoCustom(result)
    ensures d in AggExpireAsWritten(result, d) <==> Plains(result) != map[] || d in CustomTtls(result)
    ensures Plains(result) != map[] ==> AggExpireAsWritten(result, d)[d] == Plains(result)
    ensures d in AggExpire(result, d) <==> Plains(result) != map[] || d in CustomTtls(result)
    ensures forall k :: k in result && result[k].Plain? ==>
              d in AggExpire(result, d) && k in AggExpire(result, d)[d] && AggExpire(result, d)[d][k] == result[k].value
  {
    SplitAt(result, d);
    forall k | k in result && result[k].Plain?
      ensures k in Plains(result)
    {
    }
  }

  /** Every bucket is keyed by the ttl its entries carry (the default one for
      plain entries) and holds their unwrapped values, in both versions. */
  lemma {:induction false} BucketsAreSound<K, V>(result: Batch<K, V>, d: int)
    ensures forall t, k :: t in AggExpireAsWritten(result, d) && k in AggExpireAsWritten(result, d)[t] ==>
              k in result && result[k].value == AggExpireAsWritten(result, d)[t][k] && result[k].TtlOr(d) == t
    ensures forall t, k :: t in AggExpire(result, d) && k in AggExpire(result, d)[t] ==>
              k in result && result[k].value == AggExpire(result, d)[t][k] && result[k].TtlOr(d) == t
  {
    AsWrittenIsSound(result, d);
    CorrectedIsSound(result, d);
  }

  lemma {:induction false} AsWrittenIsSound<K, V>(result: Batch<K, V>, d: int)
    ensures forall t, k :: t in AggExpireAsWritten(result, d) && k in AggExpireAsWritten(result, d)[t] ==>
              k in result && result[k].value == AggExpireAsWritten(result, d)[t][k] && result[k].TtlOr(d) == t
  {
    SplitAt(result, d);
    var b := AggExpireAsWritten(result, d);
    forall t, k | t in b && k in b[t]
      ensures k in result && result[k].value == b[t][k] && result[k].TtlOr(d) == t
    {
      if NoCustom(result) {
        assert k in Unwrapped(result);
      } else if Plains(result) != map[] && t == d {
        assert k in Plains(result);
      } else {
        CustomSpecAt(result);
        assert t in CustomSpec(result) && k in CustomSpec(result)[t];
      }
    }
  }

  lemma {:induction false} CorrectedIsSound<K, V>(result: Batch<K, V>, d: int)
    ensures forall t, k :: t in AggExpire(result, d) && k in AggExpire(result, d)[t] ==>
              k in result && result[k].value == AggExpire(result, d)[t][k] && result[k].TtlOr(d) == t
  {
    SplitAt(result, d);
    var b := AggExpire(result, d);
    forall t, k | t in b && k in b[t]
      ensures k in result && result[k].value == b[t][k] && result[k].TtlOr(d) == t
    {
      if NoCustom(result) {
        assert k in Unwrapped(result);
      } else if Plains(result) != map[] && t == d && k in Plains(result) {
        assert b[t][k] == Plains(result)[k];
      } else {
        CustomSpecAt(result);
        assert t in CustomSpec(result) && k in CustomSpec(result)[t] && b[t][k] == CustomSpec(result)[t][k];
      }
    }
  }

  /** No id is in two buckets, in both versions. */
  lemma BucketsAreDisjoint<K, V>(result: Batch<K, V>, d: int, t1: int, t2: int)
    requires t1 != t2
    ensures t1 in AggExpireAsWritten(result, d) && t2 in AggExpireAsWritten(result, d) ==>
              AggExpireAsWritten(result, d)[t1].Keys !! AggExpireAsWritten(result, d)[t2].Keys
    ensures t1 in AggExpire(result, d) && t2 in AggExpire(result, d) ==>
              AggExpire(result, d)[t1].Keys !! AggExpire(result, d)[t2].Keys
  {
    BucketsAreSound(result, d);
  }

  /** For a non-empty batch no bucket is empty, in both versions (so the
      write-back may unpack every bucket). */
  lemma BucketsAreNonEmpty<K, V>(result: Batch<K, V>, d: int)
    requires result != map[]
    ensures forall t :: t in AggExpireAsWritten(result, d) ==> AggExpireAsWritten(result, d)[t] != map[]
    ensures forall t :: t in AggExpire(result, d) ==> AggExpire(result, d)[t] != map[]
  {
    SplitAt(result, d);
    CustomSpecAt(result);
    if NoCustom(result) {
      var k :| k in result;
      assert k in Unwrapped(result);
    }
  }

  /** The corrected split files every entry under the ttl it carries: an
      `_Expire(v, t)` entry as `buckets[t][k] == v`, a plain one under the
      default ttl. */
  lemma {:induction false} AggExpireFilesEveryEntry<K, V>(result: Batch<K, V>, d: int)
    ensures forall k :: k in result ==>
              result[k].TtlOr(d) in AggExpire(result, d) && k in AggExpire(result, d)[result[k].TtlOr(d)] &&
              AggExpire(result, d)[result[k].TtlOr(d)][k] == result[k].value
  {
    SplitAt(result, d);
    CustomSpecAt(result);
    forall k | k in result
      ensures result[k].TtlOr(d) in AggExpire(result, d) && k in AggExpire(result, d)[result[k].TtlOr(d)] &&
              AggExpire(result, d)[result[k].TtlOr(d)][k] == result[k].value
    {
      if result[k].Plain? {
        assert k in Plains(result);
        assert k in Unwrapped(result);
      }
    }
  }

  /** The ids of all buckets together. */
  function BucketKeys<K, V>(b: Buckets<K, V>): set<K> {
    set t, k | t in b && k in b[t] :: k
  }

  /** The corrected split covers the batch: every id lands in some bucket. */
  lemma {:induction false} AggExpireCovers<K, V>(result: Batch<K, V>, d: int)
    ensures BucketKeys(AggExpire(result, d)) == result.Keys
  {
    CorrectedIsSound(result, d);
    AggExpireFilesEveryEntry(result, d);
    var a := AggExpire(result, d);
    forall k | k in BucketKeys(a)
      ensures k in result
    {
      var t :| t in a && k in a[t];
    }
    forall k | k in result
      ensures k in BucketKeys(a)
    {
      var t := result[k].TtlOr(d);
      assert t in a && k in a[t];
    }
  }

  /** As written, the buckets cover the batch exactly when no custom ttl equals
      the default ttl while plain entries exist. */
  lemma {:induction false} AsWrittenCoverage<K, V>(result: Batch<K, V>, d: int)
    ensures BucketKeys(AggExpireAsWritten(result, d)) == result.Keys <==>
            !(d in CustomTtls(result) && Plains(result) != map[])
  {
    AsWrittenIsSound(result, d);
    SplitAt(result, d);
    CustomSpecAt(result);
    var w := AggExpireAsWritten(result, d);
    forall k | k in BucketKeys(w)
      ensures k in result
    {
      var t :| t in w && k in w[t];
    }
    if d in CustomTtls(result) && Plains(result) != map[] {
      var k :| k in result && result[k].WithTtl? && result[k].ttl == d;
      assert k !in BucketKeys(w);
    } else {
      forall k | k in result
        ensures k in BucketKeys(w)
      {
        var t := result[k].TtlOr(d);
        if result[k].Plain? {
          assert k in Plains(result) && k in Unwrapped(result);
        } else {
          assert t in CustomTtls(result);
        }
        assert t in w && k in w[t];
      }
    }
  }

  /** Id 1 returned with custom ttl 10 and id 2 plain. */
  const CollidingBatch: Batch<int, string> := map[1 := WithTtl("a", 10), 2 := Plain("b")]

  /** A concrete loss, as written: under default ttl 10 the custom bucket of
      `CollidingBatch` is replaced, so id 1 is in no bucket. */
  lemma CollisionDropsEntry()
    ensures 1 in CollidingBatch && 1 !in BucketKeys(AggExpireAsWritten(CollidingBatch, 10))
  {
    var result := CollidingBatch;
    assert result[1].WithTtl? && result[1].TtlOr(10) == 10;
    assert 2 in Plains(result) && 1 !in Plains(result);
    DefaultBucket(result, 10);
    BucketsAreSound(result, 10);
  }

  /** The corrected split keeps both ids of `CollidingBatch` under ttl 10. */
  lemma CollisionKeepsEntry()
    ensures 10 in AggExpire(CollidingBatch, 10)
    ensures 1 in AggExpire(CollidingBatch, 10)[10] && AggExpire(CollidingBatch, 10)[10][1] == "a"
    ensures 2 in AggExpire(CollidingBatch, 10)[10] && AggExpire(CollidingBatch, 10)[10][2] == "b"
  {
    var result := CollidingBatch;
    assert result[1].TtlOr(10) == 10 && result[2].TtlOr(10) == 10;
    AggExpireFilesEveryEntry(result, 10);
  }

  // ---------------------------------------------------------------------
  // load_wrappers (lines 31-33)

  /** Which of the template's suspension points are asynchronous. */
  datatype AsyncFlags = AsyncFlags(fn: bool, cache: bool, call: bool)

  /** The flag table handed to the wrapper template. */
  function WrapperFlags(asyncFn: bool, asyncCache: bool): (f: AsyncFlags)
    ensures f.fn == asyncFn && f.cache == asyncCache
    ensures f.call <==> asyncFn || asyncCache
  {
    AsyncFlags(asyncFn, asyncCache, asyncCache || asyncFn)
  }

  /** Only a synchronous function over a synchronous cache yields a
      synchronous wrapper. */
  lemma SyncOnlyWhenBothSync(asyncFn: bool, asyncCache: bool)
    ensures !WrapperFlags(asyncFn, asyncCache).call <==> !asyncFn && !asyncCache
  {
  }
}

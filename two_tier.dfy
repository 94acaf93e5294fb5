/** The protocol both two-tier wrappers share (cachel/local.py and
    cachel/offload.py). Tier1 is short-lived and holds encoded values. Tier2
    is long-lived and holds `"<expiry>:<encoded value>"`. A value found only
    in tier2 is served and copied back to tier1; once the clock is past the
    embedded expiry, the entry is also handed to a refresher. */
module TwoTier {
  import opened Common
  import opened WireFormat
  import SimpleFactory

  /** The contents of the two backends. */
  datatype Tiers = Tiers(t1: Store, t2: Store)

  /** Which branch of `__call__` a key takes at clock reading `now`. */
  datatype Path =
    | Tier1Hit(data: Bytes)
    | FullMiss
    | Tier2Corrupt
    | Tier2Fresh(inner: Bytes)
    | Tier2Stale(inner: Bytes)

  function Classify(tiers: Tiers, k: Key, now: real): Path {
    if k in tiers.t1 then Tier1Hit(tiers.t1[k].value)
    else if k !in tiers.t2 then FullMiss
    else match Loads2(tiers.t2[k].value)
      case Err(_) => Tier2Corrupt
      case Ok((expire, inner)) => if now > expire as real then Tier2Stale(inner) else Tier2Fresh(inner)
  }

  /** What the stale branch's refresher did: whether it reports tier1 as
      updated, the tiers after it ran, and whether it ran the function. */
  datatype Refresh = Refresh(updated: bool, tiers: Tiers, called: bool)

  /** One `__call__`: its result, the tiers after it, and whether the wrapped
      function ran. */
  datatype TierStep<V> = TierStep(result: Result<V>, tiers: Tiers, called: bool)

  /** Both tiers rewritten with the encoded result `sdata` at clock `now`:
      tier1 with `ttl1`, tier2 with `dumps2(sdata)` and `ttl2`. */
  function Refreshed(tiers: Tiers, k: Key, sdata: Bytes, ttl1: int, ttl2: int, now: real): Tiers {
    Tiers(tiers.t1[k := Entry(sdata, ttl1)], tiers.t2[k := Entry(Dumps2(now, ttl1, sdata), ttl2)])
  }

  /** Tier1 given the inner payload read from tier2. */
  function CopiedBack(tiers: Tiers, k: Key, inner: Bytes, ttl1: int): Tiers {
    tiers.(t1 := tiers.t1[k := Entry(inner, ttl1)])
  }

  /** `__call__` of either wrapper, given the function's reply on a full miss
      and the refresher's outcome on a stale entry. */
  function CallSpec<V>(tiers: Tiers, k: Key, codec: Codec<V>, ttl1: int, ttl2: int, now: real,
                       miss: Reply<V>, onStale: Refresh): TierStep<V> {
    match Classify(tiers, k, now)
    case Tier1Hit(data) => TierStep(Ok(codec.loads(data)), tiers, false)
    case FullMiss =>
      (match miss
       case Raised => TierStep(Err(FuncRaised), tiers, true)
       case Returned(v) => TierStep(Ok(v), Refreshed(tiers, k, codec.dumps(v), ttl1, ttl2, now), true))
    case Tier2Corrupt => TierStep(Err(BadTier2Entry), tiers, false)
    case Tier2Fresh(inner) => TierStep(Ok(codec.loads(inner)), CopiedBack(tiers, k, inner, ttl1), false)
    case Tier2Stale(inner) =>
      TierStep(Ok(codec.loads(inner)),
               if onStale.updated then onStale.tiers else CopiedBack(onStale.tiers, k, inner, ttl1),
               onStale.called)
  }

  /** `get(*args)`: tier2 only; a truthy entry's inner payload, decoded. */
  function Get2<V>(t2: Store, k: Key, codec: Codec<V>): Result<Option<V>> {
    if k in t2 && Truthy(t2[k].value) then
      match Loads2(t2[k].value)
      case Err(e) => Err(e)
      case Ok((_, inner)) => Ok(Some(codec.loads(inner)))
    else Ok(None)
  }

  /** `set(value, *args)`: tier2 only, `dumps2(dumps(value))` with `ttl2`. */
  function Set2<V>(t2: Store, k: Key, codec: Codec<V>, v: V, ttl1: int, ttl2: int, now: real): Store {
    t2[k := Entry(Dumps2(now, ttl1, codec.dumps(v)), ttl2)]
  }

  /** The ttls a two-tier factory hands its wrapper. */
  datatype TierTtls = TierTtls(ttl1: int, ttl2: int)

  /** `fuzzy_ttl or self.fuzzy_ttl`: only an explicit True wins over the
      factory's flag. */
  function FuzzyOr(fuzzy: Option<bool>, default: bool): bool {
    if fuzzy == Some(true) then true else default
  }

  /** `ttl = ttl1 or self.ttl1`; tier1 gets `get_expire(ttl, fuzzy_ttl or
      self.fuzzy_ttl)`; tier2 gets `ttl2 or self.ttl2 or ttl * 2`. */
  function ResolveTtls(getExpire: (int, bool) -> int, factoryTtl1: int, factoryTtl2: Option<int>, factoryFuzzy: bool,
                       ttl1: Option<int>, ttl2: Option<int>, fuzzy: Option<bool>): TierTtls {
    var ttl := SimpleFactory.TtlOrDefault(ttl1, factoryTtl1);
    TierTtls(getExpire(ttl, FuzzyOr(fuzzy, factoryFuzzy)),
             SimpleFactory.TtlOrDefault(ttl2, SimpleFactory.TtlOrDefault(factoryTtl2, ttl * 2)))
  }

  // ---------------------------------------------------------------------
  // Settings

  /** Tier2's ttl: the argument if non-zero, else the factory's if non-zero,
      else twice the nominal (un-jittered) tier1 ttl. */
  lemma Ttl2Choice(getExpire: (int, bool) -> int, factoryTtl1: int, factoryTtl2: Option<int>, factoryFuzzy: bool,
                   ttl1: Option<int>, ttl2: Option<int>, fuzzy: Option<bool>)
    ensures var r := ResolveTtls(getExpire, factoryTtl1, factoryTtl2, factoryFuzzy, ttl1, ttl2, fuzzy);
            var nominal := if ttl1.Some? && ttl1.value != 0 then ttl1.value else factoryTtl1;
            && (ttl2.Some? && ttl2.value != 0 ==> r.ttl2 == ttl2.value)
            && ((ttl2.None? || ttl2.value == 0) && factoryTtl2.Some? && factoryTtl2.value != 0 ==> r.ttl2 == factoryTtl2.value)
            && ((ttl2.None? || ttl2.value == 0) && (factoryTtl2.None? || factoryTtl2.value == 0) ==> r.ttl2 == 2 * nominal)
            && r.ttl1 == getExpire(nominal, FuzzyOr(fuzzy, factoryFuzzy))
  {
  }

  /** Because the flag resolves with `or`, `fuzzy_ttl=False` cannot switch
      jitter off under a factory whose flag is True; under a False factory,
      jitter is on exactly when the argument is True. */
  lemma FuzzyFalseCannotOverride(fuzzy: Option<bool>, factoryFuzzy: bool)
    ensures factoryFuzzy ==> FuzzyOr(fuzzy, factoryFuzzy)
    ensures !factoryFuzzy ==> (FuzzyOr(fuzzy, factoryFuzzy) <==> fuzzy == Some(true))
  {
  }

  // ---------------------------------------------------------------------
  // One call

  /** A tier1 hit returns tier1's value decoded; tier2 is not consulted,
      nothing is written and the function does not run. */
  lemma Tier1HitServesTier1<V>(tiers: Tiers, k: Key, codec: Codec<V>, ttl1: int, ttl2: int, now: real,
                               miss: Reply<V>, onStale: Refresh)
    requires k in tiers.t1
    ensures CallSpec(tiers, k, codec, ttl1, ttl2, now, miss, onStale) ==
            TierStep(Ok(codec.loads(tiers.t1[k].value)), tiers, false)
  {
  }

  /** A full miss runs the function once: its value is returned unencoded and
      written to both tiers; an exception propagates and writes nothing. */
  lemma FullMissWritesBoth<V>(tiers: Tiers, k: Key, codec: Codec<V>, ttl1: int, ttl2: int, now: real,
                              miss: Reply<V>, onStale: Refresh)
    requires k !in tiers.t1 && k !in tiers.t2
    ensures var step := CallSpec(tiers, k, codec, ttl1, ttl2, now, miss, onStale);
            && step.called
            && (miss.Returned? ==>
                  && step.result == Ok(miss.value)
                  && step.tiers.t1 == tiers.t1[k := Entry(codec.dumps(miss.value), ttl1)]
                  && step.tiers.t2 == tiers.t2[k := Entry(Dumps2(now, ttl1, codec.dumps(miss.value)), ttl2)])
            && (miss.Raised? ==> step.result == Err(FuncRaised) && step.tiers == tiers)
  {
  }

  /** A fresh tier2 entry is served, decoded, and copied back to tier1 with
      `ttl1`; tier2 is untouched and the function does not run. */
  lemma FreshEntryCopiedBack<V>(tiers: Tiers, k: Key, codec: Codec<V>, ttl1: int, ttl2: int, now: real,
                                miss: Reply<V>, onStale: Refresh, inner: Bytes)
    requires Classify(tiers, k, now) == Tier2Fresh(inner)
    ensures var step := CallSpec(tiers, k, codec, ttl1, ttl2, now, miss, onStale);
            && step.result == Ok(codec.loads(inner))
            && step.tiers.t2 == tiers.t2
            && step.tiers.t1 == tiers.t1[k := Entry(inner, ttl1)]
            && !step.called
  {
  }

  /** A stale entry is always served as the stale value, whatever the
      refresher did; tier1 gets the stale payload unless the refresher reports
      that it updated tier1. */
  lemma StaleServesStale<V>(tiers: Tiers, k: Key, codec: Codec<V>, ttl1: int, ttl2: int, now: real,
                            miss: Reply<V>, onStale: Refresh, inner: Bytes)
    requires Classify(tiers, k, now) == Tier2Stale(inner)
    ensures var step := CallSpec(tiers, k, codec, ttl1, ttl2, now, miss, onStale);
            && step.result == Ok(codec.loads(inner))
            && step.called == onStale.called
            && (onStale.updated ==> step.tiers == onStale.tiers)
            && (!onStale.updated ==>
                  && step.tiers.t1 == onStale.tiers.t1[k := Entry(inner, ttl1)]
                  && step.tiers.t2 == onStale.tiers.t2)
  {
  }

  /** A tier2 entry whose prefix is not a decimal raises ValueError and
      writes nothing. */
  lemma CorruptEntryRaises<V>(tiers: Tiers, k: Key, codec: Codec<V>, ttl1: int, ttl2: int, now: real,
                              miss: Reply<V>, onStale: Refresh)
    requires k !in tiers.t1 && k in tiers.t2 && Loads2(tiers.t2[k].value).Err?
    ensures CallSpec(tiers, k, codec, ttl1, ttl2, now, miss, onStale) == TierStep(Err(BadTier2Entry), tiers, false)
  {
  }

  // ---------------------------------------------------------------------
  // Across calls

  /** After a full miss stored `v`, the next call is a tier1 hit that returns
      `v` without running the function, at any clock reading. */
  lemma MissThenHit<V(!new)>(tiers: Tiers, k: Key, codec: Codec<V>, ttl1: int, ttl2: int, now: real, later: real,
                             v: V, miss: Reply<V>, onStale: Refresh)
    requires RoundTrips(codec)
    requires k !in tiers.t1 && k !in tiers.t2
    ensures var after := CallSpec(tiers, k, codec, ttl1, ttl2, now, Returned(v), onStale).tiers;
            CallSpec(after, k, codec, ttl1, ttl2, later, miss, onStale) == TierStep(Ok(v), after, false)
  {
    assert codec.loads(codec.dumps(v)) == v;
  }

  /** The tier2 copy written at clock `w` outlives tier1: once tier1 has lost
      the key, a call at `now` finds tier2 fresh up to and including the
      embedded expiry `int(w + ttl1)` and stale strictly after it. */
  lemma {:induction false} Tier2AfterEviction(tiers: Tiers, k: Key, sdata: Bytes, ttl1: int, ttl2: int, w: real, now: real)
    ensures var t := Refreshed(tiers, k, sdata, ttl1, ttl2, w);
            var evicted := t.(t1 := t.t1 - {k});
            Classify(evicted, k, now) ==
              if now > Expiry(w, ttl1) as real then Tier2Stale(sdata) else Tier2Fresh(sdata)
  {
    Loads2Dumps2(w, ttl1, sdata);
  }

  /** Hence a fresh tier2 copy brings back exactly the entry the miss wrote to
      tier1, and returns the stored value, without running the function. */
  lemma EvictedThenFresh<V(!new)>(tiers: Tiers, k: Key, codec: Codec<V>, ttl1: int, ttl2: int, w: real, now: real,
                                  v: V, miss: Reply<V>, onStale: Refresh)
    requires RoundTrips(codec)
    requires now <= Expiry(w, ttl1) as real
    ensures var t := Refreshed(tiers, k, codec.dumps(v), ttl1, ttl2, w);
            var evicted := t.(t1 := t.t1 - {k});
            CallSpec(evicted, k, codec, ttl1, ttl2, now, miss, onStale) == TierStep(Ok(v), t, false)
  {
    var t := Refreshed(tiers, k, codec.dumps(v), ttl1, ttl2, w);
    var evicted := t.(t1 := t.t1 - {k});
    Tier2AfterEviction(tiers, k, codec.dumps(v), ttl1, ttl2, w, now);
    assert codec.loads(codec.dumps(v)) == v;
    assert CopiedBack(evicted, k, codec.dumps(v), ttl1) == t;
  }

  // ---------------------------------------------------------------------
  // get / set / invalidate

  /** `get` after `set` returns the value set, whatever the clock. */
  lemma {:induction false} GetAfterSet<V(!new)>(t2: Store, k: Key, codec: Codec<V>, v: V, ttl1: int, ttl2: int, now: real)
    requires RoundTrips(codec)
    ensures Get2(Set2(t2, k, codec, v, ttl1, ttl2, now), k, codec) == Ok(Some(v))
  {
    var d := codec.dumps(v);
    Loads2Dumps2(now, ttl1, d);
    assert |Dumps2(now, ttl1, d)| > 0 by {
      DecimalRoundTrip(Expiry(now, ttl1));
    }
    assert codec.loads(d) == v;
  }

  /** `get` after `invalidate` finds nothing. */
  lemma GetAfterInvalidate<V>(t2: Store, k: Key, codec: Codec<V>)
    ensures Get2(t2 - {k}, k, codec) == Ok(None)
  {
  }

  /** `get` reads nothing but tier2: an entry stored with an empty payload
      reads as absent, and a non-decimal prefix raises. */
  lemma GetReadsTier2<V>(t2: Store, k: Key, codec: Codec<V>)
    ensures k !in t2 || !Truthy(t2[k].value) ==> Get2(t2, k, codec) == Ok(None)
    ensures k in t2 && Truthy(t2[k].value) && Loads2(t2[k].value).Err? ==> Get2(t2, k, codec) == Err(BadTier2Entry)
  {
  }
}

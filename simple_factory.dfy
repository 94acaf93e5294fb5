/** `cachel.simple.make_cache`: the factory that stores a backend and its
    defaults, and the decorators `__call__` / `objects` that turn a function
    into a `CacheWrapper` or an `ObjectsCacheWrapper` (cachel/simple.py). The
    serializer table and `get_expire` are parameters; the batch key function
    of `objects` is too. */
module SimpleFactory {
  import opened Common
  import opened KeyTemplate
  import opened TtlBuckets

  const DEFAULT_TTL: int := 600
  const DEFAULT_FMT: string := "msgpack"

  /** A `make_cache` instance. `cacheIsAsync` is the backend's `is_async`
      attribute; a backend without one reads as synchronous. */
  datatype Factory = Factory(cacheIsAsync: Option<bool>, ttl: int, fmt: string, fuzzyTtl: bool)

  /** `make_cache(cache, ttl=600, fmt='msgpack', fuzzy_ttl=True)`, with `None`
      standing for an argument left out. */
  function NewFactory(cacheIsAsync: Option<bool>, ttl: Option<int>, fmt: Option<string>, fuzzyTtl: Option<bool>): (f: Factory)
    ensures f.cacheIsAsync == cacheIsAsync
    ensures ttl.None? ==> f.ttl == DEFAULT_TTL
    ensures fmt.None? ==> f.fmt == DEFAULT_FMT
    ensures fuzzyTtl.None? ==> f.fuzzyTtl
    ensures ttl.Some? ==> f.ttl == ttl.value
    ensures fmt.Some? ==> f.fmt == fmt.value
    ensures fuzzyTtl.Some? ==> f.fuzzyTtl == fuzzyTtl.value
  {
    Factory(cacheIsAsync, ttl.GetOr(DEFAULT_TTL), fmt.GetOr(DEFAULT_FMT), fuzzyTtl.GetOr(true))
  }

  /** Python's `ttl or default` for an optional ttl: `None` and `0` are falsy. */
  function TtlOrDefault(ttl: Option<int>, default: int): int {
    if ttl.Some? && ttl.value != 0 then ttl.value else default
  }

  /** Python's `fmt or default` for an optional format name: `None` and `''`
      are falsy. */
  function FmtOrDefault(fmt: Option<string>, default: string): string {
    if fmt.Some? && fmt.value != "" then fmt.value else default
  }

  /** `is_async_func(fn)`: a coroutine function is recognised only when the
      interpreter supports async; otherwise every function is synchronous. */
  function IsAsyncFunc(asyncSupported: bool, isCoroutine: bool): (r: bool)
    ensures r ==> asyncSupported
    ensures r <==> asyncSupported && isCoroutine
  {
    if asyncSupported then isCoroutine else false
  }

  /** Why a decoration is refused: the key template does not fit the
      function, or the format names no serializer. */
  datatype FactoryError = BadTemplate(cause: ConfigError) | UnknownSerializer(fmt: string)

  /** The wrapper `_wrapper` builds: the variant's flag table, the key
      function (compiled for `__call__`; injected for `objects`), the codec and
      the value `get_expire` gave for the resolved ttl and fuzzy flag. */
  datatype Wrapper<!A, !V> =
    | Single(flags: AsyncFlags, keyfunc: KeyFunc<A>, codec: Codec<V>, ttl: int)
    | Batch(flags: AsyncFlags, codec: Codec<V>, ttl: int)

  datatype Decoration<!A, !V> = Decorated(w: Wrapper<A, V>) | Refused(error: FactoryError)

  /** The refusal `make_key_func` raises before it reads its `head`
      argument: a template with fields on a function taking `*args` or
      `**kwargs`. It applies to the batch decorator as well. */
  predicate VarArgsRefused<A>(tpl: Template<A>, sig: Signature<A>) {
    MakeKeyFuncSpec(tpl, sig).Rejected? && MakeKeyFuncSpec(tpl, sig).error.VarArgs?
  }

  /** `_wrapper(tpl, ttl, fmt, fuzzy_ttl, multi)(func)`, with
      `serializers` for `get_serializer` and `getExpire` for `get_expire` (both
      not part of this model). The key function is compiled before the
      serializer is looked up, so a bad template is reported first. For the
      batch decorator only the varargs refusal is modelled. */
  function Decorate<A, V>(f: Factory, asyncSupported: bool, serializers: map<string, Codec<V>>,
                          getExpire: (int, bool) -> int,
                          tpl: Template<A>, sig: Signature<A>, isCoroutine: bool,
                          ttl: Option<int>, fmt: Option<string>, fuzzyTtl: Option<bool>, multi: bool): Decoration<A, V>
  {
    var flags := WrapperFlags(IsAsyncFunc(asyncSupported, isCoroutine), f.cacheIsAsync.GetOr(false));
    var fttl := if fuzzyTtl.None? then f.fuzzyTtl else fuzzyTtl.value;
    var name := FmtOrDefault(fmt, f.fmt);
    if !multi && MakeKeyFuncSpec(tpl, sig).Rejected? then Refused(BadTemplate(MakeKeyFuncSpec(tpl, sig).error))
    else if multi && VarArgsRefused(tpl, sig) then Refused(BadTemplate(VarArgs))
    else if name !in serializers then Refused(UnknownSerializer(name))
    else
      var expire := getExpire(TtlOrDefault(ttl, f.ttl), fttl);
      if multi then Decorated(Batch(flags, serializers[name], expire))
      else Decorated(Single(flags, MakeKeyFuncSpec(tpl, sig).kf, serializers[name], expire))
  }

  /** `__call__(tpl, ttl=None, fmt=None, fuzzy_ttl=None)`: the single-key
      decorator builds a `CacheWrapper` around the compiled key function. */
  function CallDecorator<A, V>(f: Factory, asyncSupported: bool, serializers: map<string, Codec<V>>,
                               getExpire: (int, bool) -> int, tpl: Template<A>, sig: Signature<A>, isCoroutine: bool,
                               ttl: Option<int>, fmt: Option<string>, fuzzyTtl: Option<bool>): (r: Decoration<A, V>)
    ensures r.Decorated? ==> r.w.Single?
    ensures r.Decorated? <==> MakeKeyFuncSpec(tpl, sig).Built? && FmtOrDefault(fmt, f.fmt) in serializers
    ensures r.Decorated? ==> r.w.keyfunc == MakeKeyFuncSpec(tpl, sig).kf
    ensures MakeKeyFuncSpec(tpl, sig).Rejected? ==> r == Refused(BadTemplate(MakeKeyFuncSpec(tpl, sig).error))
  {
    Decorate(f, asyncSupported, serializers, getExpire, tpl, sig, isCoroutine, ttl, fmt, fuzzyTtl, false)
  }

  /** `objects(tpl, ttl=None, fmt=None, fuzzy_ttl=None)`: the batch decorator
      builds an `ObjectsCacheWrapper`; a varargs function with a template
      that has fields is refused first, then an unknown format. */
  function ObjectsDecorator<A, V>(f: Factory, asyncSupported: bool, serializers: map<string, Codec<V>>,
                                  getExpire: (int, bool) -> int, tpl: Template<A>, sig: Signature<A>, isCoroutine: bool,
                                  ttl: Option<int>, fmt: Option<string>, fuzzyTtl: Option<bool>): (r: Decoration<A, V>)
    ensures r.Decorated? ==> r.w.Batch?
    ensures r.Decorated? <==> !VarArgsRefused(tpl, sig) && FmtOrDefault(fmt, f.fmt) in serializers
    ensures VarArgsRefused(tpl, sig) ==> r == Refused(BadTemplate(VarArgs))
  {
    Decorate(f, asyncSupported, serializers, getExpire, tpl, sig, isCoroutine, ttl, fmt, fuzzyTtl, true)
  }

  /** The ttl handed to `get_expire`: an explicit non-zero ttl is used as
      given; `None` and `0` fall back to the factory's ttl. The fuzzy flag:
      `None` takes the factory's, an explicit value (False included) is kept. */
  lemma ExpireArguments<A, V>(f: Factory, asyncSupported: bool, serializers: map<string, Codec<V>>,
                              getExpire: (int, bool) -> int, tpl: Template<A>, sig: Signature<A>, isCoroutine: bool,
                              ttl: Option<int>, fmt: Option<string>, fuzzyTtl: Option<bool>, multi: bool)
    requires Decorate(f, asyncSupported, serializers, getExpire, tpl, sig, isCoroutine, ttl, fmt, fuzzyTtl, multi).Decorated?
    ensures var w := Decorate(f, asyncSupported, serializers, getExpire, tpl, sig, isCoroutine, ttl, fmt, fuzzyTtl, multi).w;
            && (ttl.Some? && ttl.value != 0 && fuzzyTtl.Some? ==> w.ttl == getExpire(ttl.value, fuzzyTtl.value))
            && (ttl.Some? && ttl.value != 0 && fuzzyTtl.None? ==> w.ttl == getExpire(ttl.value, f.fuzzyTtl))
            && ((ttl.None? || ttl.value == 0) && fuzzyTtl.Some? ==> w.ttl == getExpire(f.ttl, fuzzyTtl.value))
            && ((ttl.None? || ttl.value == 0) && fuzzyTtl.None? ==> w.ttl == getExpire(f.ttl, f.fuzzyTtl))
  {
  }

  /** An explicit `fuzzy_ttl=False` switches jitter off even under a factory
      whose default is True. */
  lemma ExplicitFalseFuzzyIsHonoured<A, V>(f: Factory, asyncSupported: bool, serializers: map<string, Codec<V>>,
                                           getExpire: (int, bool) -> int, tpl: Template<A>, sig: Signature<A>,
                                           isCoroutine: bool, ttl: Option<int>, fmt: Option<string>, multi: bool)
    requires f.fuzzyTtl
    requires Decorate(f, asyncSupported, serializers, getExpire, tpl, sig, isCoroutine, ttl, fmt, Some(false), multi).Decorated?
    ensures Decorate(f, asyncSupported, serializers, getExpire, tpl, sig, isCoroutine, ttl, fmt, Some(false), multi).w.ttl ==
            getExpire(TtlOrDefault(ttl, f.ttl), false)
  {
  }

  /** The serializer: the named one when the format is non-empty, the
      factory's otherwise; a name with no serializer refuses the decoration
      (after a template error, if any). */
  lemma SerializerChoice<A, V>(f: Factory, asyncSupported: bool, serializers: map<string, Codec<V>>,
                               getExpire: (int, bool) -> int, tpl: Template<A>, sig: Signature<A>, isCoroutine: bool,
                               ttl: Option<int>, fmt: Option<string>, fuzzyTtl: Option<bool>, multi: bool)
    requires if multi then !VarArgsRefused(tpl, sig) else MakeKeyFuncSpec(tpl, sig).Built?
    ensures var r := Decorate(f, asyncSupported, serializers, getExpire, tpl, sig, isCoroutine, ttl, fmt, fuzzyTtl, multi);
            var name := if fmt.Some? && fmt.value != "" then fmt.value else f.fmt;
            && (name in serializers ==> r.Decorated? && r.w.codec == serializers[name])
            && (name !in serializers ==> r == Refused(UnknownSerializer(name)))
  {
  }

  /** The variant's flags: the cache's `is_async` (False when absent) and the
      function's coroutine flag (False without async support); the call is
      asynchronous iff either is. */
  lemma VariantFlags<A, V>(f: Factory, asyncSupported: bool, serializers: map<string, Codec<V>>,
                           getExpire: (int, bool) -> int, tpl: Template<A>, sig: Signature<A>, isCoroutine: bool,
                           ttl: Option<int>, fmt: Option<string>, fuzzyTtl: Option<bool>, multi: bool)
    requires Decorate(f, asyncSupported, serializers, getExpire, tpl, sig, isCoroutine, ttl, fmt, fuzzyTtl, multi).Decorated?
    ensures var flags := Decorate(f, asyncSupported, serializers, getExpire, tpl, sig, isCoroutine, ttl, fmt, fuzzyTtl, multi).w.flags;
            && flags.fn == (asyncSupported && isCoroutine)
            && flags.cache == (f.cacheIsAsync == Some(true))
            && (flags.call <==> flags.fn || flags.cache)
            && (!asyncSupported && f.cacheIsAsync != Some(true) ==> !flags.call)
  {
  }

  /** A batch decoration of a function taking `*args` or `**kwargs` is
      refused whenever the template is a string with fields, whatever the
      format; a callable or field-free template is not checked. */
  lemma BatchVarArgs<A, V>(f: Factory, asyncSupported: bool, serializers: map<string, Codec<V>>,
                           getExpire: (int, bool) -> int, raw: string, segs: seq<Segment>, sig: Signature<A>,
                           isCoroutine: bool, ttl: Option<int>, fmt: Option<string>, fuzzyTtl: Option<bool>)
    requires sig.varargs || sig.varkw
    ensures !(|segs| == 1 && segs[0].field.None?) ==>
              ObjectsDecorator(f, asyncSupported, serializers, getExpire, Text(raw, segs), sig, isCoroutine,
                               ttl, fmt, fuzzyTtl) == Refused(BadTemplate(VarArgs))
    ensures |segs| == 1 && segs[0].field.None? && FmtOrDefault(fmt, f.fmt) in serializers ==>
              ObjectsDecorator(f, asyncSupported, serializers, getExpire, Text(raw, segs), sig, isCoroutine,
                               ttl, fmt, fuzzyTtl).Decorated?
  {
  }

  /** A factory built with no backend attribute and format `'boo'` refuses
      to decorate when no serializer of that name is known. */
  lemma UnknownFormatIsRefused<A, V>(serializers: map<string, Codec<V>>, getExpire: (int, bool) -> int,
                                     sig: Signature<A>, asyncSupported: bool, isCoroutine: bool)
    requires "boo" !in serializers
    ensures var f := NewFactory(None, None, Some("boo"), None);
            Decorate(f, asyncSupported, serializers, getExpire, Text("boo", [Segment("boo", None, "")]), sig,
                     isCoroutine, None, None, None, false) == Refused(UnknownSerializer("boo"))
  {
  }
}

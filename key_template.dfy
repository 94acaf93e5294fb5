/** The key-template compiler `make_key_func` (single-key path) and the ttl
    jitter `gen_expire` of cachel/base.py.

    A template arrives already split the way `string.Formatter().parse` splits
    it; argument values are turned into text by an injected `render(value,
    spec)`, standing for Python's `format(value, spec)`. */
module KeyTemplate {
  import opened Common

  /** One item of `Formatter().parse(tpl)`: the literal text before a field,
      the field name (None: no field follows; "": an unnamed `{}`) and the
      field's format spec. */
  datatype Segment = Segment(literal: string, field: Option<string>, spec: string)

  /** A call of the key function: positional and keyword arguments. */
  datatype Call<V> = Call(pos: seq<V>, kw: map<string, V>)

  /** The `tpl` argument: a callable, used as the key function as it is, or a
      template string given with its parse. */
  datatype Template<!V> = Callable(f: Call<V> -> string) | Text(raw: string, segments: seq<Segment>)

  /** What `make_key_func` reads off the target function: its positional
      parameter names (`co_varnames[:co_argcount]`), its default values
      (`__defaults__`, which belong to the last parameters), and whether it
      takes `*args` or `**kwargs`. */
  datatype Signature<V> = Signature(params: seq<string>, defaults: seq<V>, varargs: bool, varkw: bool)

  /** What Python guarantees of a function's signature. */
  predicate WellFormed<V>(sig: Signature<V>) {
    && |sig.defaults| <= |sig.params|
    && forall i, j :: 0 <= i < j < |sig.params| ==> sig.params[i] != sig.params[j]
  }

  /** The compiled template: literal text and fields that name, by index, the
      parameter whose value they render. */
  datatype Piece = Lit(text: string) | Field(index: nat, spec: string)

  /** The key function `make_key_func` returns. `Compiled` is the generated
      `lambda <params with defaults>: '<pieces>'.format(<targs>)`, where
      `targs` lists, field by field, the index of the parameter named. */
  datatype KeyFunc<!V> =
    | Passthrough(f: Call<V> -> string)
    | Constant(key: string)
    | Compiled(params: seq<string>, defaults: seq<V>, pieces: seq<Piece>, targs: seq<nat>)

  /** Why compilation fails at decoration time: a varargs function; a field
      naming no parameter (the assertion message carries the name and the
      valid names); more unnamed fields than parameters (IndexError). */
  datatype ConfigError = VarArgs | UnknownParam(name: string, valid: seq<string>) | UnnamedPastParams

  datatype Compilation<!V> = Built(kf: KeyFunc<V>) | Rejected(error: ConfigError)

  /** What a key function call yields: the key, a TypeError from binding the
      arguments, or an IndexError from `str.format`. */
  datatype KeyResult = KeyOk(key: string) | BadArguments | IndexOutOfRange

  // ---------------------------------------------------------------------
  // Field names

  predicate IsNamed(s: Segment) {
    s.field.Some? && s.field.value != ""
  }

  predicate IsUnnamed(s: Segment) {
    s.field == Some("")
  }

  /** Every named field names a parameter. */
  predicate AllNamedKnown(segs: seq<Segment>, params: seq<string>) {
    forall j :: 0 <= j < |segs| && IsNamed(segs[j]) ==> segs[j].field.value in params
  }

  lemma AllNamedKnownTail(segs: seq<Segment>, params: seq<string>)
    requires segs != [] && AllNamedKnown(segs, params)
    ensures AllNamedKnown(segs[1..], params)
    ensures IsNamed(segs[0]) ==> segs[0].field.value in params
  {
    assert forall j :: 0 <= j < |segs[1..]| ==> segs[1..][j] == segs[j + 1];
  }

  /** The number of unnamed `{}` fields. */
  function UnnamedCount(segs: seq<Segment>): nat {
    if segs == [] then 0 else (if IsUnnamed(segs[0]) then 1 else 0) + UnnamedCount(segs[1..])
  }

  /** The first field whose name is not a parameter (base.py:52-54). */
  function FirstUnknown(segs: seq<Segment>, params: seq<string>): (r: Option<string>)
    ensures r.None? <==> AllNamedKnown(segs, params)
    ensures r.Some? ==> r.value != "" && r.value !in params &&
                        exists j :: 0 <= j < |segs| && segs[j].field == Some(r.value)
  {
    if segs == [] then None
    else if IsNamed(segs[0]) && segs[0].field.value !in params then Some(segs[0].field.value)
    else
      var r := FirstUnknown(segs[1..], params);
      assert forall j :: 0 < j < |segs| ==> segs[j] == segs[1..][j - 1];
      assert r.Some? ==> exists j :: 0 <= j < |segs[1..]| && segs[1..][j].field == Some(r.value);
      r
  }

  /** `args.index(name)`. */
  function IndexOf(xs: seq<string>, x: string): (i: nat)
    requires x in xs
    ensures i < |xs| && xs[i] == x && x !in xs[..i]
  {
    if xs[0] == x then 0
    else
      var i := IndexOf(xs[1..], x) + 1;
      assert xs[..i] == [xs[0]] + xs[1..][..i - 1];
      i
  }

  // ---------------------------------------------------------------------
  // Compilation (base.py:66-81)

  /** The pieces and `targs` contributed by one segment when `idx` unnamed
      fields have been seen; None when an unnamed field has no parameter left. */
  function SegmentPieces(s: Segment, params: seq<string>, idx: nat): Option<(seq<Piece>, seq<nat>)>
    requires IsNamed(s) ==> s.field.value in params
  {
    var lit := if s.literal != "" then [Lit(s.literal)] else [];
    if s.field.None? then Some((lit, []))
    else if s.field.value != "" then
      var i := IndexOf(params, s.field.value);
      Some((lit + [Field(i, s.spec)], [i]))
    else if idx < |params| then Some((lit + [Field(idx, s.spec)], [idx]))
    else None
  }

  /** The whole compiled template and `targs`, starting with `idx` unnamed
      fields already consumed. */
  function Compile(segs: seq<Segment>, params: seq<string>, idx: nat): Option<(seq<Piece>, seq<nat>)>
    requires AllNamedKnown(segs, params)
  {
    if segs == [] then Some(([], []))
    else
      assert IsNamed(segs[0]) ==> segs[0].field.value in params;
      assert AllNamedKnown(segs[1..], params) by {
        assert forall j :: 0 <= j < |segs[1..]| ==> segs[1..][j] == segs[j + 1];
      }
      match SegmentPieces(segs[0], params, idx)
      case None => None
      case Some((p, t)) =>
        match Compile(segs[1..], params, idx + (if IsUnnamed(segs[0]) then 1 else 0))
        case None => None
        case Some((ps, ts)) => Some((p + ps, t + ts))
  }

  /** `make_key_func(tpl, func)`, step by step as base.py:37-85 takes them. */
  function MakeKeyFuncSpec<V>(tpl: Template<V>, sig: Signature<V>): Compilation<V> {
    match tpl
    case Callable(f) => Built(Passthrough(f))
    case Text(raw, segs) =>
      if |segs| == 1 && segs[0].field.None? then Built(Constant(raw))
      else if sig.varargs || sig.varkw then Rejected(VarArgs)
      else match FirstUnknown(segs, sig.params)
        case Some(n) => Rejected(UnknownParam(n, sig.params))
        case None =>
          match Compile(segs, sig.params, 0)
          case None => Rejected(UnnamedPastParams)
          case Some((pieces, targs)) => Built(Compiled(sig.params, sig.defaults, pieces, targs))
  }

  function Prepend(p: seq<Piece>, t: seq<nat>, rest: Option<(seq<Piece>, seq<nat>)>): Option<(seq<Piece>, seq<nat>)> {
    match rest
    case None => None
    case Some((ps, ts)) => Some((p + ps, t + ts))
  }

  lemma PrependEmpty(x: Option<(seq<Piece>, seq<nat>)>)
    ensures Prepend([], [], x) == x
  {
    match x
    case None =>
    case Some((ps, ts)) => assert [] + ps == ps && [] + ts == ts;
  }

  lemma PrependPrepend(p0: seq<Piece>, t0: seq<nat>, p: seq<Piece>, t: seq<nat>, x: Option<(seq<Piece>, seq<nat>)>)
    ensures Prepend(p0, t0, Prepend(p, t, x)) == Prepend(p0 + p, t0 + t, x)
  {
    match x
    case None =>
    case Some((ps, ts)) => assert p0 + (p + ps) == (p0 + p) + ps && t0 + (t + ts) == (t0 + t) + ts;
  }

  /** The validation loop of base.py:52-54: the first field naming no parameter. */
  method FindUnknown(segs: seq<Segment>, params: seq<string>) returns (r: Option<string>)
    ensures r == FirstUnknown(segs, params)
  {
    var j := 0;
    while j < |segs|
      invariant 0 <= j <= |segs|
      invariant FirstUnknown(segs, params) == FirstUnknown(segs[j..], params)
    {
      if IsNamed(segs[j]) && segs[j].field.value !in params {
        return Some(segs[j].field.value);
      }
      assert segs[j..][1..] == segs[j + 1..];
      j := j + 1;
    }
    return None;
  }

  /** The loop of base.py:66-81: appends the literal and the field of each
      segment to the template, binds a named field to its parameter's index
      and an unnamed one to the next parameter, advancing `idx` on unnamed
      fields only; None is the IndexError of an unnamed field past the
      parameters. */
  /** One parsed segment: its literal text, then its field, which is a
      named parameter's index or the next unnamed index (no parameter left:
      `IndexError`), advancing the unnamed counter. */
  method SegmentStep(s: Segment, params: seq<string>, idx: nat) returns (r: Option<(seq<Piece>, seq<nat>)>, idx': nat)
    requires IsNamed(s) ==> s.field.value in params
    ensures r == SegmentPieces(s, params, idx)
    ensures idx' == idx + (if IsUnnamed(s) then 1 else 0)
  {
    var pieces: seq<Piece> := [];
    var targs: seq<nat> := [];
    idx' := idx;
    if s.literal != "" {
      pieces := [Lit(s.literal)];
    }
    if s.field.Some? {
      var i: nat;
      if s.field.value != "" {
        i := IndexOf(params, s.field.value);
      } else {
        if idx >= |params| {
          return None, idx + 1;
        }
        i := idx;
        idx' := idx + 1;
      }
      targs := [i];
      pieces := pieces + [Field(i, s.spec)];
    }
    return Some((pieces, targs)), idx';
  }

  method CompileFields(segs: seq<Segment>, params: seq<string>) returns (r: Option<(seq<Piece>, seq<nat>)>)
    requires AllNamedKnown(segs, params)
    ensures r == Compile(segs, params, 0)
  {
    var pieces: seq<Piece> := [];
    var targs: seq<nat> := [];
    var idx: nat := 0;
    var j := 0;
    assert segs[0..] == segs;
    PrependEmpty(Compile(segs, params, 0));
    while j < |segs|
      invariant 0 <= j <= |segs|
      invariant AllNamedKnown(segs[j..], params)
      invariant Compile(segs, params, 0) == Prepend(pieces, targs, Compile(segs[j..], params, idx))
    {
      var s := segs[j];
      assert segs[j..][0] == s && segs[j..][1..] == segs[j + 1..];
      AllNamedKnownTail(segs[j..], params);
      var added, idx' := SegmentStep(s, params, idx);
      if added.None? {
        return None;
      }
      PrependPrepend(pieces, targs, added.value.0, added.value.1, Compile(segs[j + 1..], params, idx'));
      pieces, targs, idx := pieces + added.value.0, targs + added.value.1, idx';
      j := j + 1;
    }
    assert segs[j..] == [];
    assert pieces + [] == pieces && targs + [] == targs;
    return Some((pieces, targs));
  }

  /** `make_key_func`: a callable is the key function; a template without
      fields is a constant key; otherwise the function must take no varargs,
      every field must name a parameter, and the fields are compiled. */
  method MakeKeyFunc<V>(tpl: Template<V>, sig: Signature<V>) returns (r: Compilation<V>)
    ensures r == MakeKeyFuncSpec(tpl, sig)
  {
    if tpl.Callable? {
      return Built(Passthrough(tpl.f));
    }
    var segs := tpl.segments;
    if |segs| == 1 && segs[0].field.None? {
      return Built(Constant(tpl.raw));
    }
    if sig.varargs || sig.varkw {
      return Rejected(VarArgs);
    }
    var unknown := FindUnknown(segs, sig.params);
    if unknown.Some? {
      return Rejected(UnknownParam(unknown.value, sig.params));
    }
    var compiled := CompileFields(segs, sig.params);
    if compiled.None? {
      return Rejected(UnnamedPastParams);
    }
    return Built(Compiled(sig.params, sig.defaults, compiled.value.0, compiled.value.1));
  }

  // ---------------------------------------------------------------------
  // Calling the key function

  /** The value bound to parameter `i`: positional, else keyword, else the
      default of that parameter. */
  function BoundAt<V>(params: seq<string>, defaults: seq<V>, c: Call<V>, i: nat): Option<V>
    requires |defaults| <= |params| && i < |params|
  {
    if i < |c.pos| then Some(c.pos[i])
    else if params[i] in c.kw then Some(c.kw[params[i]])
    else if i >= |params| - |defaults| then Some(defaults[i - (|params| - |defaults|)])
    else None
  }

  function BindFrom<V>(params: seq<string>, defaults: seq<V>, c: Call<V>, i: nat): (r: Option<seq<V>>)
    requires |defaults| <= |params| && i <= |params|
    ensures r.Some? ==> |r.value| == |params| - i &&
                        forall j :: i <= j < |params| ==> BoundAt(params, defaults, c, j) == Some(r.value[j - i])
    ensures r.None? <==> exists j :: i <= j < |params| && BoundAt(params, defaults, c, j).None?
    decreases |params| - i
  {
    if i == |params| then Some([])
    else match BoundAt(params, defaults, c, i)
      case None => None
      case Some(v) =>
        match BindFrom(params, defaults, c, i + 1)
        case None => None
        case Some(rest) => Some([v] + rest)
  }

  /** Python's binding of a call to the generated lambda's parameters: too many
      positional arguments, a parameter given twice, an unknown keyword or a
      missing parameter without default is a TypeError (None). */
  function Bind<V>(params: seq<string>, defaults: seq<V>, c: Call<V>): (r: Option<seq<V>>)
    requires |defaults| <= |params|
    ensures r.Some? <==>
      && |c.pos| <= |params|
      && (forall i :: 0 <= i < |c.pos| ==> params[i] !in c.kw)
      && (forall n :: n in c.kw ==> n in params)
      && (forall i :: 0 <= i < |params| ==> BoundAt(params, defaults, c, i).Some?)
    ensures r.Some? ==> |r.value| == |params| &&
                        forall i :: 0 <= i < |params| ==> BoundAt(params, defaults, c, i) == Some(r.value[i])
  {
    if |c.pos| > |params| then None
    else if exists i :: 0 <= i < |c.pos| && params[i] in c.kw then None
    else if exists n :: n in c.kw && n !in params then None
    else BindFrom(params, defaults, c, 0)
  }

  /** `'<pieces>'.format(*args)`: a field past the end of `args` is an IndexError (None). */
  function FormatWith<V>(pieces: seq<Piece>, args: seq<V>, render: (V, string) -> string): Option<string> {
    if pieces == [] then Some("")
    else
      var head := match pieces[0]
        case Lit(t) => Some(t)
        case Field(i, spec) => if i < |args| then Some(render(args[i], spec)) else None;
      match head
      case None => None
      case Some(h) =>
        match FormatWith(pieces[1..], args, render)
        case None => None
        case Some(rest) => Some(h + rest)
  }

  /** The values the generated lambda passes to `format`: `targs`, field by field. */
  function TargsValues<V>(targs: seq<nat>, vals: seq<V>): seq<V>
    requires forall j :: 0 <= j < |targs| ==> targs[j] < |vals|
  {
    seq(|targs|, j requires 0 <= j < |targs| => vals[targs[j]])
  }

  predicate TargsInRange(targs: seq<nat>, n: nat) {
    forall j :: 0 <= j < |targs| ==> targs[j] < n
  }

  /** The key function as base.py:84-85 generates it: `{i}` is the PARAMETER
      index, but `format` receives the values of `targs`, in FIELD order. */
  function ApplyKeyAsWritten<V>(kf: KeyFunc<V>, c: Call<V>, render: (V, string) -> string): KeyResult {
    match kf
    case Passthrough(f) => KeyOk(f(c))
    case Constant(k) => KeyOk(k)
    case Compiled(params, defaults, pieces, targs) =>
      if |defaults| > |params| || !TargsInRange(targs, |params|) then BadArguments
      else match Bind(params, defaults, c)
        case None => BadArguments
        case Some(vals) =>
          match FormatWith(pieces, TargsValues(targs, vals), render)
          case None => IndexOutOfRange
          case Some(k) => KeyOk(k)
  }

  /** The key function with the evident intent: `format` receives the bound
      parameters in parameter order, so `{i}` renders parameter `i`. */
  function ApplyKey<V>(kf: KeyFunc<V>, c: Call<V>, render: (V, string) -> string): KeyResult {
    match kf
    case Passthrough(f) => KeyOk(f(c))
    case Constant(k) => KeyOk(k)
    case Compiled(params, defaults, pieces, targs) =>
      if |defaults| > |params| then BadArguments
      else match Bind(params, defaults, c)
        case None => BadArguments
        case Some(vals) =>
          match FormatWith(pieces, vals, render)
          case None => IndexOutOfRange
          case Some(k) => KeyOk(k)
  }

  // ---------------------------------------------------------------------
  // The intended meaning of a template

  /** Every field of the template can be bound: named fields name parameters,
      and there are no more unnamed fields than parameters left. */
  predicate FieldsBind(segs: seq<Segment>, params: seq<string>, idx: nat) {
    AllNamedKnown(segs, params) && idx + UnnamedCount(segs) <= |params|
  }

  /** What the template means for bound values `vals`: literals in order; a
      named field renders its parameter's value; the k-th unnamed field
      (counting from `idx`) renders the k-th parameter. */
  function Reference<V>(segs: seq<Segment>, params: seq<string>, vals: seq<V>,
                        render: (V, string) -> string, idx: nat): string
    requires FieldsBind(segs, params, idx) && |vals| == |params|
  {
    if segs == [] then ""
    else
      var s := segs[0];
      assert FieldsBind(segs[1..], params, idx + (if IsUnnamed(s) then 1 else 0)) by {
        assert forall j :: 0 <= j < |segs[1..]| ==> segs[1..][j] == segs[j + 1];
        assert IsNamed(s) ==> s.field.value in params;
      }
      s.literal + FieldText(s, params, vals, render, idx) +
      Reference(segs[1..], params, vals, render, idx + (if IsUnnamed(s) then 1 else 0))
  }

  /** What one segment's field renders: nothing for a literal-only segment,
      the value of the named parameter, or the `idx`-th value for `{}`. */
  function FieldText<V>(s: Segment, params: seq<string>, vals: seq<V>, render: (V, string) -> string, idx: nat): string
    requires IsNamed(s) ==> s.field.value in params
    requires IsUnnamed(s) ==> idx < |params|
    requires |vals| == |params|
  {
    if s.field.None? then ""
    else if s.field.value == "" then render(vals[idx], s.spec)
    else render(vals[IndexOf(params, s.field.value)], s.spec)
  }

  // ---------------------------------------------------------------------
  // Lemmas

  /** Concatenation of two optional strings, failing when either fails. */
  function OptConcat(x: Option<string>, y: Option<string>): Option<string> {
    if x.Some? && y.Some? then Some(x.value + y.value) else None
  }

  lemma {:induction false} FormatWithConcat<V>(a: seq<Piece>, b: seq<Piece>, args: seq<V>, render: (V, string) -> string)
    ensures FormatWith(a + b, args, render) == OptConcat(FormatWith(a, args, render), FormatWith(b, args, render))
    decreases |a|
  {
    if a == [] {
      assert a + b == b;
      if FormatWith(b, args, render).Some? {
        assert "" + FormatWith(b, args, render).value == FormatWith(b, args, render).value;
      }
    } else {
      assert (a + b)[0] == a[0] && (a + b)[1..] == a[1..] + b;
      FormatWithConcat(a[1..], b, args, render);
      var h := FormatWith([a[0]], args, render);
      FormatSingle(a[0], args, render);
      if h.Some? && FormatWith(a[1..], args, render).Some? && FormatWith(b, args, render).Some? {
        var x, y := FormatWith(a[1..], args, render).value, FormatWith(b, args, render).value;
        assert h.value + (x + y) == (h.value + x) + y;
      }
    }
  }

  lemma FormatSingle<V>(p: Piece, args: seq<V>, render: (V, string) -> string)
    ensures p.Lit? ==> FormatWith([p], args, render) == Some(p.text)
    ensures p.Field? && p.index < |args| ==> FormatWith([p], args, render) == Some(render(args[p.index], p.spec))
    ensures p.Field? && p.index >= |args| ==> FormatWith([p], args, render) == None
  {
    assert [p][1..] == [];
    if p.Lit? {
      assert p.text + "" == p.text;
    } else if p.index < |args| {
      assert render(args[p.index], p.spec) + "" == render(args[p.index], p.spec);
    }
  }

  /** Compilation succeeds exactly when every unnamed field has a parameter. */
  lemma {:induction false} CompileSucceeds(segs: seq<Segment>, params: seq<string>, idx: nat)
    requires AllNamedKnown(segs, params) && idx <= |params|
    ensures Compile(segs, params, idx).Some? <==> idx + UnnamedCount(segs) <= |params|
    decreases |segs|
  {
    if segs != [] {
      AllNamedKnownTail(segs, params);
      var s := segs[0];
      var idx' := idx + (if IsUnnamed(s) then 1 else 0);
      assert SegmentPieces(s, params, idx).Some? <==> !(IsUnnamed(s) && idx >= |params|);
      if idx' <= |params| {
        CompileSucceeds(segs[1..], params, idx');
      }
      assert UnnamedCount(segs) == (if IsUnnamed(s) then 1 else 0) + UnnamedCount(segs[1..]);
      assert Compile(segs, params, idx).Some? <==>
             SegmentPieces(s, params, idx).Some? && Compile(segs[1..], params, idx').Some?;
    }
  }

  /** Every field index the compiler emits is a parameter index. */
  lemma {:induction false} CompileInRange(segs: seq<Segment>, params: seq<string>, idx: nat)
    requires AllNamedKnown(segs, params) && Compile(segs, params, idx).Some?
    ensures TargsInRange(Compile(segs, params, idx).value.1, |params|)
    ensures forall p :: p in Compile(segs, params, idx).value.0 && p.Field? ==> p.index < |params|
    decreases |segs|
  {
    if segs != [] {
      AllNamedKnownTail(segs, params);
      CompileInRange(segs[1..], params, idx + (if IsUnnamed(segs[0]) then 1 else 0));
    }
  }

  /** One segment's compiled pieces format to its literal and field text. */
  lemma SegmentMeansText<V>(s: Segment, params: seq<string>, vals: seq<V>, render: (V, string) -> string, idx: nat)
    requires IsNamed(s) ==> s.field.value in params
    requires IsUnnamed(s) ==> idx < |params|
    requires |vals| == |params|
    ensures SegmentPieces(s, params, idx).Some?
    ensures FormatWith(SegmentPieces(s, params, idx).value.0, vals, render) == Some(s.literal + FieldText(s, params, vals, render, idx))
  {
    var p := SegmentPieces(s, params, idx).value.0;
    var lit: seq<Piece> := if s.literal != "" then [Lit(s.literal)] else [];
    assert FormatWith(lit, vals, render) == Some(s.literal) by {
      if s.literal != "" {
        FormatSingle(Lit(s.literal), vals, render);
      }
    }
    if s.field.None? {
      assert p == lit && s.literal + FieldText(s, params, vals, render, idx) == s.literal;
    } else {
      var i := if s.field.value != "" then IndexOf(params, s.field.value) else idx;
      assert p == lit + [Field(i, s.spec)];
      FormatWithConcat(lit, [Field(i, s.spec)], vals, render);
      FormatSingle(Field(i, s.spec), vals, render);
    }
  }

  /** The compiled pieces, formatted with the parameters in order, produce the
      intended key. */
  lemma {:induction false} CompileMeansReference<V>(segs: seq<Segment>, params: seq<string>, vals: seq<V>,
                                                     render: (V, string) -> string, idx: nat)
    requires FieldsBind(segs, params, idx) && |vals| == |params|
    ensures Compile(segs, params, idx).Some?
    ensures FormatWith(Compile(segs, params, idx).value.0, vals, render) == Some(Reference(segs, params, vals, render, idx))
    decreases |segs|
  {
    CompileSucceeds(segs, params, idx);
    if segs != [] {
      var s := segs[0];
      var idx' := idx + (if IsUnnamed(s) then 1 else 0);
      assert FieldsBind(segs[1..], params, idx') by {
        assert forall j :: 0 <= j < |segs[1..]| ==> segs[1..][j] == segs[j + 1];
        assert IsNamed(s) ==> s.field.value in params;
      }
      CompileMeansReference(segs[1..], params, vals, render, idx');
      SegmentMeansText(s, params, vals, render, idx);
      var p := SegmentPieces(s, params, idx).value.0;
      var ps := Compile(segs[1..], params, idx').value.0;
      FormatWithConcat(p, ps, vals, render);
      assert Compile(segs, params, idx).value.0 == p + ps;
    }
  }


  /** A callable template is the key function itself. */
  lemma CallableIsKept<V>(f: Call<V> -> string, sig: Signature<V>, c: Call<V>, render: (V, string) -> string)
    ensures MakeKeyFuncSpec(Callable(f), sig) == Built(Passthrough(f))
    ensures ApplyKey(Passthrough(f), c, render) == KeyOk(f(c))
  {
  }

  /** A template of one literal segment is a constant key: the raw template,
      for every call, whatever the function's signature (varargs included). */
  lemma ConstantIgnoresArguments<V>(raw: string, lit: string, sig: Signature<V>, c1: Call<V>, c2: Call<V>,
                                    render: (V, string) -> string)
    ensures MakeKeyFuncSpec(Text(raw, [Segment(lit, None, "")]), sig) == Built(Constant(raw))
    ensures ApplyKey(Constant(raw), c1, render) == ApplyKey(Constant(raw), c2, render) == KeyOk(raw)
  {
  }

  /** Compilation result for a template string, in the order base.py checks:
      constant templates first, then varargs, then unknown field names, then
      unnamed fields past the parameters; otherwise a compiled key function. */
  lemma {:induction false} TextCompilation<V>(raw: string, segs: seq<Segment>, sig: Signature<V>)
    requires !(|segs| == 1 && segs[0].field.None?)
    ensures sig.varargs || sig.varkw ==> MakeKeyFuncSpec(Text(raw, segs), sig) == Rejected(VarArgs)
    ensures !sig.varargs && !sig.varkw && !AllNamedKnown(segs, sig.params) ==>
              MakeKeyFuncSpec(Text(raw, segs), sig).Rejected? &&
              var e := MakeKeyFuncSpec(Text(raw, segs), sig).error;
              e.UnknownParam? && e.valid == sig.params && e.name !in sig.params &&
              exists j :: 0 <= j < |segs| && segs[j].field == Some(e.name)
    ensures !sig.varargs && !sig.varkw && AllNamedKnown(segs, sig.params) ==>
              (MakeKeyFuncSpec(Text(raw, segs), sig).Built? <==> UnnamedCount(segs) <= |sig.params|)
  {
    if !sig.varargs && !sig.varkw && AllNamedKnown(segs, sig.params) {
      CompileSucceeds(segs, sig.params, 0);
    }
  }

  /** The compiled key function (as intended) renders the template's meaning
      for every call that binds: a template whose named fields name parameters
      and whose unnamed fields do not outnumber them compiles, and its key is
      named fields by parameter, unnamed fields left to right, absent
      arguments from the defaults. */
  lemma {:induction false} CompiledKeyIsReference<V>(raw: string, segs: seq<Segment>, sig: Signature<V>, c: Call<V>,
                                                     render: (V, string) -> string)
    requires WellFormed(sig) && !sig.varargs && !sig.varkw
    requires !(|segs| == 1 && segs[0].field.None?)
    requires FieldsBind(segs, sig.params, 0)
    requires Bind(sig.params, sig.defaults, c).Some?
    ensures MakeKeyFuncSpec(Text(raw, segs), sig).Built?
    ensures ApplyKey(MakeKeyFuncSpec(Text(raw, segs), sig).kf, c, render) ==
            KeyOk(Reference(segs, sig.params, Bind(sig.params, sig.defaults, c).value, render, 0))
  {
    CompileSucceeds(segs, sig.params, 0);
    CompileMeansReference(segs, sig.params, Bind(sig.params, sig.defaults, c).value, render, 0);
  }

  /** When the fields name parameters 0, 1, 2, ... in order, the generated
      lambda and the intended one agree. */
  lemma {:induction false} AsWrittenAgreesInOrder<V>(params: seq<string>, defaults: seq<V>, pieces: seq<Piece>,
                                                     targs: seq<nat>, c: Call<V>, render: (V, string) -> string)
    requires |defaults| <= |params| && |targs| <= |params|
    requires forall j :: 0 <= j < |targs| ==> targs[j] == j
    requires forall p :: p in pieces && p.Field? ==> p.index < |targs|
    ensures ApplyKeyAsWritten(Compiled(params, defaults, pieces, targs), c, render) ==
            ApplyKey(Compiled(params, defaults, pieces, targs), c, render)
  {
    match Bind(params, defaults, c)
    case None =>
    case Some(vals) =>
      FormatPrefixArgs(pieces, vals, |targs|, render);
      assert TargsValues(targs, vals) == vals[..|targs|];
  }

  /** Fields that only use the first `n` arguments format the same with the
      other arguments cut off. */
  lemma {:induction false} FormatPrefixArgs<V>(pieces: seq<Piece>, vals: seq<V>, n: nat, render: (V, string) -> string)
    requires n <= |vals|
    requires forall p :: p in pieces && p.Field? ==> p.index < n
    ensures FormatWith(pieces, vals[..n], render) == FormatWith(pieces, vals, render)
    decreases |pieces|
  {
    if pieces != [] {
      assert pieces[0] in pieces;
      assert forall p :: p in pieces[1..] ==> p in pieces;
      FormatPrefixArgs(pieces[1..], vals, n, render);
    }
  }

  /** `'{foo}'` on `f(foo=20)` called with no arguments gives `"20"`. */
  lemma DefaultCarriesIntoKey()
    ensures var sig := Signature(["foo"], ["20"], false, false);
            var segs := [Segment("", Some("foo"), "")];
            MakeKeyFuncSpec(Text("{foo}", segs), sig) == Built(Compiled(["foo"], ["20"], [Field(0, "")], [0])) &&
            ApplyKey(Compiled(["foo"], ["20"], [Field(0, "")], [0]), Call([], map[]), (v: string, spec: string) => v) == KeyOk("20")
  {
    var c: Call<string> := Call([], map[]);
    var segs := [Segment("", Some("foo"), "")];
    assert FirstUnknown(segs, ["foo"]) == None by {
      assert segs[1..] == [];
    }
    assert Compile(segs, ["foo"], 0) == Some(([Field(0, "")], [0])) by {
      assert segs[1..] == [];
      assert IndexOf(["foo"], "foo") == 0;
      assert [] + [Field(0, "")] == [Field(0, "")];
      assert SegmentPieces(segs[0], ["foo"], 0) == Some(([Field(0, "")], [0]));
      assert [Field(0, "")] + [] == [Field(0, "")];
      assert [0] + [] == [0];
    }
    assert BoundAt(["foo"], ["20"], c, 0) == Some("20");
    assert BindFrom(["foo"], ["20"], c, 1) == Some([]);
    assert ["20"] + [] == ["20"];
    assert Bind(["foo"], ["20"], c) == Some(["20"]);
    FormatSingle(Field(0, ""), ["20"], (v: string, spec: string) => v);
  }

  /** A call with one positional argument per parameter binds them in order. */
  lemma BindPositional<V>(params: seq<string>, defaults: seq<V>, vals: seq<V>)
    requires |defaults| <= |params| && |vals| == |params|
    ensures Bind(params, defaults, Call(vals, map[])) == Some(vals)
  {
    var c := Call(vals, map[]);
    assert forall i :: 0 <= i < |params| ==> BoundAt(params, defaults, c, i) == Some(vals[i]);
    var r := Bind(params, defaults, c);
    assert r.Some?;
    assert r.value == vals;
  }

  /** The test template of base.py's key check: fields in the opposite order
      of the parameters. */
  const SwappedSegments: seq<Segment> := [Segment("", Some("boo"), ""), Segment("-", Some("foo"), "")]
  const SwappedPieces: seq<Piece> := [Field(1, ""), Lit("-"), Field(0, "")]

  lemma SwappedCompiles()
    ensures MakeKeyFuncSpec<string>(Text("{boo}-{foo}", SwappedSegments), Signature(["foo", "boo"], [], false, false)) ==
            Built(Compiled(["foo", "boo"], [], SwappedPieces, [1, 0]))
  {
    var segs, params := SwappedSegments, ["foo", "boo"];
    assert segs[1..][1..] == [];
    assert FirstUnknown(segs, params) == None;
    assert IndexOf(params, "boo") == 1 && IndexOf(params, "foo") == 0 by {
      assert params[1..] == ["boo"];
    }
    assert [Lit("-")] + [Field(0, "")] == [Lit("-"), Field(0, "")];
    assert SegmentPieces(segs[1], params, 0) == Some(([Lit("-"), Field(0, "")], [0]));
    assert [] + [Field(1, "")] == [Field(1, "")];
    assert SegmentPieces(segs[0], params, 0) == Some(([Field(1, "")], [1]));
    assert Compile(segs[1..][1..], params, 0) == Some(([], []));
    assert [Lit("-"), Field(0, "")] + [] == [Lit("-"), Field(0, "")] && [0] + [] == [0];
    assert Compile(segs[1..], params, 0) == Some(([Lit("-"), Field(0, "")], [0]));
    assert [Field(1, "")] + [Lit("-"), Field(0, "")] == SwappedPieces && [1] + [0] == [1, 0];
    assert Compile(segs, params, 0) == Some((SwappedPieces, [1, 0]));
  }

  /** As written, `'{boo}-{foo}'` on `f(foo, boo)` called as `f(10, 20)` gives
      `"10-20"`: each field's parameter index is applied to the FIELD-ordered
      arguments, swapping the two values; the intended key is `"20-10"`. */
  lemma SwappedFieldsAsWritten()
    ensures var kf: KeyFunc<string> := Compiled(["foo", "boo"], [], SwappedPieces, [1, 0]);
            var c := Call(["10", "20"], map[]);
            var render := (v: string, spec: string) => v;
            ApplyKeyAsWritten(kf, c, render) == KeyOk("10-20") &&
            ApplyKey(kf, c, render) == KeyOk("20-10")
  {
    var render := (v: string, spec: string) => v;
    BindPositional<string>(["foo", "boo"], [], ["10", "20"]);
    var swapped := TargsValues([1, 0], ["10", "20"]);
    assert swapped == ["20", "10"];
    var tail := SwappedPieces[1..];
    assert tail[1..] == [Field(0, "")];
    FormatSingle(Field(0, ""), swapped, render);
    FormatSingle(Field(0, ""), ["10", "20"], render);
    assert FormatWith(SwappedPieces, swapped, render) == Some("10" + ("-" + "20"));
    assert "10" + ("-" + "20") == "10-20";
    assert FormatWith(SwappedPieces, ["10", "20"], render) == Some("20" + ("-" + "10"));
    assert "20" + ("-" + "10") == "20-10";
  }

  /** The key the template describes for `f(10, 20)` is `"20-10"`. */
  lemma SwappedFieldsReference()
    ensures Reference(SwappedSegments, ["foo", "boo"], ["10", "20"], (v: string, spec: string) => v, 0) == "20-10"
  {
    var render := (v: string, spec: string) => v;
    var segs := SwappedSegments;
    assert segs[1..][1..] == [];
    assert FieldsBind(segs, ["foo", "boo"], 0);
    assert IndexOf(["foo", "boo"], "boo") == 1 && IndexOf(["foo", "boo"], "foo") == 0 by {
      assert ["foo", "boo"][1..] == ["boo"];
    }
    assert Reference(segs[1..], ["foo", "boo"], ["10", "20"], render, 0) == "-" + "10" + "" ;
    assert Reference(segs, ["foo", "boo"], ["10", "20"], render, 0) == "" + "20" + ("-" + "10" + "");
  }

  /** As written, `'{boo}'` on `f(foo, boo)` raises IndexError at call time:
      the field keeps parameter index 1 but `format` receives one argument. */
  lemma SecondParameterAloneAsWritten()
    ensures var kf: KeyFunc<string> := Compiled(["foo", "boo"], [], [Field(1, "")], [1]);
            var c := Call(["10", "20"], map[]);
            var render := (v: string, spec: string) => v;
            ApplyKeyAsWritten(kf, c, render) == IndexOutOfRange &&
            ApplyKey(kf, c, render) == KeyOk("20")
  {
    var render := (v: string, spec: string) => v;
    BindPositional<string>(["foo", "boo"], [], ["10", "20"]);
    assert TargsValues([1], ["10", "20"]) == ["20"];
    FormatSingle(Field(1, ""), ["20"], render);
    FormatSingle(Field(1, ""), ["10", "20"], render);
  }

  // ---------------------------------------------------------------------
  // gen_expire (base.py:31-34)

  const DEFAULT_SPREAD: int := 10

  /** Integer `/` as the module's arithmetic runs it: floor division. */
  function FloorDiv(a: int, b: int): (q: int)
    requires b != 0
    ensures b > 0 ==> q * b <= a < q * b + b
    ensures b < 0 ==> q * b >= a > q * b + b
  {
    if b > 0 then a / b else (-a) / (-b)
  }

  /** The bounds `[e - e/spread, e + e/spread]` handed to `randint`. */
  function JitterBounds(expire: int, spread: int): (int, int)
    requires spread != 0
  {
    (expire - FloorDiv(expire, spread), expire + FloorDiv(expire, spread))
  }

  /** `gen_expire(expire, spread)`: any integer within the bounds; a zero
      spread divides by zero and an empty range makes `randint` raise (None). */
  method GenExpire(expire: int, spread: int) returns (r: Option<int>)
    ensures spread == 0 ==> r.None?
    ensures spread != 0 ==> (r.Some? <==> JitterBounds(expire, spread).0 <= JitterBounds(expire, spread).1)
    ensures r.Some? ==> spread != 0 && JitterBounds(expire, spread).0 <= r.value <= JitterBounds(expire, spread).1
  {
    if spread == 0 {
      return None;
    }
    var (lo, hi) := JitterBounds(expire, spread);
    if lo > hi {
      return None;
    }
    var x :| lo <= x <= hi;
    return Some(x);
  }

  /** For a non-negative ttl and positive spread the range is never empty, it
      holds the nominal ttl, it is symmetric about it and at most a
      `1/spread` fraction wide on each side. */
  lemma JitterAroundNominal(expire: nat, spread: int)
    requires spread > 0
    ensures 0 <= JitterBounds(expire, spread).0 <= expire <= JitterBounds(expire, spread).1
    ensures JitterBounds(expire, spread).1 - expire == expire - JitterBounds(expire, spread).0
    ensures (JitterBounds(expire, spread).1 - expire) * spread <= expire
  {
    var q := FloorDiv(expire, spread);
    DivBounds(expire, spread);
    assert JitterBounds(expire, spread) == (expire - q, expire + q);
    AtMostMultiple(q, spread);
  }

  lemma {:induction false} AtMostMultiple(q: nat, s: int)
    requires s >= 1
    ensures q <= q * s
  {
    if q > 0 {
      AtMostMultiple(q - 1, s);
      assert q * s == (q - 1) * s + s;
    }
  }

  /** Floor division of a non-negative dividend by a positive divisor. */
  lemma DivBounds(a: nat, b: int)
    requires b > 0
    ensures 0 <= FloorDiv(a, b) && FloorDiv(a, b) * b <= a
    ensures a < b ==> FloorDiv(a, b) == 0
  {
  }

  /** `gen_expire(10)` lies in [9, 11]. */
  lemma DefaultJitterOfTen()
    ensures JitterBounds(10, DEFAULT_SPREAD) == (9, 11)
  {
  }

  /** A ttl below the spread is never jittered. */
  lemma SmallTtlIsExact(expire: nat, spread: int)
    requires 0 < spread && expire < spread
    ensures JitterBounds(expire, spread) == (expire, expire)
  {
    DivBounds(expire, spread);
  }
}

/** The tier2 payload format `"<int expiry>:<payload>"` used by both two-tier
    wrappers (cachel/local.py:60-69, cachel/offload.py:46-55): the expiry as
    ASCII decimal digits, one `:`, then the encoded value. */
module WireFormat {
  import opened Common

  const COLON: Byte := 58
  const MINUS: Byte := 45
  const PLUS: Byte := 43
  const ZERO: Byte := 48

  predicate IsDigit(b: Byte) {
    48 <= b <= 57
  }

  predicate AllDigits(s: Bytes) {
    forall i :: 0 <= i < |s| ==> IsDigit(s[i])
  }

  /** Python's `int(x)` for a float: truncation toward zero. */
  function Trunc(x: real): (r: int)
    ensures 0.0 <= x ==> r as real <= x < r as real + 1.0
    ensures x < 0.0 ==> r as real - 1.0 < x <= r as real
  {
    if x >= 0.0 then x.Floor else -((-x).Floor)
  }

  /** The ASCII digits of a natural number, most significant first. */
  function Digits(n: nat): Bytes
    decreases n
  {
    if n < 10 then [(48 + n) as Byte] else Digits(n / 10) + [(48 + n % 10) as Byte]
  }

  /** The value of a run of ASCII digits. */
  function DigitsValue(s: Bytes): nat
    requires AllDigits(s)
    decreases |s|
  {
    if s == [] then 0 else DigitsValue(s[..|s| - 1]) * 10 + (s[|s| - 1] as int - 48)
  }

  /** `str(n).encode()`. */
  function Decimal(n: int): Bytes {
    if n < 0 then [MINUS] + Digits(-n) else Digits(n)
  }

  /** `int(s)` for a byte string: an optional sign followed by at least one
      digit; anything else is a ValueError (None). */
  function ParseInt(s: Bytes): Option<int> {
    if |s| > 0 && (s[0] == MINUS || s[0] == PLUS) then
      if |s| > 1 && AllDigits(s[1..]) then
        Some(if s[0] == MINUS then -(DigitsValue(s[1..]) as int) else DigitsValue(s[1..]))
      else None
    else if |s| > 0 && AllDigits(s) then Some(DigitsValue(s))
    else None
  }

  lemma {:induction false} DigitsRoundTrip(n: nat)
    ensures |Digits(n)| > 0 && AllDigits(Digits(n))
    ensures DigitsValue(Digits(n)) == n
    decreases n
  {
    if n >= 10 {
      DigitsRoundTrip(n / 10);
      var d := Digits(n);
      assert d[..|d| - 1] == Digits(n / 10);
    }
  }

  /** Parsing the decimal rendering gives the number back, and the rendering
      never contains the separator. */
  lemma DecimalRoundTrip(n: int)
    ensures ParseInt(Decimal(n)) == Some(n)
    ensures COLON !in Decimal(n)
  {
    var m: nat := if n < 0 then -n else n;
    DigitsRoundTrip(m);
    if n < 0 {
      assert Decimal(n)[1..] == Digits(m);
    }
    assert AllDigits(Decimal(n)) || Decimal(n)[0] == MINUS;
  }

  /** The position of the first `:`, if there is one. */
  function FirstColon(s: Bytes): (r: Option<nat>)
    ensures r.Some? ==> r.value < |s| && s[r.value] == COLON && COLON !in s[..r.value]
    ensures r.None? ==> COLON !in s
  {
    if s == [] then None
    else if s[0] == COLON then Some(0)
    else match FirstColon(s[1..]) {
      case None => None
      case Some(i) =>
        assert s[..i + 1] == [s[0]] + s[1..][..i];
        Some(i + 1)
    }
  }

  /** `data.partition(b':')` without the separator: the part before the first
      `:` and the part after it; with no `:` the whole input and nothing. */
  function Partition(s: Bytes): (r: (Bytes, Bytes))
    ensures COLON in s ==> COLON !in r.0 && r.0 + [COLON] + r.1 == s
    ensures COLON !in s ==> r == (s, [])
  {
    match FirstColon(s) {
      case None => (s, [])
      case Some(i) =>
        assert s[..i] + [COLON] + s[i + 1..] == s;
        (s[..i], s[i + 1..])
    }
  }

  /** The absolute expiry `int(now + ttl1)` that `dumps2` embeds. */
  function Expiry(now: real, ttl1: int): int {
    Trunc(now + ttl1 as real)
  }

  /** `dumps2(data)` at clock reading `now`. */
  function Dumps2(now: real, ttl1: int, data: Bytes): Bytes {
    Decimal(Expiry(now, ttl1)) + [COLON] + data
  }

  /** `loads2(data)`: the embedded expiry and the inner payload; a prefix that
      `int()` rejects raises ValueError (BadTier2Entry). */
  function Loads2(data: Bytes): (r: Result<(int, Bytes)>)
    ensures r.Ok? ==> ParseInt(Partition(data).0) == Some(r.value.0) && r.value.1 == Partition(data).1
    ensures r.Err? <==> ParseInt(Partition(data).0).None?
  {
    var (head, tail) := Partition(data);
    match ParseInt(head) {
      case None => Err(BadTier2Entry)
      case Some(e) => Ok((e, tail))
    }
  }

  /** The wire format round-trips, whatever the payload holds (a `:` in the
      payload included), because the split is at the FIRST separator. */
  lemma {:induction false} Loads2Dumps2(now: real, ttl1: int, data: Bytes)
    ensures Loads2(Dumps2(now, ttl1, data)) == Ok((Expiry(now, ttl1), data))
  {
    var e := Expiry(now, ttl1);
    DecimalRoundTrip(e);
    var s := Dumps2(now, ttl1, data);
    assert COLON in s by {
      assert s[|Decimal(e)|] == COLON;
    }
    var (h, t) := Partition(s);
    assert h + [COLON] + t == Decimal(e) + [COLON] + data;
    PrefixSplit(h, t, Decimal(e), data);
  }

  /** Two splits around a separator that neither head contains are one split. */
  lemma PrefixSplit(h: Bytes, t: Bytes, h': Bytes, t': Bytes)
    requires COLON !in h && COLON !in h'
    requires h + [COLON] + t == h' + [COLON] + t'
    ensures h == h' && t == t'
  {
    var s := h + [COLON] + t;
    assert s[..|h|] == h && s[|h|] == COLON;
    assert s[..|h'|] == h' && s[|h'|] == COLON;
    FirstColonAt(s, |h|);
    FirstColonAt(s, |h'|);
    assert h == s[..|h|] == h';
    assert t == s[|h| + 1..] == t';
  }

  /** A `:` with none before it is the first one. */
  lemma {:induction false} FirstColonAt(s: Bytes, i: nat)
    requires i < |s| && s[i] == COLON && COLON !in s[..i]
    ensures FirstColon(s) == Some(i)
  {
    if i > 0 {
      assert s[0] == s[..i][0];
      assert s[1..][..i - 1] == s[1..i];
      assert COLON !in s[1..i] by {
        assert forall j :: 1 <= j < i ==> s[j] == s[..i][j];
      }
      FirstColonAt(s[1..], i - 1);
    }
  }

  /** A tier2 value with no `:` parses as a bare expiry with an empty payload. */
  lemma Loads2WithoutSeparator(data: Bytes, e: int)
    requires COLON !in data && ParseInt(data) == Some(e)
    ensures Loads2(data) == Ok((e, []))
  {
  }

  /** An empty tier2 value is not a valid entry. */
  lemma Loads2Empty()
    ensures Loads2([]) == Err(BadTier2Entry)
  {
  }
}

/** Shared vocabulary of the cache model: bytes, keys, backend entries, the
    injected codec, the wrapped function's reply and the `_Expire` override. */
module Common {

  /** One byte of a stored payload. */
  newtype Byte = x: int | 0 <= x < 256

  type Bytes = seq<Byte>

  /** Cache keys are the strings the key function produces. */
  type Key = string

  datatype Option<+T> = None | Some(value: T) {
    function GetOr(default: T): T {
      match this
      case Some(v) => v
      case None => default
    }
  }

  /** What the core reports instead of a value: the wrapped function raised,
      a tier2 payload does not start with a decimal expiry (ValueError), or an
      offload message carries no cache id (KeyError). */
  datatype Error = FuncRaised | BadTier2Entry | NoCacheId

  datatype Result<+T> = Ok(value: T) | Err(error: Error)

  /** One call of the wrapped function: it returns a value or raises. */
  datatype Reply<+R> = Returned(value: R) | Raised

  /** A wrapped function's result: a plain value, or `_Expire(value, ttl)`
      asking for a custom ttl on this one cache write. */
  datatype Ret<+V> = Plain(value: V) | WithTtl(value: V, ttl: int) {
    /** The ttl this result is written with when the wrapper's own is `default`. */
    function TtlOr(default: int): int {
      match this
      case Plain(_) => default
      case WithTtl(_, t) => t
    }
  }

  /** A backend slot: the stored bytes and the ttl they were written with. */
  datatype Entry = Entry(value: Bytes, ttl: int)

  /** The contents of one key-value backend. */
  type Store = map<Key, Entry>

  /** `get(key)`: the stored bytes, or None for a key that is not there. */
  function Lookup(s: Store, k: Key): Option<Bytes> {
    if k in s then Some(s[k].value) else None
  }

  /** Python truthiness of a byte string. */
  predicate Truthy(b: Bytes) {
    |b| > 0
  }

  /** The injected serializer pair `(dumps, loads)`. */
  datatype Codec<!V> = Codec(dumps: V -> Bytes, loads: Bytes -> V)

  /** The one thing the core assumes of a codec: decoding undoes encoding. */
  ghost predicate RoundTrips<V(!new)>(c: Codec<V>) {
    forall x: V {:trigger c.dumps(x)} :: c.loads(c.dumps(x)) == x
  }
}

/** The key-value backend every wrapper talks to: a map from key to
    (bytes, ttl), with the multi-key operations done key by key. */
module Backend {
  import opened Common

  /** The store after writing every pair, in order, with one ttl. */
  function SetAll(s: Store, pairs: seq<(Key, Bytes)>, ttl: int): Store
    decreases |pairs|
  {
    if pairs == [] then s
    else SetAll(s[pairs[0].0 := Entry(pairs[0].1, ttl)], pairs[1..], ttl)
  }

  /** What `SetAll` leaves at each key: a key that no pair names keeps its old
      entry; a named key holds the value of the last pair for it. */
  lemma {:induction false} SetAllAt(s: Store, pairs: seq<(Key, Bytes)>, ttl: int, k: Key)
    ensures (forall j :: 0 <= j < |pairs| ==> pairs[j].0 != k) ==> Lookup(SetAll(s, pairs, ttl), k) == Lookup(s, k)
    ensures (forall j :: 0 <= j < |pairs| ==> pairs[j].0 != k) && k in s ==> SetAll(s, pairs, ttl)[k] == s[k]
    ensures (exists j :: 0 <= j < |pairs| && pairs[j].0 == k) ==>
              k in SetAll(s, pairs, ttl) &&
              exists j :: 0 <= j < |pairs| && pairs[j].0 == k && SetAll(s, pairs, ttl)[k] == Entry(pairs[j].1, ttl) &&
                          forall j' :: j < j' < |pairs| ==> pairs[j'].0 != k
    decreases |pairs|
  {
    if pairs != [] {
      var s' := s[pairs[0].0 := Entry(pairs[0].1, ttl)];
      SetAllAt(s', pairs[1..], ttl, k);
      if exists j :: 0 <= j < |pairs| && pairs[j].0 == k {
        if exists j :: 0 <= j < |pairs[1..]| && pairs[1..][j].0 == k {
          var j :| 0 <= j < |pairs[1..]| && pairs[1..][j].0 == k && SetAll(s', pairs[1..], ttl)[k] == Entry(pairs[1..][j].1, ttl) &&
                   forall j' :: j < j' < |pairs[1..]| ==> pairs[1..][j'].0 != k;
          assert pairs[j + 1] == pairs[1..][j];
          forall j' | j + 1 < j' < |pairs| ensures pairs[j'].0 != k {
            assert pairs[j'] == pairs[1..][j' - 1];
          }
        } else {
          assert pairs[0].0 == k;
          forall j' | 0 < j' < |pairs| ensures pairs[j'].0 != k {
            assert pairs[j'] == pairs[1..][j' - 1];
          }
        }
      } else {
        assert pairs[0].0 != k;
      }
    }
  }

  /** The in-memory backend of the test suite: a dictionary from key to
      `(value, expire)`; ttls are recorded, not enforced. */
  class MapCache {
    var data: Store

    constructor ()
      ensures data == map[]
    {
      data := map[];
    }

    method Get(k: Key) returns (r: Option<Bytes>)
      ensures r.Some? <==> k in data
      ensures r.Some? ==> r.value == data[k].value
    {
      if k in data {
        r := Some(data[k].value);
      } else {
        r := None;
      }
    }

    method Set(k: Key, v: Bytes, ttl: int)
      modifies this
      ensures data == old(data)[k := Entry(v, ttl)]
    {
      data := data[k := Entry(v, ttl)];
    }

    /** `delete` of a missing key is a no-op. */
    method Delete(k: Key)
      modifies this
      ensures data == old(data) - {k}
    {
      data := data - {k};
    }

    /** `mget`: one lookup per key, positionally aligned with the keys. */
    method MGet(keys: seq<Key>) returns (rs: seq<Option<Bytes>>)
      ensures |rs| == |keys|
      ensures forall i :: 0 <= i < |keys| ==> rs[i] == Lookup(data, keys[i])
    {
      rs := [];
      var i := 0;
      while i < |keys|
        invariant 0 <= i <= |keys|
        invariant |rs| == i
        invariant forall j :: 0 <= j < i ==> rs[j] == Lookup(data, keys[j])
      {
        var v := Get(keys[i]);
        rs := rs + [v];
        i := i + 1;
      }
    }

    /** `mset`: one `set` per pair, all with the same ttl. */
    method MSet(pairs: seq<(Key, Bytes)>, ttl: int)
      modifies this
      ensures data == SetAll(old(data), pairs, ttl)
    {
      var i := 0;
      while i < |pairs|
        invariant 0 <= i <= |pairs|
        invariant SetAll(data, pairs[i..], ttl) == SetAll(old(data), pairs, ttl)
      {
        assert pairs[i..][1..] == pairs[i + 1..];
        Set(pairs[i].0, pairs[i].1, ttl);
        i := i + 1;
      }
    }

    /** `mdelete`: one `delete` per key. */
    method MDelete(keys: seq<Key>)
      modifies this
      ensures data == old(data) - (set k | k in keys)
    {
      var i := 0;
      while i < |keys|
        invariant 0 <= i <= |keys|
        invariant data == old(data) - (set k | k in keys[..i])
      {
        assert keys[..i + 1] == keys[..i] + [keys[i]];
        Delete(keys[i]);
        i := i + 1;
      }
      assert keys[..|keys|] == keys;
    }
  }
}

/** A string-keyed JavaScript `Map`: `set` on a new key appends it, `set` on
    a present key replaces the value and keeps the key's position, and
    `values()` lists values in key-insertion order. */
module OrderedMap {
  import opened Wrappers
  import opened Seqs

  datatype OMap<V> = OMap(keys: seq<string>, vals: map<string, V>)
  {
    /** Keys are listed once each and are exactly the mapped keys. */
    ghost predicate Valid()
    {
      NoDup(keys) && (forall k :: k in vals <==> k in keys)
    }

    /** `map.size` */
    function Size(): nat
    {
      |keys|
    }

    /** `map.get(k)` */
    function Get(k: string): Option<V>
    {
      if k in vals then Some(vals[k]) else None
    }

    /** `map.set(k, v)` */
    function Set(k: string, v: V): (r: OMap<V>)
      requires Valid()
      ensures r.Valid()
      ensures r.Get(k) == Some(v)
      ensures forall j :: j != k ==> r.Get(j) == Get(j)
      ensures k in vals ==> r.keys == keys
      ensures k !in vals ==> r.keys == keys + [k]
    {
      if k in vals then OMap(keys, vals[k := v])
      else
        var r := OMap(keys + [k], vals[k := v]);
        assert forall i :: 0 <= i < |keys| ==> keys[i] != k;
        r
    }

    /** `delete obj[k]`: the key and its value go, the other keys keep
        their order. */
    function Remove(k: string): (r: OMap<V>)
      requires Valid()
      ensures r.Valid()
      ensures r.Get(k) == None
      ensures forall j :: j != k ==> r.Get(j) == Get(j)
      ensures r.keys == Without(keys, k)
    {
      WithoutNoDup(keys, k);
      OMap(Without(keys, k), vals - {k})
    }

    /** `Array.from(map.values())` */
    function Values(): (r: seq<V>)
      requires Valid()
      ensures |r| == Size()
    {
      seq(|keys|, i requires 0 <= i < |keys| => vals[keys[i]])
    }
  }

  function Empty<V>(): (m: OMap<V>)
    ensures m.Valid() && m.Size() == 0
  {
    OMap([], map[])
  }

  /** Setting never removes a key, so the size never shrinks. */
  lemma SetSize<V>(m: OMap<V>, k: string, v: V)
    requires m.Valid()
    ensures m.Set(k, v).Size() == if k in m.vals then m.Size() else m.Size() + 1
  {
  }

  /** A second `set` of the same key overrides the first. */
  lemma SetTwice<V>(m: OMap<V>, k: string, a: V, b: V)
    requires m.Valid()
    ensures m.Set(k, a).Set(k, b) == m.Set(k, b)
  {
    assert m.Set(k, a).Set(k, b).vals == m.Set(k, b).vals;
  }

  /** A new key's value is listed last. */
  lemma SetValuesNew<V>(m: OMap<V>, k: string, v: V)
    requires m.Valid() && k !in m.vals
    ensures m.Set(k, v).Values() == m.Values() + [v]
  {
    var r := m.Set(k, v);
    assert r.keys == m.keys + [k];
    forall i | 0 <= i < |m.keys| ensures r.Values()[i] == m.Values()[i] {
      assert m.keys[i] != k;
    }
  }
}

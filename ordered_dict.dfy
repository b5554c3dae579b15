/** A Python `dict` with string keys: insertion-ordered, and assigning to an existing
    key keeps that key where it is. */
module OrderedDict {
  import opened Wrappers

  datatype Dict<V> = Dict(keys: seq<string>, m: map<string, V>) {

    /** The key list and the map agree, and no key is listed twice. */
    predicate Valid() {
      && (forall k :: k in m ==> k in keys)
      && (forall i :: 0 <= i < |keys| ==> keys[i] in m)
      && (forall i, j :: 0 <= i < j < |keys| ==> keys[i] != keys[j])
    }

    /** `d[k] = v`. */
    function Put(k: string, v: V): (r: Dict<V>)
      ensures Valid() ==> r.Valid()
    {
      if k in m then Dict(keys, m[k := v]) else Dict(keys + [k], m[k := v])
    }

    /** `d.get(k, default)`. */
    function GetOr(k: string, default: V): V {
      if k in m then m[k] else default
    }

    /** `d.get(k)`. */
    function Get(k: string): Option<V> {
      if k in m then Some(m[k]) else None
    }

    /** `list(d.values())`. */
    function Values(): (r: seq<V>)
      requires Valid()
      ensures |r| == |keys|
      ensures forall i :: 0 <= i < |keys| ==> r[i] == m[keys[i]]
    {
      seq(|keys|, i requires 0 <= i < |keys| => m[keys[i]])
    }
  }

  function Empty<V>(): (r: Dict<V>)
    ensures r.Valid() && r.keys == []
  {
    Dict([], map[])
  }

  /** Reading back after `d[k] = v`. */
  lemma PutGetOr<V>(d: Dict<V>, k: string, v: V, k': string, default: V)
    ensures d.Put(k, v).GetOr(k', default) == if k' == k then v else d.GetOr(k', default)
  {
  }

  /** Reassigning a key leaves the key order alone; a new key goes last. */
  lemma PutKeys<V>(d: Dict<V>, k: string, v: V)
    requires d.Valid()
    ensures k in d.m ==> d.Put(k, v).keys == d.keys
    ensures k !in d.m ==> d.Put(k, v).keys == d.keys + [k]
  {
  }

  /** Every bound value is among the values. */
  lemma ValuesComplete<V>(d: Dict<V>)
    requires d.Valid()
    ensures forall k :: k in d.m ==> d.m[k] in d.Values()
  {
    forall k | k in d.m ensures d.m[k] in d.Values() {
      var i :| 0 <= i < |d.keys| && d.keys[i] == k;
      assert d.Values()[i] == d.m[k];
    }
  }

}

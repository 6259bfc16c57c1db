/**
 * An insertion-ordered dictionary: the Python `dict` the backend keeps its
 * voices in, and the plain JavaScript object the worker keeps them in (for
 * keys that are not array indices). A key sequence without repetitions
 * records the insertion order; a map holds the values.
 */
module OrderedMaps {

  datatype OrderedMap<V> = OrderedMap(keys: seq<string>, values: map<string, V>)
  {
    ghost predicate Valid() {
      (forall i, j :: 0 <= i < j < |keys| ==> keys[i] != keys[j])
      && (forall k :: k in values <==> k in keys)
    }

    function Size(): nat {
      |keys|
    }

    predicate HasKey(k: string) {
      k in values
    }

    /** `d[k] = v`: a new key goes to the end, an existing key keeps its place and gets the new value. */
    function Put(k: string, v: V): (m: OrderedMap<V>)
      requires Valid()
      ensures m.Valid()
      ensures m.values == values[k := v]
      ensures m.keys == if k in values then keys else keys + [k]
    {
      if k in values then OrderedMap(keys, values[k := v]) else OrderedMap(keys + [k], values[k := v])
    }
  }

  function Empty<V>(): (m: OrderedMap<V>)
    ensures m.Valid() && m.Size() == 0
  {
    OrderedMap([], map[])
  }

  function Singleton<V>(k: string, v: V): (m: OrderedMap<V>)
    ensures m.Valid() && m.keys == [k] && m.values == map[k := v]
  {
    OrderedMap([k], map[k := v])
  }

  /** In a valid ordered map the key sequence lists exactly the keys, so it is empty exactly when the map is. */
  lemma SizeZero<V>(m: OrderedMap<V>)
    requires m.Valid()
    ensures m.Size() == 0 <==> m.values == map[]
  {
    if m.Size() > 0 {
      assert m.keys[0] in m.values;
    }
  }

  /** The distinct elements of `ts` in order of first occurrence. */
  function Dedup(ts: seq<string>): seq<string>
    decreases |ts|
  {
    if ts == [] then []
    else
      var d := Dedup(ts[..|ts| - 1]);
      if ts[|ts| - 1] in d then d else d + [ts[|ts| - 1]]
  }

  lemma {:induction false} DedupMembers(ts: seq<string>)
    ensures forall x :: x in Dedup(ts) <==> x in ts
    ensures |ts| > 0 ==> |Dedup(ts)| > 0 && Dedup(ts)[0] == ts[0]
    decreases |ts|
  {
    if ts != [] {
      var p := ts[..|ts| - 1];
      DedupMembers(p);
      assert ts == p + [ts[|ts| - 1]];
      if p == [] {
        assert Dedup(p) == [];
      }
    }
  }
}

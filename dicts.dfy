/** Python's built-in `dict` with string keys, as the orchestration layer uses it:
    a mapping plus the order in which keys were first inserted. Iteration
    (`items()`, `keys()`) follows that order, and assigning to an existing key
    replaces its value without moving it. */
module Dicts {

  datatype PyDict<V> = PyDict(keys: seq<string>, entries: map<string, V>) {

    /** The key list has no repetitions and lists exactly the keys of `entries`. */
    ghost predicate Valid() {
      && (forall i, j | 0 <= i < j < |keys| :: keys[i] != keys[j])
      && (forall k :: k in entries <==> k in keys)
    }

    /** `d.get(k, default)` */
    function Get(k: string, default: V): (v: V)
      ensures k in entries ==> v == entries[k]
      ensures k !in entries ==> v == default
    {
      if k in entries then entries[k] else default
    }

    /** `d[k] = v`: a new key goes to the end of the iteration order, an
        existing key keeps its position and only its value changes. */
    function Put(k: string, v: V): (d: PyDict<V>)
      ensures d.entries == entries[k := v]
      ensures k in entries ==> d.keys == keys
      ensures k !in entries ==> d.keys == keys + [k]
      ensures Valid() ==> d.Valid()
    {
      if k in entries then PyDict(keys, entries[k := v])
      else PyDict(keys + [k], entries[k := v])
    }
  }

  /** `{}` */
  function Empty<V>(): (d: PyDict<V>)
    ensures d.Valid() && d.keys == [] && d.entries == map[]
  {
    PyDict([], map[])
  }

  /** The position of a key in the iteration order. */
  function IndexOf(keys: seq<string>, k: string): (i: nat)
    requires k in keys
    ensures i < |keys| && keys[i] == k
    ensures forall j | 0 <= j < i :: keys[j] != k
  {
    if keys[0] == k then 0 else 1 + IndexOf(keys[1..], k)
  }

  /** Overwriting a key already present leaves every key at the position it
      had, so iteration order stays first-insertion order. */
  lemma {:induction false} PutKeepsPositions<V>(d: PyDict<V>, k: string, v: V)
    requires d.Valid()
    ensures forall j | 0 <= j < |d.keys| :: d.Put(k, v).keys[j] == d.keys[j]
    ensures k in d.entries ==> IndexOf(d.Put(k, v).keys, k) == IndexOf(d.keys, k)
    ensures k !in d.entries ==> IndexOf(d.Put(k, v).keys, k) == |d.keys|
  {
    var e := d.Put(k, v);
    if k !in d.entries {
      assert e.keys[|d.keys|] == k;
      FirstIndex(e.keys, k, |d.keys|);
    }
  }

  lemma {:induction false} FirstIndex(keys: seq<string>, k: string, i: nat)
    requires i < |keys| && keys[i] == k
    requires forall j | 0 <= j < i :: keys[j] != k
    ensures IndexOf(keys, k) == i
  {
    if i > 0 {
      FirstIndex(keys[1..], k, i - 1);
    }
  }
}

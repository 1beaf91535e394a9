/**
 * A plain JavaScript object used as a dictionary with string keys:
 * keys are listed in insertion order, and assigning to a key that is
 * already there replaces its value and keeps its position. (JavaScript
 * lists integer-like keys first, in ascending order; that rule is not
 * modelled.)
 */
module Dict {
  import opened Wrappers

  datatype RawDict<V> = RawDict(keys: seq<string>, vals: map<string, V>)

  predicate WellFormed<V>(d: RawDict<V>) {
    && (forall i, j :: 0 <= i < j < |d.keys| ==> d.keys[i] != d.keys[j])
    && (set k | k in d.keys) == d.vals.Keys
  }

  type Dict<V> = d: RawDict<V> | WellFormed(d) witness RawDict([], map[])

  function Empty<V>(): (d: Dict<V>)
    ensures d.keys == [] && d.vals == map[]
  {
    RawDict([], map[])
  }

  /** `obj[k] = v`. */
  function Put<V>(d: Dict<V>, k: string, v: V): (r: Dict<V>)
    ensures r.vals == d.vals[k := v]
    ensures k in d.vals ==> r.keys == d.keys
    ensures k !in d.vals ==> r.keys == d.keys + [k]
  {
    if k in d.vals then
      RawDict(d.keys, d.vals[k := v])
    else
      var r := RawDict(d.keys + [k], d.vals[k := v]);
      assert (set x | x in r.keys) == (set x | x in d.keys) + {k};
      r
  }

  /** `obj[k]`, with `None` for `undefined`. */
  function Get<V>(d: Dict<V>, k: string): Option<V> {
    if k in d.vals then Some(d.vals[k]) else None
  }

  /** Every key listed by `Object.keys` has a value. */
  lemma KeysHaveValues<V>(d: Dict<V>, i: nat)
    requires i < |d.keys|
    ensures d.keys[i] in d.vals
  {
    assert d.keys[i] in (set k | k in d.keys);
  }
}

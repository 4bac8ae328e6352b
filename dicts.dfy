/** Python dictionaries: a finite map that also remembers the order in which its keys were
    first inserted, which is the order `dict.items()` walks them in. */
module Dicts {

  datatype Dict<K(==,!new), V> = Dict(keys: seq<K>, entries: map<K, V>) {

    /** Keys are listed once each, and exactly the mapped keys are listed. */
    ghost predicate Valid() {
      (forall i, j :: 0 <= i < j < |keys| ==> keys[i] != keys[j]) &&
      (forall k :: k in entries <==> k in keys)
    }

    /** `d[k] = v`: an existing key keeps its place, a new key goes last. */
    function Put(k: K, v: V): (d: Dict<K, V>)
      ensures d.entries == entries[k := v]
      ensures k in entries ==> d.keys == keys
      ensures k !in entries ==> d.keys == keys + [k]
      ensures Valid() ==> d.Valid()
    {
      Dict(if k in entries then keys else keys + [k], entries[k := v])
    }
  }

  function Empty<K(==,!new), V>(): (d: Dict<K, V>)
    ensures d.Valid() && d.keys == [] && d.entries == map[]
  {
    Dict([], map[])
  }

  /** The sum of `f` over the values of the listed keys. */
  function SumOver<K, V>(keys: seq<K>, entries: map<K, V>, f: V -> int): int
  {
    if |keys| == 0 then 0
    else
      var k := keys[|keys| - 1];
      SumOver(keys[..|keys| - 1], entries, f) + (if k in entries then f(entries[k]) else 0)
  }

  function Sum<K(==,!new), V>(d: Dict<K, V>, f: V -> int): int {
    SumOver(d.keys, d.entries, f)
  }

  /** Changing the value of a key that is not listed leaves the sum alone. */
  lemma {:induction false} SumOverUnlisted<K, V>(keys: seq<K>, entries: map<K, V>, f: V -> int, k: K, v: V)
    requires k !in keys
    ensures SumOver(keys, entries[k := v], f) == SumOver(keys, entries, f)
  {
    if |keys| > 0 {
      SumOverUnlisted(keys[..|keys| - 1], entries, f, k, v);
    }
  }

  /** Changing the value of a key listed exactly once changes the sum by the difference. */
  lemma {:induction false} SumOverListed<K, V>(keys: seq<K>, entries: map<K, V>, f: V -> int, k: K, v: V)
    requires forall i, j :: 0 <= i < j < |keys| ==> keys[i] != keys[j]
    requires k in keys && k in entries
    ensures SumOver(keys, entries[k := v], f) == SumOver(keys, entries, f) - f(entries[k]) + f(v)
  {
    var last := keys[|keys| - 1];
    var init := keys[..|keys| - 1];
    if last == k {
      assert k !in init by {
        forall i | 0 <= i < |init| ensures init[i] != k {
          assert keys[i] != keys[|keys| - 1];
        }
      }
      SumOverUnlisted(init, entries, f, k, v);
    } else {
      assert k in init by {
        var i :| 0 <= i < |keys| && keys[i] == k;
        assert i < |keys| - 1 && init[i] == k;
      }
      SumOverListed(init, entries, f, k, v);
    }
  }

  /** `d[k] = v` replaces the contribution of `k`'s old value (if any) by that of `v`. */
  lemma PutSum<K(!new), V>(d: Dict<K, V>, f: V -> int, k: K, v: V)
    requires d.Valid()
    ensures Sum(d.Put(k, v), f) == Sum(d, f) + f(v) - (if k in d.entries then f(d.entries[k]) else 0)
  {
    if k in d.entries {
      SumOverListed(d.keys, d.entries, f, k, v);
    } else {
      var ks := d.keys + [k];
      assert ks[..|ks| - 1] == d.keys;
      SumOverUnlisted(d.keys, d.entries, f, k, v);
    }
  }
}

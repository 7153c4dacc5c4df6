/**
 * `omit(obj, ...keys)` (src/utils.ts): a shallow copy of a record from which
 * each of the given keys has been deleted, one after the other.
 */
module Utils {

  /** The keys named in a key list. */
  function KeySet<K>(keys: seq<K>): set<K>
  {
    set k | k in keys
  }

  /**
   * The record left after deleting `keys[0]`, then `keys[1]`, and so on,
   * from `obj`: exactly the entries of `obj` whose key is not listed.
   */
  function Omitted<K, V>(obj: map<K, V>, keys: seq<K>): (r: map<K, V>)
    ensures r.Keys == obj.Keys - KeySet(keys)
    ensures forall k :: k in r ==> r[k] == obj[k]
    decreases |keys|
  {
    if keys == [] then obj
    else Omitted(obj - {keys[0]}, keys[1..])
  }

  /**
   * The copy-then-delete loop. Maps are values, so the caller's `obj` is
   * never altered; `r` starts as the copy and loses one key per step.
   */
  method Omit<K, V>(obj: map<K, V>, keys: seq<K>) returns (r: map<K, V>)
    ensures forall k :: k in keys ==> k !in r
    ensures forall k :: k in obj && k !in keys ==> k in r && r[k] == obj[k]
    ensures r.Keys <= obj.Keys
    ensures r == Omitted(obj, keys)
  {
    r := obj;
    for i := 0 to |keys|
      invariant r.Keys == obj.Keys - KeySet(keys[..i])
      invariant forall k :: k in r ==> r[k] == obj[k]
    {
      assert KeySet(keys[..i + 1]) == KeySet(keys[..i]) + {keys[i]} by {
        assert keys[..i + 1] == keys[..i] + [keys[i]];
      }
      r := r - {keys[i]};
    }
    assert keys[..|keys|] == keys;
  }

  /** Listing no key, or only keys `obj` lacks, leaves the record as it was. */
  lemma OmitAbsentKeys<K, V>(obj: map<K, V>, keys: seq<K>)
    requires forall k :: k in keys ==> k !in obj
    ensures Omitted(obj, keys) == obj
  {
  }

  lemma OmitNoKeys<K, V>(obj: map<K, V>)
    ensures Omitted(obj, []) == obj
  {
  }

  /** Omitting the same keys a second time changes nothing. */
  lemma OmitIdempotent<K, V>(obj: map<K, V>, keys: seq<K>)
    ensures Omitted(Omitted(obj, keys), keys) == Omitted(obj, keys)
  {
  }
}

/**
 * `merge_data` (csv_reader/mergers.py): the union of two dictionaries whose
 * keys must not overlap.
 */
module Mergers {
  import opened Wrappers

  /** `NotImplementedError`, raised on a key of `b` already in the merger. */
  datatype MergeError = DuplicateKey

  /**
   * The outcome of `merge_data(a, b)`: every entry of both dictionaries, or
   * the error when they share a key.
   */
  function Merger<K, V>(a: map<K, V>, b: map<K, V>): (r: Result<map<K, V>, MergeError>)
    ensures r.Success? <==> (forall k :: k in b ==> k !in a)
    ensures r.Success? ==> r.value.Keys == a.Keys + b.Keys
    ensures r.Success? ==> (forall k :: k in a ==> r.value[k] == a[k]) && (forall k :: k in b ==> r.value[k] == b[k])
  {
    if a.Keys !! b.Keys then Success(a + b) else Failure(DuplicateKey)
  }

  /**
   * `merge_data`: a copy of `a` into which the entries of `b` are inserted one
   * by one, raising at the first key already present. The order in which `b`
   * is walked does not change the outcome.
   */
  method MergeData<K, V>(a: map<K, V>, b: map<K, V>) returns (r: Result<map<K, V>, MergeError>)
    ensures r == Merger(a, b)
  {
    var merger := a;
    var rest := b.Keys;
    while rest != {}
      invariant rest <= b.Keys
      invariant a.Keys !! (b.Keys - rest)
      invariant merger == a + map k | k in b.Keys - rest :: b[k]
      decreases rest
    {
      var key :| key in rest;
      if key in merger {
        assert key in a;
        return Failure(DuplicateKey);
      }
      merger := merger[key := b[key]];
      rest := rest - {key};
    }
    assert b.Keys - rest == b.Keys;
    assert merger == a + b;
    return Success(merger);
  }

  /** Merging with an empty dictionary on either side gives back the other one. */
  lemma MergerWithEmpty<K, V>(a: map<K, V>)
    ensures Merger(a, map[]) == Success(a) && Merger(map[], a) == Success(a)
  {
    assert a + map[] == a;
    assert map[] + a == a;
  }

  /** When it succeeds, the merge does not depend on the order of its arguments. */
  lemma MergerIsSymmetric<K, V>(a: map<K, V>, b: map<K, V>)
    ensures Merger(a, b).Success? <==> Merger(b, a).Success?
    ensures Merger(a, b).Success? ==> Merger(a, b) == Merger(b, a)
  {
    if a.Keys !! b.Keys {
      assert a + b == b + a;
    }
  }
}

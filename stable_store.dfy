/** The part of a stable B-tree map that the canister reads as a whole:
    `values()`. Every store is a Dafny `map`; the key encoding that fixes the
    order of `values()` is not modelled, so the order here is left open. */
module StableStore {

  /** All values of `m`, once per key, in an order this model does not fix.
      `keys` is the (ghost) key order that the values follow. */
  method Values<K, V(==)>(m: map<K, V>) returns (vs: seq<V>, ghost keys: seq<K>)
    ensures |vs| == |keys| == |m|
    ensures forall v :: v in vs ==> v in m.Values
    ensures forall k :: k in m ==> m[k] in vs
    ensures forall i :: 0 <= i < |keys| ==> keys[i] in m && vs[i] == m[keys[i]]
    ensures forall k :: k in m ==> k in keys
    ensures forall i, j :: 0 <= i < j < |keys| ==> keys[i] != keys[j]
  {
    vs, keys := [], [];
    var rest := m.Keys;
    while rest != {}
      invariant rest <= m.Keys
      invariant |vs| == |keys| && |keys| + |rest| == |m|
      invariant forall i :: 0 <= i < |keys| ==> keys[i] in m && keys[i] !in rest && vs[i] == m[keys[i]]
      invariant forall k :: k in m && k !in rest ==> k in keys
      invariant forall i, j :: 0 <= i < j < |keys| ==> keys[i] != keys[j]
      decreases |rest|
    {
      var k :| k in rest;
      vs, keys := vs + [m[k]], keys + [k];
      rest := rest - {k};
    }
  }
}

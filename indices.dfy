/** Increasing lists of positions, shared by the record extraction and the clustering pass. */
module Indices {
  /** Positions below `bound`, strictly increasing. */
  predicate IncreasingBelow(ks: seq<nat>, bound: int) {
    && (forall k :: 0 <= k < |ks| ==> ks[k] < bound)
    && (forall a, b :: 0 <= a < b < |ks| ==> ks[a] < ks[b])
  }

  /** Appending a position above all earlier ones keeps the list increasing. */
  lemma AppendAbove(ks: seq<nat>, bound: int, n: nat)
    requires IncreasingBelow(ks, bound) && bound <= n
    ensures IncreasingBelow(ks + [n], n + 1)
  {
    var ks2 := ks + [n];
    forall k | 0 <= k < |ks2| ensures ks2[k] < n + 1 {
      if k < |ks| {
        assert ks2[k] == ks[k];
      }
    }
    forall a, b | 0 <= a < b < |ks2| ensures ks2[a] < ks2[b] {
      assert ks2[a] == ks[a];
      if b < |ks| {
        assert ks2[b] == ks[b];
      }
    }
  }

  /** Raising the bound keeps the list increasing below it. */
  lemma RaiseBound(ks: seq<nat>, bound: int, bound': int)
    requires IncreasingBelow(ks, bound) && bound <= bound'
    ensures IncreasingBelow(ks, bound')
  {
  }
}

/**
 * Listing a collection of the document store. The store hands back every
 * child of a collection once, in an order the caller does not choose, with
 * the child's key injected as its id.
 */
module Store {
  import opened Base

  /** `ks` names every key of `m` exactly once. */
  predicate IsOrdering<V>(m: map<string, V>, ks: seq<string>) {
    && (forall i, j :: 0 <= i < j < |ks| ==> ks[i] != ks[j])
    && (forall i :: 0 <= i < |ks| ==> ks[i] in m)
    && (forall k :: k in m ==> k in ks)
  }

  /** The stored values, in the order `ks` lists their keys. */
  function Values<V>(m: map<string, V>, ks: seq<string>): (vs: seq<V>)
    requires forall i :: 0 <= i < |ks| ==> ks[i] in m
    ensures |vs| == |ks| && forall i :: 0 <= i < |ks| ==> vs[i] == m[ks[i]]
  {
    seq(|ks|, i requires 0 <= i < |ks| => m[ks[i]])
  }

  /** Walks the collection: every key once, in an arbitrary order. */
  method Enumerate<V>(m: map<string, V>) returns (ks: seq<string>)
    ensures IsOrdering(m, ks)
    ensures |ks| == |m|
  {
    ks := [];
    var rest := m.Keys;
    while rest != {}
      invariant rest <= m.Keys
      invariant forall i, j :: 0 <= i < j < |ks| ==> ks[i] != ks[j]
      invariant forall i :: 0 <= i < |ks| ==> ks[i] in m && ks[i] !in rest
      invariant forall k :: k in m ==> k in ks || k in rest
      invariant |ks| + |rest| == |m|
      decreases |rest|
    {
      var k :| k in rest;
      ks := ks + [k];
      rest := rest - {k};
    }
  }
}

/** Cardinality facts about finite sets used by the pool arithmetic. */
module Sets {

  /** A subset splits its superset into itself and the rest. */
  lemma SubsetCard<T>(a: set<T>, b: set<T>)
    requires a <= b
    ensures |b| == |a| + |b - a|
  {
    assert b == a + (b - a);
  }
}

/** Maps are equal when they hold the same. */
module Maps {
  lemma SameMaps<K, V>(a: map<K, V>, b: map<K, V>)
    requires a.Keys == b.Keys && forall k <- a :: a[k] == b[k]
    ensures a == b
  {
  }
}

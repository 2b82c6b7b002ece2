/** Two facts about updating a map under one key, used by the handlers that
    write a session back into their store. */
module Stores {

  /** Storing twice under one key leaves only the second value. */
  lemma Overwrite<K, V>(m: map<K, V>, k: K, a: V, b: V)
    ensures m[k := a][k := b] == m[k := b]
  {
  }

  /** Storing the value already there changes nothing. */
  lemma Unchanged<K, V>(m: map<K, V>, k: K)
    requires k in m
    ensures m[k := m[k]] == m
  {
  }
}

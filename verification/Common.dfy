/** Vocabulary shared by the models. */
module Common {

  datatype Option<+T> = None | Some(value: T)

  function Get<K, V>(m: map<K, V>, k: K): Option<V> {
    if k in m then Some(m[k]) else None
  }

  /** How a compare-and-set of a stored document ends. */
  datatype CasOutcome = Written | Adopted | Conflict

  /** Compare-and-set on content: a document's version is the digest of its bytes, so equal
      versions mean equal contents. An adopting store also reports success, without writing,
      when it finds exactly the bytes the caller meant to store. */
  function Cas<V(==)>(adopting: bool, current: Option<V>, expected: Option<V>, intended: V): CasOutcome {
    if current == expected then Written
    else if adopting && current == Some(intended) then Adopted
    else Conflict
  }
}

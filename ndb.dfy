/** The hierarchical datastore's key, as the factories see it. */
module Ndb {

  datatype Option<+T> = None | Some(value: T)

  /** A key's identifier: an integer id or a string name. */
  datatype KeyId = IntId(number: int) | NameId(name: string)

  /** A store key: the kind, the identifier and the parent key (none for a root key). */
  datatype Key = Key(kind: string, id: KeyId, parent: Option<Key>)

  /** The store refuses the integer id 0. */
  predicate NonZeroId(id: KeyId) {
    id != IntId(0)
  }

  predicate IsRoot(k: Key) {
    k.parent.None?
  }
}

/** Types shared by every layer of the storage stack. */
module Base {

  datatype Option<+T> = None | Some(value: T)

  /** A storage key, as built from a request path. */
  type Key = string

  /** What a file's name ends in while it is being written. */
  const TMP := ".tmp"

  /** The content of one cache entry. */
  type Bytes = seq<bv8>

  function Lookup<T>(m: map<Key, T>, k: Key): Option<T> {
    if k in m then Some(m[k]) else None
  }

  /** What Head reports of an optional body. */
  function SizeOf(o: Option<Bytes>): Option<nat> {
    if o.Some? then Some(|o.value|) else None
  }
}

/** What the backends that are asked to change something may answer. */
module Answers {

  /** A rejected mutation may have taken effect. */
  datatype Answer = Accepted | Rejected(applied: bool)
}

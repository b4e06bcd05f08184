module Wrappers {
  datatype Option<+T> = None | Some(value: T)

  /** The value a finite map holds at a key, if any. */
  function Lookup<K, V>(m: map<K, V>, k: K): Option<V> {
    if k in m then Some(m[k]) else None
  }
}

/** Small vocabulary shared by every module of the model. */
module Prelude {
  datatype Option<+T> = None | Some(value: T)

  type byte = x: nat | x < 256
  type Bytes = seq<byte>

  /** A Go map read with its comma-ok flag. */
  function Lookup<K, V>(m: map<K, V>, k: K): Option<V> {
    if k in m then Some(m[k]) else None
  }

  /** Writing a cell back: absent cells are absent keys. */
  function Write<K, V>(m: map<K, V>, k: K, c: Option<V>): map<K, V> {
    match c
    case Some(v) => m[k := v]
    case None => m - {k}
  }

  function Max(a: int, b: int): int {
    if a < b then b else a
  }
}

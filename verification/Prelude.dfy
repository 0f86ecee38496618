/** Small shared vocabulary. */
module Prelude {

  datatype Option<+T> = None | Some(value: T)

  /** Every row, token, certificate and process is named by an identifier that is only compared. */
  type Id = nat

  /** Milliseconds of one logical clock. */
  type Millis = nat

  /** A stored document together with its revision (the compare-and-set fence). */
  datatype Versioned<+T> = Versioned(value: T, revision: nat)

  function Get<K, V>(m: map<K, V>, k: K): Option<V> {
    if k in m then Some(m[k]) else None
  }
}

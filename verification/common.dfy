/** Shared vocabulary of the explorer's data layer: optional values, settled
    asynchronous calls, network clusters and account addresses. */
module Common {

  /** A value that may be absent (`undefined` / `null` in the source). */
  datatype Option<+T> = None | Some(value: T)

  /** How an awaited call settled: fulfilled with a value, or rejected. The
      rejection reason is opaque to every caller in this model. */
  datatype Outcome<+T> = Ok(value: T) | Failed

  /** The network an explorer session points at. `Custom` is a user-supplied
      endpoint, which is treated as private. */
  datatype Cluster = MainnetBeta | Testnet | Devnet | Custom

  /** A base-58 account address, compared by identity. */
  type Address = string

  /** Lookup of `k` in a table: absent when the table has no such key. */
  function Get<K, V>(m: map<K, V>, k: K): Option<V>
  {
    if k in m then Some(m[k]) else None
  }
}

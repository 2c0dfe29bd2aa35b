/** Shared vocabulary: options, identifiers, time and the limits of `aeh/config.py`. */
module Base {

  datatype Option<+T> = None | Some(value: T)

  /** A UUID. Only equality and some total order on identifiers matter. */
  type Id = nat

  /** A UTC instant in microseconds on one monotone clock. */
  type Time = int

  const SECOND: int := 1_000_000
  const LEASE: int := 120 * SECOND
  const FIRST_BACKOFF: int := 10 * SECOND
  const LATER_BACKOFF: int := 60 * SECOND
  const JOB_LIMIT: nat := 100
  const MAX_ATTEMPTS: nat := 3
  const RECOVERY_BATCH: nat := 100

  /** The value at a key, when there is one. */
  function Lookup<K, V>(m: map<K, V>, k: K): Option<V> {
    if k in m then Some(m[k]) else None
  }

  /** Writes a row that may be absent. */
  function Put<K, V>(m: map<K, V>, k: K, v: Option<V>): map<K, V> {
    if v.Some? then m[k := v.value] else m
  }

  function Min(a: int, b: int): int {
    if a <= b then a else b
  }
}

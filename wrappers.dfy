/** Small value wrappers shared by the storage model. */
module Wrappers {

  /** A value that may be absent: the model's single absence marker for a storage read. */
  datatype Option<+T> = None | Some(value: T)

  /** The result of a host call that may raise an exception. */
  datatype Result<+T> = Ok(value: T) | Thrown {
    /** The value of a call that returned, or `default` when it raised. */
    function GetOr(default: T): T {
      match this
      case Ok(v) => v
      case Thrown => default
    }
  }

  /** The result of a host call that returns nothing but may raise. */
  datatype Outcome = Done | Threw

  /** The entry of `m` at `k`, or None when `k` is not a key of `m`. */
  function Lookup<K, V>(m: map<K, V>, k: K): Option<V> {
    if k in m then Some(m[k]) else None
  }
}

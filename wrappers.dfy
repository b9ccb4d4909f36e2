/**
 * Option and Result values used in place of Python's None and raised
 * exceptions, and the dictionary lookup with a default.
 */
module Wrappers {

  datatype Option<+T> = None | Some(value: T)

  datatype Result<+T, +E> = Success(value: T) | Failure(error: E)

  /** `m.get(k, default)`: the value at `k`, or `default` when `k` is absent. */
  function Lookup<V>(m: map<string, V>, k: string, default: V): V {
    if k in m then m[k] else default
  }
}

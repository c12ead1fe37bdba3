/** Option, Result and Outcome, used in place of Java's null and exceptions. */
module Wrappers {

  /** A value that may be absent (a Java reference that may be null). */
  datatype Option<+T> = None | Some(value: T)

  /** A computation that yields a value or fails with an error (a thrown exception). */
  datatype Result<+T, +E> = Ok(value: T) | Err(error: E)

  /** A computation with no value that passes or fails with an error. */
  datatype Outcome<+E> = Pass | Fail(error: E)

  /** The value stored under `key`, like `Map.get` returning null when absent. */
  function Lookup<K, V>(m: map<K, V>, key: K): (r: Option<V>)
    ensures r.Some? <==> key in m
    ensures r.Some? ==> r.value == m[key]
  {
    if key in m then Some(m[key]) else None
  }
}

/** Result and option types shared by the models. */
module Wrappers {

  datatype Option<+T> = None | Some(value: T)

  /** A Go call that returns a value or an error. */
  datatype Result<+T, +E> = Ok(value: T) | Err(error: E)

  /** The entry of a Go map, or None when the key is absent. */
  function Lookup<K, V>(m: map<K, V>, k: K): (v: Option<V>)
    ensures v.Some? <==> k in m
    ensures v.Some? ==> v.value == m[k]
  {
    if k in m then Some(m[k]) else None
  }
}

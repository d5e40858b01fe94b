/** A value that may be absent: the model's rendering of TypeScript's `T | null`
    and of an `Array.prototype.find` that found nothing. */
module Optional {

  datatype Option<+T> = None | Some(value: T)

  /** `localStorage.getItem(key)`: the stored string, or null when the key is absent. */
  function Get<K, V>(m: map<K, V>, key: K): (v: Option<V>)
    ensures v.Some? <==> key in m
    ensures v.Some? ==> v.value == m[key]
  {
    if key in m then Some(m[key]) else None
  }
}

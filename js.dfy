/** JavaScript value semantics that the pages and contexts rely on. */
module Js {

  /** A value that may be `null` or `undefined`. */
  datatype Option<+T> = None | Some(value: T)

  /** JavaScript truthiness of a nullable string: `null`, `undefined` and `''` are all falsy. */
  predicate Truthy(s: Option<string>)
  {
    s.Some? && s.value != ""
  }

  /** How an awaited service call settles: resolved with its data, or rejected. */
  datatype Reply<+T> = Ok(data: T) | Failed

  /** `localStorage.getItem(key)` on a key/value store: `null` when the key is absent. */
  function Lookup(m: map<string, string>, key: string): Option<string>
  {
    if key in m then Some(m[key]) else None
  }
}

/** The role names the backend hands out and the pages compare against. */
module Roles {
  const Admin: string := "ADMIN"
  const Doctor: string := "DOCTOR"
  const Patient: string := "PATIENT"
}

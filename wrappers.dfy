/** Small wrappers shared by the whole model. */
module Wrappers {

  /** A value that may be absent: Python's `None` versus a present value. */
  datatype Option<T> = None | Some(value: T)

  /** Python's truthiness of an optional string: absent and empty are both falsy. */
  predicate Truthy(o: Option<string>)
  {
    o.Some? && o.value != ""
  }

  /** `dict.get(key)` on a string-keyed dictionary. */
  function Get<V>(m: map<string, V>, key: string): (r: Option<V>)
    ensures r.Some? <==> key in m
    ensures r.Some? ==> r.value == m[key]
  {
    if key in m then Some(m[key]) else None
  }
}

/** The decoded JSON body of a request, restricted to an object whose fields
    are strings. A body that decodes to `null` is `None`. */
module Request {
  import opened Wrappers

  type Body = map<string, string>

  /** `data.get(key)`: the field's value, or `None` when the key is absent. */
  function Get(data: Body, key: string): (r: Option<string>)
    ensures r.Some? <==> key in data
    ensures r.Some? ==> r.value == data[key]
  {
    if key in data then Some(data[key]) else None
  }

  /** Python truthiness of an optional string: present and non-empty. */
  predicate Truthy(v: Option<string>) {
    v.Some? && v.value != ""
  }

  /** Python truthiness of a decoded body: not `null` and not `{}`. */
  predicate BodyTruthy(data: Option<Body>) {
    data.Some? && data.value != map[]
  }
}

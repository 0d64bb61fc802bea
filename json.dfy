/**
 * A JSON value, as far as downgrading needs one: a document is an object
 * whose top-level properties are looked up, copied and assigned by name.
 */
module Json {

  datatype JsonValue =
    | Null
    | Bool(b: bool)
    | Number(n: int)
    | String(s: string)
    | Array(elements: seq<JsonValue>)
    | Object(fields: map<string, JsonValue>)

  /** Whether `v` is an object with a property called `name`; false for every non-object. */
  predicate HasField(v: JsonValue, name: string)
  {
    v.Object? && name in v.fields
  }

  /** The top-level properties of `v`; none unless `v` is an object. */
  function Fields(v: JsonValue): map<string, JsonValue>
  {
    if v.Object? then v.fields else map[]
  }

  /**
   * Assignment `v[name] = x`: a null value first becomes an empty object,
   * then the property is set, replacing any earlier value.
   */
  function SetField(v: JsonValue, name: string, x: JsonValue): JsonValue
    requires v.Null? || v.Object?
  {
    Object(Fields(v)[name := x])
  }
}

/** JSON-like values of Python dicts (settings, request bodies). */
module Values {

  import opened Wrappers

  /**
   * A Python value as it occurs in the settings dicts and request bodies.
   * `Undefined` is pydantic's `PydanticUndefined` sentinel: the `.default` of a field
   * declared with a `default_factory`.
   */
  datatype Value =
    | Null
    | Undefined
    | Bool(b: bool)
    | Int(i: int)
    | Str(s: string)
    | Obj(fields: map<string, Value>)

  /** A Python `dict` with string keys. */
  type Dict = map<string, Value>

  /** `d.get(key, default)`. */
  function GetOr(d: Dict, key: string, default: Value): (v: Value)
    ensures key in d ==> v == d[key]
    ensures key !in d ==> v == default
  {
    if key in d then d[key] else default
  }

  /** Python's `None` as a value, or the string. */
  function OptStr(s: Option<string>): Value
  {
    match s
    case None => Null
    case Some(x) => Str(x)
  }
}

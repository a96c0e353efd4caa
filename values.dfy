/** Shared value types: the optional and error-carrying wrappers, and the
    dynamically typed values that travel in dictionaries and metadata. */
module Values {

  datatype Option<+T> = None | Some(value: T)

  datatype Result<+T, +E> = Ok(value: T) | Err(error: E)

  /** A Python value as it may appear in a dictionary payload or in message
      metadata. Anything that is none of these is `Other`. */
  datatype Value =
    | Null
    | Bool(b: bool)
    | Int(i: int)
    | Str(s: string)
    | Bytes(data: seq<bv8>)
    | Dict(entries: map<string, Value>)
    | Other

  /** Python's `x or default` on an optional dictionary: `None` and the empty
      dictionary both fall back to the empty dictionary. */
  function OrEmpty(m: Option<map<string, Value>>): map<string, Value>
  {
    if m.Some? then m.value else map[]
  }
}

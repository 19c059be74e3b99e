/** Python's `key in x` and `x[key]` on decoded JSON values, the two operations
    the client uses to look into a response body. */
module Lookup {
  import opened Types

  /** `needle` occurs in `hay` starting at position `i`. */
  predicate OccursAt(needle: string, hay: string, i: int) {
    0 <= i && i + |needle| <= |hay| && hay[i..i + |needle|] == needle
  }

  /** `needle` occurs as a contiguous piece of `hay` (Python's `in` on strings). */
  predicate IsSubstring(needle: string, hay: string) {
    exists i | 0 <= i <= |hay| - |needle| :: OccursAt(needle, hay, i)
  }

  /** `key in container`: membership of a key in an object, of an element in a
      list, of a substring in a string; any other value raises TypeError. */
  function Contains(container: Value, key: string): Result<bool> {
    match container
    case Object(fields) => Ok(key in fields)
    case List(items) => Ok(Str(key) in items)
    case Str(s) => Ok(IsSubstring(key, s))
    case _ => Err(TypeError)
  }

  /** `container[key]` with a string key: only an object can answer; a missing
      key raises KeyError, any other value TypeError. */
  function Subscript(container: Value, key: string): Result<Value> {
    match container
    case Object(fields) => if key in fields then Ok(fields[key]) else Err(KeyError)
    case _ => Err(TypeError)
  }

  /** `try: x = lookup except KeyError: pass` with `x` preset to `default`. */
  function OrOnKeyError(lookup: Result<Value>, default: Value): Result<Value> {
    match lookup
    case Err(KeyError) => Ok(default)
    case _ => lookup
  }

  /** The value under `key` when the body decodes to an object holding it. */
  function Field(body: Body, key: string): Option<Value> {
    if body.Decoded? && body.value.Object? && key in body.value.fields
    then Some(body.value.fields[key])
    else None
  }

  /** A Python list of strings as a JSON list. */
  function Strs(ss: seq<string>): seq<Value> {
    seq(|ss|, i requires 0 <= i < |ss| => Str(ss[i]))
  }

  /** The capability test `"v2" in versions`. */
  function HasV2(versions: Value): Result<bool> {
    Contains(versions, "v2")
  }
}

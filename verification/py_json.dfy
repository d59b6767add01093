/**
 * Values decoded from JSON, as the Python code sees them, and the parts of
 * Python's own semantics that the connectors rely on: `dict.get` with a
 * default, and the `in` operator with a string on its left.
 */
module PyJson {

  datatype Option<+T> = None | Some(value: T)

  /** The Python exceptions the modelled code can raise or catch. */
  datatype PyError =
    | IOError(status: int)   // raised explicitly, carrying the HTTP status
    | KeyError(key: string)  // `d[k]` with `k` missing
    | TypeError              // an operator applied to a value of the wrong type
    | Failed                 // any other exception (connection reset, body is not JSON, ...)

  datatype Result<+T> = Ok(value: T) | Err(error: PyError)

  /**
   * A JSON value. `JNull` is Python's `None`; numbers keep only their integer
   * value, which no modelled decision looks at.
   */
  datatype JsonValue =
    | JNull
    | JBool(b: bool)
    | JNum(n: int)
    | JStr(s: string)
    | JList(items: seq<JsonValue>)
    | JObject(fields: map<string, JsonValue>)

  /** Python's `d.get(key, default)`. */
  function Get(d: map<string, JsonValue>, key: string, default: JsonValue): JsonValue
  {
    if key in d then d[key] else default
  }

  /** `needle` occurs as a contiguous run of characters in `hay` (Python's `needle in hay` on `str`). */
  function IsSubstring(needle: string, hay: string): (b: bool)
    decreases |hay|
  {
    needle <= hay || (|hay| > 0 && IsSubstring(needle, hay[1..]))
  }

  /** The declarative reading of `IsSubstring`: some offset of `hay` starts a copy of `needle`. */
  ghost predicate OccursAt(needle: string, hay: string, i: int)
  {
    0 <= i && i + |needle| <= |hay| && hay[i..i + |needle|] == needle
  }

  lemma {:induction false} SubstringOccurs(needle: string, hay: string) returns (i: int)
    requires IsSubstring(needle, hay)
    ensures OccursAt(needle, hay, i)
    decreases |hay|
  {
    if needle <= hay {
      assert hay[0..|needle|] == needle;
      i := 0;
    } else {
      var j := SubstringOccurs(needle, hay[1..]);
      assert hay[1..][j..j + |needle|] == hay[j + 1..j + 1 + |needle|];
      i := j + 1;
    }
  }

  lemma {:induction false} OccursIsSubstring(needle: string, hay: string, i: int)
    requires OccursAt(needle, hay, i)
    ensures IsSubstring(needle, hay)
    decreases i
  {
    if i == 0 {
      assert hay[..|needle|] == needle;
    } else {
      assert hay[1..][i - 1..i - 1 + |needle|] == hay[i..i + |needle|];
      OccursIsSubstring(needle, hay[1..], i - 1);
    }
  }

  lemma IsSubstringIffOccurs(needle: string, hay: string)
    ensures IsSubstring(needle, hay) <==> exists i :: OccursAt(needle, hay, i)
  {
    if IsSubstring(needle, hay) {
      var i := SubstringOccurs(needle, hay);
    }
    forall i | OccursAt(needle, hay, i) ensures IsSubstring(needle, hay) {
      OccursIsSubstring(needle, hay, i);
    }
  }

  /**
   * Python's `item in container` for a string `item`: membership in a list
   * (only an equal string matches), a key of a dict, a substring of a str.
   * On None, a bool or a number Python raises TypeError.
   */
  function Contains(container: JsonValue, item: string): Result<bool>
  {
    match container
    case JList(xs) => Ok(JStr(item) in xs)
    case JObject(m) => Ok(item in m)
    case JStr(s) => Ok(IsSubstring(item, s))
    case _ => Err(TypeError)
  }

  /** For a str container, `in` finds `item` exactly when it occurs at some offset. */
  lemma ContainsInStr(s: string, item: string)
    ensures Contains(JStr(s), item) == Ok(true) <==> exists i :: OccursAt(item, s, i)
  {
    IsSubstringIffOccurs(item, s);
  }
}

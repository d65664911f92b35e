/**
  The encoder: `Object.MarshalJSON` and, around it, what `json.Marshal`
  does with a decoded tree. Scalars (nil, bool, float64, string) are
  formatted by `encoding/json`, which is not part of this model: its
  formatting is a parameter `enc`, used for keys as well as for scalar values.
 */
module Encoding {
  import opened Wrappers
  import opened JsonValues

  /**
    An error reported by `encoding/json`: one from encoding a scalar (for a
    float64 that is NaN or infinite), or `*json.MarshalerError`, with which
    `json.Marshal` wraps any error a `MarshalJSON` method returns to it.
   */
  datatype EncodeError =
    | UnsupportedValue(msg: string)
    | MarshalerError(inner: EncodeError)

  /** `json.Marshal` on a scalar; keys are formatted as the string scalar `Str(k)`. */
  type ScalarEncoder = Node -> Result<string, EncodeError>

  /**
    `json.Marshal` on a decoded tree: objects go through `Object.MarshalJSON`,
    whose error comes back wrapped in a `MarshalerError`; arrays go through
    reflection; scalars through the scalar encoder.
   */
  function Marshal(n: Node, enc: ScalarEncoder): (r: Result<string, EncodeError>)
    decreases n, 2
    ensures n.Obj? ==> (r.Ok? <==> MarshalObject(n.obj, enc).Ok?)
    ensures n.Obj? && r.Ok? ==> r.value == MarshalObject(n.obj, enc).value
    ensures n.Obj? && r.Err? ==> r.error == MarshalerError(MarshalObject(n.obj, enc).error)
  {
    match n
    case Arr(es) => MarshalArray(es, enc)
    case Obj(o) =>
      (match MarshalObject(o, enc)
       case Err(e) => Err(MarshalerError(e))
       case Ok(t) => Ok(t))
    case _ => enc(n)
  }

  /** A slice is written as `[`, its elements separated by `,`, then `]`. */
  function MarshalArray(es: seq<Node>, enc: ScalarEncoder): Result<string, EncodeError>
    decreases es, 1
  {
    match ElementsText(es, enc, |es|)
    case Err(e) => Err(e)
    case Ok(body) => Ok("[" + body + "]")
  }

  /** The text of the first `n` elements, separated by `,`; the first element that fails stops it. */
  function ElementsText(es: seq<Node>, enc: ScalarEncoder, n: nat): Result<string, EncodeError>
    requires n <= |es|
    decreases es, 0, n
  {
    if n == 0 then Ok("")
    else
      match ElementsText(es, enc, n - 1)
      case Err(e) => Err(e)
      case Ok(prefix) =>
        match Marshal(es[n - 1], enc)
        case Err(e) => Err(e)
        case Ok(t) => Ok(prefix + (if n > 1 then "," else "") + t)
  }

  /** `Object.MarshalJSON`: `{`, the entries in key order separated by `,`, then `}`. */
  function MarshalObject(o: ObjectValue, enc: ScalarEncoder): Result<string, EncodeError>
    decreases o, 1
  {
    match EntriesText(o, enc, |o.keys|)
    case Err(e) => Err(e)
    case Ok(body) => Ok("{" + body + "}")
  }

  /**
    The text of one entry: the encoded key, `:`, and the encoded value that
    `Get` finds (a key missing from the map reads as nil, that is `null`).
   */
  function EntryText(o: ObjectValue, k: string, enc: ScalarEncoder): Result<string, EncodeError>
    decreases o, 0, 0
  {
    match enc(Str(k))
    case Err(e) => Err(e)
    case Ok(key) =>
      match (if k in o.vals then Marshal(o.vals[k], enc) else enc(Null))
      case Err(e) => Err(e)
      case Ok(val) => Ok(key + ":" + val)
  }

  /** The text of the first `n` entries, separated by `,`; the first entry that fails stops it. */
  function EntriesText(o: ObjectValue, enc: ScalarEncoder, n: nat): Result<string, EncodeError>
    requires n <= |o.keys|
    decreases o, 0, 1, n
  {
    if n == 0 then Ok("")
    else
      match EntriesText(o, enc, n - 1)
      case Err(e) => Err(e)
      case Ok(prefix) =>
        match EntryText(o, o.keys[n - 1], enc)
        case Err(e) => Err(e)
        case Ok(t) => Ok(prefix + (if n > 1 then "," else "") + t)
  }
}

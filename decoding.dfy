/**
  The recursive-descent decoder of ojson.go (`unmarshal`, `unmarshalArray`,
  `unmarshalObject`) as functions over a token stream and a position. Each
  returns its result with the position of the first token it did not consume.
 */
module Decoding {
  import opened Wrappers
  import opened JsonValues
  import opened Tokens

  /** The error kinds of the package; each carries the Go message it stands for. */
  datatype Error =
    | Lex(e: LexError)        // error from the tokenizer, passed on unchanged
    | UnexpectedType          // "unexpected type"
    | UnexpectedDelimiter     // "unexpected delimiter"
    | ExpectingBracket        // "unexpected delimiter (expecting ])"
    | ExpectingBrace          // "unexpected delimiter (expecting })"
    | UnexpectedToken         // "unexpected token"
    | TypeAssertionFailed     // "type assertion .([]byte) failed", raised only by Value.Scan

  /**
    What `unmarshal` hands back: a value, or the sentinel delimiter it read
    where a value was expected (a non-zero `json.Delim`).
   */
  datatype Parsed = Val(node: Node) | Closer(d: Delim)

  /** One call of the tokenizer's `Token()` at position `pos`. */
  function Read(s: Stream, pos: nat): Result<Token, Error>
  {
    if pos < |s.toks| then Ok(s.toks[pos]) else Err(Lex(s.stop))
  }

  predicate IsCloser(d: Delim)
  {
    d == RBrace || d == RBrack
  }

  /** `unmarshal`: one value, or a closing delimiter returned as a sentinel. */
  function ParseValue(s: Stream, pos: nat): (r: Result<(Parsed, nat), Error>)
    requires pos <= |s.toks|
    decreases |s.toks| - pos, 0
    ensures r.Ok? ==> pos < r.value.1 <= |s.toks|
    ensures r.Ok? && r.value.0.Closer? ==>
              && IsCloser(r.value.0.d)
              && r.value.1 == pos + 1
              && s.toks[pos] == DelimTok(r.value.0.d)
  {
    match Read(s, pos)
    case Err(e) => Err(e)
    case Ok(t) =>
      match t
      case DelimTok(LBrace) =>
        (match ParseObject(s, pos + 1, EmptyObject)
         case Err(e) => Err(e)
         case Ok((o, next)) => Ok((Val(Obj(o)), next)))
      case DelimTok(LBrack) =>
        (match ParseArray(s, pos + 1, [])
         case Err(e) => Err(e)
         case Ok((es, next)) => Ok((Val(Arr(es)), next)))
      case DelimTok(d) => Ok((Closer(d), pos + 1))
      case StrTok(x) => Ok((Val(Str(x)), pos + 1))
      case NumTok(x) => Ok((Val(Num(x)), pos + 1))
      case BoolTok(b) => Ok((Val(Bool(b)), pos + 1))
      case NullTok => Ok((Val(Null), pos + 1))
      case OtherTok => Err(UnexpectedType)
  }

  /**
    `unmarshalArray` from the loop's point of view: `acc` holds the elements
    read so far; the array ends at its own `]`, and any other sentinel is an error.
   */
  function ParseArray(s: Stream, pos: nat, acc: seq<Node>): (r: Result<(seq<Node>, nat), Error>)
    requires pos <= |s.toks|
    decreases |s.toks| - pos, 1
    ensures r.Ok? ==> pos < r.value.1 <= |s.toks|
  {
    match ParseValue(s, pos)
    case Err(e) => Err(e)
    case Ok((Val(n), next)) => ParseArray(s, next, acc + [n])
    case Ok((Closer(d), next)) =>
      if d == RBrack then Ok((acc, next)) else Err(ExpectingBracket)
  }

  /**
    `unmarshalObject` from the loop's point of view: `obj` holds the entries
    read so far. A key must be a string token and is followed by a value;
    the object ends at `}`, and each entry is stored with `Object.Set`.
   */
  function ParseObject(s: Stream, pos: nat, obj: ObjectValue): (r: Result<(ObjectValue, nat), Error>)
    requires pos <= |s.toks|
    decreases |s.toks| - pos, 1
    ensures r.Ok? ==> pos < r.value.1 <= |s.toks|
  {
    match Read(s, pos)
    case Err(e) => Err(e)
    case Ok(DelimTok(d)) =>
      if d == RBrace then Ok((obj, pos + 1)) else Err(ExpectingBrace)
    case Ok(StrTok(k)) =>
      (match ParseValue(s, pos + 1)
       case Err(e) => Err(e)
       case Ok((Closer(_), _)) => Err(UnexpectedDelimiter)
       case Ok((Val(v), next)) => ParseObject(s, next, SetEntry(obj, k, v)))
    case Ok(_) => Err(UnexpectedToken)
  }

  /**
    What `Value.UnmarshalJSON` does with the result of `unmarshal` on the
    whole input: a sentinel at the root is rejected and `V` is left alone;
    otherwise `V` is assigned the value (nil, i.e. Null, on error).
   */
  datatype RootOutcome = Rejected | Assigned(v: Node, err: Option<Error>)

  function DecodeRoot(s: Stream): (r: RootOutcome)
    ensures r.Rejected? <==> 0 < |s.toks| && (s.toks[0] == DelimTok(RBrace) || s.toks[0] == DelimTok(RBrack))
    ensures r.Assigned? && r.err.Some? ==> r.v == Null
  {
    match ParseValue(s, 0)
    case Err(e) => Assigned(Null, Some(e))
    case Ok((Closer(_), _)) => Rejected
    case Ok((Val(n), _)) => Assigned(n, None)
  }
}

/**
  The decoder as ojson.go runs it: `unmarshal`, `unmarshalArray` and
  `unmarshalObject` pull tokens one at a time from a stateful tokenizer and
  build arrays by appending and objects by calling `Set`. Each method is
  proved to do what the corresponding function of `Decoding` describes.
 */
module StreamDecoder {
  import opened Wrappers
  import opened JsonValues
  import opened Tokens
  import opened Decoding
  import opened OrderedObject

  /** `json.Decoder` reduced to its token stream and how far it has read. */
  class Decoder {
    const stream: Stream
    var pos: nat

    constructor (s: Stream)
      ensures stream == s && pos == 0
    {
      stream := s;
      pos := 0;
    }

    /** `Token()`: the next token, or the tokenizer's error once the tokens run out. */
    method Token() returns (r: Result<Token, Error>)
      requires pos <= |stream.toks|
      modifies this
      ensures r == Read(stream, old(pos))
      ensures pos == if r.Ok? then old(pos) + 1 else old(pos)
    {
      if pos < |stream.toks| {
        r := Ok(stream.toks[pos]);
        pos := pos + 1;
      } else {
        r := Err(Lex(stream.stop));
      }
    }
  }

  /** The method's result and the decoder's new position agree with what the function computes. */
  predicate Agrees<T(==)>(spec: Result<(T, nat), Error>, r: Result<T, Error>, pos: nat)
  {
    match spec
    case Ok((x, next)) => r == Ok(x) && pos == next
    case Err(e) => r == Err(e)
  }

  /** `unmarshal`: a value, a closing delimiter as sentinel, or an error. */
  method Unmarshal(dec: Decoder) returns (r: Result<Parsed, Error>)
    requires dec.pos <= |dec.stream.toks|
    modifies dec
    ensures old(dec.pos) <= dec.pos <= |dec.stream.toks|
    ensures Agrees(ParseValue(dec.stream, old(dec.pos)), r, dec.pos)
    decreases |dec.stream.toks| - dec.pos, 0
  {
    var t := dec.Token();
    match t
    case Err(e) =>
      r := Err(e);
    case Ok(DelimTok(LBrace)) =>
      var obj := UnmarshalObject(dec);
      match obj {
        case Err(e) => r := Err(e);
        case Ok(o) => r := Ok(Val(Obj(o.Snapshot())));
      }
    case Ok(DelimTok(LBrack)) =>
      var arr := UnmarshalArray(dec);
      match arr {
        case Err(e) => r := Err(e);
        case Ok(es) => r := Ok(Val(Arr(es)));
      }
    case Ok(DelimTok(d)) =>
      r := Ok(Closer(d));
    case Ok(StrTok(x)) =>
      r := Ok(Val(Str(x)));
    case Ok(NumTok(x)) =>
      r := Ok(Val(Num(x)));
    case Ok(BoolTok(b)) =>
      r := Ok(Val(Bool(b)));
    case Ok(NullTok) =>
      r := Ok(Val(Null));
    case Ok(OtherTok) =>
      r := Err(UnexpectedType);
  }

  /** `unmarshalArray`, entered just after `[`: elements until the `]` that closes it. */
  method UnmarshalArray(dec: Decoder) returns (r: Result<seq<Node>, Error>)
    requires dec.pos <= |dec.stream.toks|
    modifies dec
    ensures old(dec.pos) <= dec.pos <= |dec.stream.toks|
    ensures Agrees(ParseArray(dec.stream, old(dec.pos), []), r, dec.pos)
    decreases |dec.stream.toks| - dec.pos, 1
  {
    var arr: seq<Node> := [];
    while true
      invariant old(dec.pos) <= dec.pos <= |dec.stream.toks|
      invariant ParseArray(dec.stream, dec.pos, arr) == ParseArray(dec.stream, old(dec.pos), [])
      decreases |dec.stream.toks| - dec.pos
    {
      var o := Unmarshal(dec);
      match o
      case Err(e) =>
        return Err(e);
      case Ok(Closer(d)) =>
        if d == RBrack {
          return Ok(arr);
        } else {
          return Err(ExpectingBracket);
        }
      case Ok(Val(n)) =>
        arr := arr + [n];
    }
  }

  /**
    `unmarshalObject`, entered just after `{`: a new `Object`, and for each
    string key and the value after it a call of `Set`, until `}`.
   */
  method UnmarshalObject(dec: Decoder) returns (r: Result<Object, Error>)
    requires dec.pos <= |dec.stream.toks|
    modifies dec
    ensures old(dec.pos) <= dec.pos <= |dec.stream.toks|
    ensures r.Ok? ==> fresh(r.value) && r.value.Valid()
    ensures Agrees(ParseObject(dec.stream, old(dec.pos), EmptyObject),
                   if r.Ok? then Ok(r.value.Snapshot()) else Err(r.error), dec.pos)
    decreases |dec.stream.toks| - dec.pos, 1
  {
    var obj := new Object();
    while true
      invariant old(dec.pos) <= dec.pos <= |dec.stream.toks|
      invariant fresh(obj) && obj.Valid()
      invariant ParseObject(dec.stream, dec.pos, obj.Snapshot()) == ParseObject(dec.stream, old(dec.pos), EmptyObject)
      decreases |dec.stream.toks| - dec.pos
    {
      var t := dec.Token();
      match t
      case Err(e) =>
        return Err(e);
      case Ok(DelimTok(d)) =>
        if d == RBrace {
          return Ok(obj);
        } else {
          return Err(ExpectingBrace);
        }
      case Ok(StrTok(k)) =>
        var o := Unmarshal(dec);
        match o {
          case Err(e) =>
            return Err(e);
          case Ok(Closer(_)) =>
            return Err(UnexpectedDelimiter);
          case Ok(Val(v)) =>
            obj.Set(k, v);
        }
      case Ok(_) =>
        return Err(UnexpectedToken);
    }
  }
}

/**
  The token stream that the decoder consumes. The tokenizer itself
  (`encoding/json`'s `Decoder.Token`) is not part of this model: a stream is
  the tokens it hands out, followed by the error it reports once it stops
  (end of input or a syntax error), which it then keeps reporting.
 */
module Tokens {
  import opened JsonValues

  /** Go's `json.Delim`. */
  datatype Delim = LBrace | RBrace | LBrack | RBrack

  /**
    The dynamic types `Decoder.Token` can return: a delimiter, a string, a
    float64, a bool, nil, or anything else (for instance a `json.Number`).
   */
  datatype Token =
    | DelimTok(d: Delim)
    | StrTok(s: string)
    | NumTok(x: real)
    | BoolTok(b: bool)
    | NullTok
    | OtherTok

  datatype LexError = EndOfInput | SyntaxError(msg: string, offset: nat)

  datatype Stream = Stream(toks: seq<Token>, stop: LexError)

  /** The tokens of a tree, as the tokenizer yields them for its compact JSON text. */
  function Flatten(n: Node): seq<Token>
  {
    match n
    case Null => [NullTok]
    case Bool(b) => [BoolTok(b)]
    case Num(x) => [NumTok(x)]
    case Str(s) => [StrTok(s)]
    case Arr(es) => [DelimTok(LBrack)] + FlattenSeq(es) + [DelimTok(RBrack)]
    case Obj(o) => [DelimTok(LBrace)] + FlattenEntries(o, 0) + [DelimTok(RBrace)]
  }

  function FlattenSeq(es: seq<Node>): seq<Token>
  {
    if es == [] then [] else Flatten(es[0]) + FlattenSeq(es[1..])
  }

  /** The key/value tokens of the entries `i..` of an object, in key order. */
  function FlattenEntries(o: ObjectValue, i: nat): seq<Token>
    decreases o, |o.keys| - i
  {
    if i >= |o.keys| then []
    else
      var k := o.keys[i];
      [StrTok(k)] + (if k in o.vals then Flatten(o.vals[k]) else [NullTok]) + FlattenEntries(o, i + 1)
  }
}

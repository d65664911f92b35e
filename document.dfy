/**
  Go's `Value`: a holder for one decoded document. `UnmarshalJSON` runs the
  decoder on the tokens of its input, `Scan` accepts only a byte slice, and
  `NewValueFromJSON` decodes a string into a new `Value`.

  The tokenizer is a parameter: `tokenize(b)` is the token stream that
  `encoding/json` produces for the bytes `b`. Go strings are byte sequences,
  so `[]byte(s)` is the identity here.
 */
module Document {
  import opened Wrappers
  import opened JsonValues
  import opened Tokens
  import opened Decoding
  import opened Encoding
  import opened StreamDecoder
  import DecodingLemmas
  import DecodingErrors

  type Tokenizer = seq<bv8> -> Stream

  /** What `database/sql` hands to `Scan`: a byte slice or a value of some other type. */
  datatype Source = Bytes(b: seq<bv8>) | NotBytes

  /**
    The effect of `UnmarshalJSON` on `V` and the error it returns: a closing
    delimiter at the root is rejected with "unexpected delimiter" and leaves
    `V` alone; otherwise `V` gets the decoded value (nil on error) and the
    decoder's error, if any, is returned.
   */
  predicate Decoded(root: RootOutcome, before: Node, after: Node, err: Option<Error>)
  {
    match root
    case Rejected => after == before && err == Some(UnexpectedDelimiter)
    case Assigned(v, e) => after == v && err == e
  }

  class Value {
    var V: Node

    /** Go's zero `Value`: `V` is nil. */
    constructor ()
      ensures V == Null
    {
      V := Null;
    }

    /** `UnmarshalJSON`: decode the first value of `b` into `V`. */
    method UnmarshalJSON(b: seq<bv8>, tokenize: Tokenizer) returns (err: Option<Error>)
      modifies this
      ensures Decoded(DecodeRoot(tokenize(b)), old(V), V, err)
    {
      var dec := new Decoder(tokenize(b));
      var o := Unmarshal(dec);
      match o
      case Ok(Closer(_)) =>
        return Some(UnexpectedDelimiter);
      case Ok(Val(n)) =>
        V := n;
        return None;
      case Err(e) =>
        V := Null;
        return Some(e);
    }

    /** `Scan`: a byte slice is decoded as by `UnmarshalJSON`; anything else fails and leaves `V` alone. */
    method Scan(src: Source, tokenize: Tokenizer) returns (err: Option<Error>)
      modifies this
      ensures src.NotBytes? ==> err == Some(TypeAssertionFailed) && V == old(V)
      ensures src.Bytes? ==> Decoded(DecodeRoot(tokenize(src.b)), old(V), V, err)
    {
      match src
      case NotBytes =>
        return Some(TypeAssertionFailed);
      case Bytes(b) =>
        err := UnmarshalJSON(b, tokenize);
    }

    /**
      `Value.MarshalJSON`: `json.Marshal` of `V`. When `V` is an object, an
      error from its `MarshalJSON` comes back wrapped in a `MarshalerError`.
     */
    method MarshalJSON(enc: ScalarEncoder) returns (r: Result<string, EncodeError>)
      ensures r == Marshal(V, enc)
      ensures V.Obj? && r.Err? ==> r.error == MarshalerError(MarshalObject(V.obj, enc).error)
    {
      r := Marshal(V, enc);
    }
  }

  /** `NewValueFromJSON`: a new `Value` decoded from `s`; a rejected root leaves `V` nil. */
  method NewValueFromJSON(s: seq<bv8>, tokenize: Tokenizer) returns (v: Value, err: Option<Error>)
    ensures fresh(v)
    ensures Decoded(DecodeRoot(tokenize(s)), Null, v.V, err)
  {
    v := new Value();
    err := v.UnmarshalJSON(s, tokenize);
  }

  /**
    A text whose tokens are those of a well-formed tree, followed by anything,
    decodes to that tree with no error: every object keeps its key order.
   */
  method DecodeFlattened(s: seq<bv8>, tokenize: Tokenizer, n: Node) returns (v: Value, err: Option<Error>)
    requires WellFormed(n)
    requires |Flatten(n)| <= |tokenize(s).toks| && tokenize(s).toks[..|Flatten(n)|] == Flatten(n)
    ensures v.V == n && err == None
  {
    var st := tokenize(s);
    assert st.toks == Flatten(n) + st.toks[|Flatten(n)|..];
    DecodingLemmas.RootRoundTrip(n, st.toks[|Flatten(n)|..], st.stop);
    v, err := NewValueFromJSON(s, tokenize);
  }

  /**
    A text whose tokens stop part-way through those of a well-formed tree
    sets `V` to nil and returns the tokenizer's error.
   */
  method DecodeTruncated(s: seq<bv8>, tokenize: Tokenizer, n: Node, m: nat) returns (v: Value, err: Option<Error>)
    requires WellFormed(n) && m < |Flatten(n)|
    requires tokenize(s).toks == Flatten(n)[..m]
    ensures v.V == Null && err == Some(Lex(tokenize(s).stop))
  {
    DecodingErrors.CutRoot(n, m, tokenize(s).stop);
    v, err := NewValueFromJSON(s, tokenize);
  }
}

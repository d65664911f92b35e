/**
  Facts about every run of the decoder, whatever its input: what it builds is
  well-formed, and a tokenizer error reaches the caller exactly as the
  tokenizer reported it.
 */
module DecodingInvariants {
  import opened Wrappers
  import opened JsonValues
  import opened Tokens
  import opened Decoding

  /** Every value `unmarshal` returns keeps the object invariant at every depth. */
  lemma {:induction false} ValueWellFormed(s: Stream, pos: nat)
    requires pos <= |s.toks|
    ensures var r := ParseValue(s, pos);
            r.Ok? && r.value.0.Val? ==> WellFormed(r.value.0.node)
    decreases |s.toks| - pos, 0
  {
    if pos < |s.toks| {
      match s.toks[pos]
      case DelimTok(LBrace) => ObjectWellFormed(s, pos + 1, EmptyObject);
      case DelimTok(LBrack) => ArrayWellFormed(s, pos + 1, []);
      case _ =>
    }
  }

  /** The array loop only ever appends well-formed values. */
  lemma {:induction false} ArrayWellFormed(s: Stream, pos: nat, acc: seq<Node>)
    requires pos <= |s.toks| && AllWellFormed(acc)
    ensures var r := ParseArray(s, pos, acc);
            r.Ok? ==> AllWellFormed(r.value.0)
    decreases |s.toks| - pos, 1
  {
    ValueWellFormed(s, pos);
    match ParseValue(s, pos)
    case Ok((Val(n), next)) =>
      assert AllWellFormed(acc + [n]) by {
        forall i | 0 <= i < |acc + [n]| ensures WellFormed((acc + [n])[i]) {
          if i < |acc| { assert (acc + [n])[i] == acc[i]; }
        }
      }
      ArrayWellFormed(s, next, acc + [n]);
    case _ =>
  }

  /** The object loop only ever sets well-formed values, and `Set` keeps the object invariant. */
  lemma {:induction false} ObjectWellFormed(s: Stream, pos: nat, obj: ObjectValue)
    requires pos <= |s.toks| && WellFormed(Obj(obj))
    ensures var r := ParseObject(s, pos, obj);
            r.Ok? ==> WellFormed(Obj(r.value.0))
    decreases |s.toks| - pos, 1
  {
    if pos + 1 < |s.toks| && s.toks[pos].StrTok? {
      var k := s.toks[pos].s;
      ValueWellFormed(s, pos + 1);
      match ParseValue(s, pos + 1)
      case Ok((Val(v), next)) =>
        SetEntryKeepsInvariant(obj, k, v);
        ObjectWellFormed(s, next, SetEntry(obj, k, v));
      case _ =>
    }
  }

  /** A decoded document is well-formed. */
  lemma RootWellFormed(s: Stream)
    ensures DecodeRoot(s).Assigned? ==> WellFormed(DecodeRoot(s).v)
  {
    ValueWellFormed(s, 0);
  }

  /** The only tokenizer error `unmarshal` can report is the one the tokenizer stopped with. */
  lemma {:induction false} ValueLexError(s: Stream, pos: nat)
    requires pos <= |s.toks|
    ensures var r := ParseValue(s, pos);
            r.Err? && r.error.Lex? ==> r.error == Lex(s.stop)
    decreases |s.toks| - pos, 0
  {
    if pos < |s.toks| {
      match s.toks[pos]
      case DelimTok(LBrace) => ObjectLexError(s, pos + 1, EmptyObject);
      case DelimTok(LBrack) => ArrayLexError(s, pos + 1, []);
      case _ =>
    }
  }

  lemma {:induction false} ArrayLexError(s: Stream, pos: nat, acc: seq<Node>)
    requires pos <= |s.toks|
    ensures var r := ParseArray(s, pos, acc);
            r.Err? && r.error.Lex? ==> r.error == Lex(s.stop)
    decreases |s.toks| - pos, 1
  {
    ValueLexError(s, pos);
    match ParseValue(s, pos)
    case Ok((Val(n), next)) => ArrayLexError(s, next, acc + [n]);
    case _ =>
  }

  lemma {:induction false} ObjectLexError(s: Stream, pos: nat, obj: ObjectValue)
    requires pos <= |s.toks|
    ensures var r := ParseObject(s, pos, obj);
            r.Err? && r.error.Lex? ==> r.error == Lex(s.stop)
    decreases |s.toks| - pos, 1
  {
    if pos + 1 <= |s.toks| && pos < |s.toks| && s.toks[pos].StrTok? {
      var k := s.toks[pos].s;
      ValueLexError(s, pos + 1);
      match ParseValue(s, pos + 1)
      case Ok((Val(v), next)) => ObjectLexError(s, next, SetEntry(obj, k, v));
      case _ =>
    }
  }
}

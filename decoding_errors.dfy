/**
  The structural errors of the decoder: each mistake in the token stream,
  after any number of well-formed elements or entries, is reported with its
  own error, and a document cut short reports the tokenizer's error.
 */
module DecodingErrors {
  import opened Wrappers
  import opened JsonValues
  import opened Tokens
  import opened Decoding
  import opened DecodingLemmas

  /** `unmarshal` on `[` fails with whatever error the array loop fails with. */
  lemma OpenArrayFails(s: Stream, pos: nat, e: Error)
    requires pos < |s.toks| && s.toks[pos] == DelimTok(LBrack)
    requires ParseArray(s, pos + 1, []) == Err(e)
    ensures ParseValue(s, pos) == Err(e)
  {
  }

  /** `unmarshal` on `{` fails with whatever error the object loop fails with. */
  lemma OpenObjectFails(s: Stream, pos: nat, e: Error)
    requires pos < |s.toks| && s.toks[pos] == DelimTok(LBrace)
    requires ParseObject(s, pos + 1, EmptyObject) == Err(e)
    ensures ParseValue(s, pos) == Err(e)
  {
  }

  /** How the array loop ends at a token that neither is a value nor closes the array. */
  lemma ArrayLoopFails(s: Stream, pos: nat, acc: seq<Node>)
    requires pos <= |s.toks|
    ensures pos == |s.toks| ==> ParseArray(s, pos, acc) == Err(Lex(s.stop))
    ensures pos < |s.toks| && s.toks[pos] == DelimTok(RBrace) ==> ParseArray(s, pos, acc) == Err(ExpectingBracket)
    ensures pos < |s.toks| && s.toks[pos] == OtherTok ==> ParseArray(s, pos, acc) == Err(UnexpectedType)
  {
  }

  /**
    An array whose well-formed elements `es` are followed by `}`, by a token
    of no JSON type, or by the end of the stream, fails with
    "unexpected delimiter (expecting ])", "unexpected type", or the
    tokenizer's error.
   */
  lemma ArrayErrors(s: Stream, pos: nat, es: seq<Node>, end: nat)
    requires AllWellFormed(es) && At(s, pos, [DelimTok(LBrack)] + FlattenSeq(es))
    requires end == pos + 1 + |FlattenSeq(es)|
    ensures end == |s.toks| ==> ParseValue(s, pos) == Err(Lex(s.stop))
    ensures end < |s.toks| && s.toks[end] == DelimTok(RBrace) ==> ParseValue(s, pos) == Err(ExpectingBracket)
    ensures end < |s.toks| && s.toks[end] == OtherTok ==> ParseValue(s, pos) == Err(UnexpectedType)
  {
    AtSplit(s, pos, [DelimTok(LBrack)], FlattenSeq(es));
    AtOne(s, pos, DelimTok(LBrack));
    ParseElems(s, pos + 1, [], es, end);
    ArrayLoopFails(s, end, [] + es);
    if end == |s.toks| {
      OpenArrayFails(s, pos, Lex(s.stop));
    } else if s.toks[end] == DelimTok(RBrace) {
      OpenArrayFails(s, pos, ExpectingBracket);
    } else if s.toks[end] == OtherTok {
      OpenArrayFails(s, pos, UnexpectedType);
    }
  }

  /** How the object loop ends at a token that neither is a key nor closes the object. */
  lemma ObjectLoopFails(s: Stream, pos: nat, obj: ObjectValue)
    requires pos <= |s.toks|
    ensures pos == |s.toks| ==> ParseObject(s, pos, obj) == Err(Lex(s.stop))
    ensures pos < |s.toks| && s.toks[pos].DelimTok? && s.toks[pos].d != RBrace ==>
              ParseObject(s, pos, obj) == Err(ExpectingBrace)
    ensures pos < |s.toks| && !s.toks[pos].DelimTok? && !s.toks[pos].StrTok? ==>
              ParseObject(s, pos, obj) == Err(UnexpectedToken)
    ensures pos + 1 == |s.toks| && s.toks[pos].StrTok? ==> ParseObject(s, pos, obj) == Err(Lex(s.stop))
    ensures pos + 1 < |s.toks| && s.toks[pos].StrTok? && s.toks[pos + 1] in {DelimTok(RBrace), DelimTok(RBrack)} ==>
              ParseObject(s, pos, obj) == Err(UnexpectedDelimiter)
  {
  }

  /**
    An object whose well-formed entries (those of `o`) are followed by a
    delimiter other than `}`, by a key that is not a string, by a key with a
    closing delimiter where its value belongs, or by the end of the stream,
    fails with "unexpected delimiter (expecting })", "unexpected token",
    "unexpected delimiter", or the tokenizer's error.
   */
  lemma ObjectErrors(s: Stream, pos: nat, o: ObjectValue, end: nat)
    requires ValuesWellFormed(o) && At(s, pos, [DelimTok(LBrace)] + FlattenEntries(o, 0))
    requires end == pos + 1 + |FlattenEntries(o, 0)|
    ensures end == |s.toks| ==> ParseValue(s, pos) == Err(Lex(s.stop))
    ensures end < |s.toks| && s.toks[end].DelimTok? && s.toks[end].d != RBrace ==>
              ParseValue(s, pos) == Err(ExpectingBrace)
    ensures end < |s.toks| && !s.toks[end].DelimTok? && !s.toks[end].StrTok? ==>
              ParseValue(s, pos) == Err(UnexpectedToken)
    ensures end + 1 == |s.toks| && s.toks[end].StrTok? ==> ParseValue(s, pos) == Err(Lex(s.stop))
    ensures end + 1 < |s.toks| && s.toks[end].StrTok? && s.toks[end + 1] in {DelimTok(RBrace), DelimTok(RBrack)} ==>
              ParseValue(s, pos) == Err(UnexpectedDelimiter)
  {
    AtSplit(s, pos, [DelimTok(LBrace)], FlattenEntries(o, 0));
    AtOne(s, pos, DelimTok(LBrace));
    ParseEntries(s, pos + 1, o, 0, end);
    ObjectLoopFails(s, end, Replay(o, |o.keys|));
    var r := ParseObject(s, end, Replay(o, |o.keys|));
    if r.Err? {
      OpenObjectFails(s, pos, r.error);
    }
  }

  /** The first `m` of the tokens `ts` stand in the stream from `pos`, and the stream ends after them. */
  predicate CutAt(s: Stream, pos: nat, ts: seq<Token>, m: nat)
  {
    m <= |ts| && At(s, pos, ts[..m]) && pos + m == |s.toks|
  }

  lemma CutSplit(s: Stream, pos: nat, a: seq<Token>, b: seq<Token>, m: nat)
    requires CutAt(s, pos, a + b, m)
    ensures m < |a| ==> CutAt(s, pos, a, m)
    ensures m >= |a| ==> At(s, pos, a) && CutAt(s, pos + |a|, b, m - |a|)
  {
    if m < |a| {
      assert (a + b)[..m] == a[..m];
    } else {
      assert (a + b)[..m] == a + b[..m - |a|];
      AtSplit(s, pos, a, b[..m - |a|]);
    }
  }

  /** `CutSplit` past the end of `a`, naming where `b` starts and how much of it is left. */
  lemma CutPast(s: Stream, pos: nat, a: seq<Token>, b: seq<Token>, m: nat, mid: nat, r: nat)
    requires CutAt(s, pos, a + b, m) && |a| <= m && mid == pos + |a| && r == m - |a|
    ensures At(s, pos, a) && CutAt(s, mid, b, r)
  {
    CutSplit(s, pos, a, b, m);
  }

  lemma CutWhole(s: Stream, pos: nat, ts: seq<Token>)
    requires At(s, pos, ts) && pos + |ts| == |s.toks|
    ensures CutAt(s, pos, ts, |ts|)
  {
    assert ts[..|ts|] == ts;
  }

  /**
    A document cut short: when the stream ends inside the tokens of a
    well-formed value, `unmarshal` reports the tokenizer's error, whatever
    the depth at which the cut falls.
   */
  lemma {:induction false} CutValue(s: Stream, pos: nat, n: Node, m: nat)
    requires WellFormed(n) && m < |Flatten(n)| && CutAt(s, pos, Flatten(n), m)
    ensures ParseValue(s, pos) == Err(Lex(s.stop))
    decreases n, 0
  {
    if m > 0 {
      match n
      case Arr(es) =>
        var body := FlattenSeq(es);
        assert Flatten(n) == [DelimTok(LBrack)] + (body + [DelimTok(RBrack)]);
        CutSplit(s, pos, [DelimTok(LBrack)], body + [DelimTok(RBrack)], m);
        CutSplit(s, pos + 1, body, [DelimTok(RBrack)], m - 1);
        if m - 1 == |body| {
          CutWhole(s, pos + 1, body);
        }
        AtOne(s, pos, DelimTok(LBrack));
        CutElems(s, pos + 1, [], es, m - 1);
        OpenArrayFails(s, pos, Lex(s.stop));
      case Obj(o) =>
        var body := FlattenEntries(o, 0);
        assert Flatten(n) == [DelimTok(LBrace)] + (body + [DelimTok(RBrace)]);
        CutSplit(s, pos, [DelimTok(LBrace)], body + [DelimTok(RBrace)], m);
        CutSplit(s, pos + 1, body, [DelimTok(RBrace)], m - 1);
        if m - 1 == |body| {
          CutWhole(s, pos + 1, body);
        }
        AtOne(s, pos, DelimTok(LBrace));
        CutEntries(s, pos + 1, EmptyObject, o, 0, m - 1);
        OpenObjectFails(s, pos, Lex(s.stop));
    }
  }

  /** The array loop, with the stream ending inside the tokens of its remaining elements `es`. */
  lemma {:induction false} CutElems(s: Stream, pos: nat, acc: seq<Node>, es: seq<Node>, m: nat)
    requires AllWellFormed(es) && CutAt(s, pos, FlattenSeq(es), m)
    ensures ParseArray(s, pos, acc) == Err(Lex(s.stop))
    decreases es, 1
  {
    if es == [] {
      ArrayLoopFails(s, pos, acc);
    } else {
      var e := es[0];
      assert FlattenSeq(es) == Flatten(e) + FlattenSeq(es[1..]);
      CutSplit(s, pos, Flatten(e), FlattenSeq(es[1..]), m);
      if m < |Flatten(e)| {
        CutValue(s, pos, e, m);
      } else {
        var next := pos + |Flatten(e)|;
        CutPast(s, pos, Flatten(e), FlattenSeq(es[1..]), m, next, m - |Flatten(e)|);
        ElemStep(s, pos, acc, e, next);
        CutElems(s, next, acc + [e], es[1..], m - |Flatten(e)|);
      }
    }
  }

  /** The object loop, with the stream ending inside the tokens of the entries `i..` of `o`. */
  lemma {:induction false} CutEntries(s: Stream, pos: nat, obj: ObjectValue, o: ObjectValue, i: nat, m: nat)
    requires ValuesWellFormed(o) && i <= |o.keys| && CutAt(s, pos, FlattenEntries(o, i), m)
    ensures ParseObject(s, pos, obj) == Err(Lex(s.stop))
    decreases o, 1, |o.keys| - i, 2
  {
    if i == |o.keys| {
      NoEntriesLeft(o);
      ObjectLoopFails(s, pos, obj);
    } else if o.keys[i] in o.vals {
      CutEntry(s, pos, obj, o, i, m);
    } else {
      var k := o.keys[i];
      var rest := FlattenEntries(o, i + 1);
      assert FlattenEntries(o, i) == [StrTok(k), NullTok] + rest;
      CutSplit(s, pos, [StrTok(k), NullTok], rest, m);
      if m < 2 {
        ObjectLoopFails(s, pos, obj);
      } else {
        NullEntryStep(s, pos, obj, k, pos + 2);
        CutEntries(s, pos + 2, SetEntry(obj, k, Null), o, i + 1, m - 2);
      }
    }
  }

  /** `CutEntries` when the entry `i` has a value in the map. */
  lemma {:induction false} CutEntry(s: Stream, pos: nat, obj: ObjectValue, o: ObjectValue, i: nat, m: nat)
    requires ValuesWellFormed(o) && i < |o.keys| && o.keys[i] in o.vals && CutAt(s, pos, FlattenEntries(o, i), m)
    ensures ParseObject(s, pos, obj) == Err(Lex(s.stop))
    decreases o, 1, |o.keys| - i, 1
  {
    var k := o.keys[i];
    var v := o.vals[k];
    var a := [StrTok(k)] + Flatten(v);
    var rest := FlattenEntries(o, i + 1);
    assert FlattenEntries(o, i) == a + rest;
    if m < |a| {
      CutSplit(s, pos, a, rest, m);
      CutInEntry(s, pos, obj, k, v, m);
    } else {
      CutPastEntry(s, pos, obj, o, i, m, pos + |a|, m - |a|);
    }
  }

  /** `CutEntry` when the stream ends after the whole entry `i`. */
  lemma {:induction false} CutPastEntry(s: Stream, pos: nat, obj: ObjectValue, o: ObjectValue, i: nat, m: nat, next: nat, r: nat)
    requires ValuesWellFormed(o) && i < |o.keys| && o.keys[i] in o.vals && CutAt(s, pos, FlattenEntries(o, i), m)
    requires var a := [StrTok(o.keys[i])] + Flatten(o.vals[o.keys[i]]);
             |a| <= m && next == pos + |a| && r == m - |a|
    ensures ParseObject(s, pos, obj) == Err(Lex(s.stop))
    decreases o, 1, |o.keys| - i, 0
  {
    var k := o.keys[i];
    var v := o.vals[k];
    var a := [StrTok(k)] + Flatten(v);
    var rest := FlattenEntries(o, i + 1);
    assert FlattenEntries(o, i) == a + rest;
    CutPast(s, pos, a, rest, m, next, r);
    EntryStep(s, pos, obj, k, v, next);
    CutEntries(s, next, SetEntry(obj, k, v), o, i + 1, r);
  }

  /** The object loop, with the stream ending inside the key/value tokens of one entry. */
  lemma {:induction false} CutInEntry(s: Stream, pos: nat, obj: ObjectValue, k: string, v: Node, m: nat)
    requires WellFormed(v) && m < |[StrTok(k)] + Flatten(v)| && CutAt(s, pos, [StrTok(k)] + Flatten(v), m)
    ensures ParseObject(s, pos, obj) == Err(Lex(s.stop))
    decreases v, 1
  {
    if m == 0 {
      CutSplit(s, pos, [StrTok(k)], Flatten(v), m);
      ObjectLoopFails(s, pos, obj);
    } else {
      CutPast(s, pos, [StrTok(k)], Flatten(v), m, pos + 1, m - 1);
      AtOne(s, pos, StrTok(k));
      if m == 1 {
        ObjectLoopFails(s, pos, obj);
      } else {
        CutValue(s, pos + 1, v, m - 1);
      }
    }
  }

  /** Round trip's counterpart: any proper prefix of a well-formed document's tokens decodes to the tokenizer's error. */
  lemma CutRoot(n: Node, m: nat, stop: LexError)
    requires WellFormed(n) && m < |Flatten(n)|
    ensures DecodeRoot(Stream(Flatten(n)[..m], stop)) == Assigned(Null, Some(Lex(stop)))
  {
    var s := Stream(Flatten(n)[..m], stop);
    assert s.toks[..|s.toks|] == Flatten(n)[..m];
    AtStart(s, s.toks, 0);
    assert s.toks[0..] == s.toks;
    CutValue(s, 0, n, m);
  }
}

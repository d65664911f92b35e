/**
  What the decoder promises about well-formed token streams: the tokens of a
  tree decode to that tree whatever follows them, each structural mistake
  gets its own error, and a tokenizer error is passed on unchanged.
 */
module DecodingLemmas {
  import opened Wrappers
  import opened JsonValues
  import opened Tokens
  import opened Decoding

  /** The tokens `ts` stand in the stream from position `pos` on. */
  predicate At(s: Stream, pos: nat, ts: seq<Token>)
    decreases ts
  {
    if ts == [] then pos <= |s.toks|
    else pos < |s.toks| && s.toks[pos] == ts[0] && At(s, pos + 1, ts[1..])
  }

  lemma {:induction false} AtBound(s: Stream, pos: nat, ts: seq<Token>)
    requires At(s, pos, ts)
    ensures pos + |ts| <= |s.toks|
    decreases ts
  {
    if ts != [] {
      AtBound(s, pos + 1, ts[1..]);
    }
  }

  lemma {:induction false} AtSplit(s: Stream, pos: nat, a: seq<Token>, b: seq<Token>)
    requires At(s, pos, a + b)
    ensures At(s, pos, a) && At(s, pos + |a|, b)
    decreases a
  {
    if a == [] {
      assert a + b == b;
    } else {
      assert (a + b)[1..] == a[1..] + b;
      AtSplit(s, pos + 1, a[1..], b);
    }
  }

  /** `AtSplit`, naming the position where `b` starts. */
  lemma AtSplitAt(s: Stream, pos: nat, a: seq<Token>, b: seq<Token>, mid: nat)
    requires At(s, pos, a + b) && mid == pos + |a|
    ensures At(s, pos, a) && At(s, mid, b)
  {
    AtSplit(s, pos, a, b);
  }

  /** A stream whose tokens start with `ts` has every suffix `ts[k..]` at position `k`. */
  lemma {:induction false} AtStart(s: Stream, ts: seq<Token>, k: nat)
    requires k <= |ts| && |ts| <= |s.toks| && s.toks[..|ts|] == ts
    ensures At(s, k, ts[k..])
    decreases |ts| - k
  {
    if k < |ts| {
      assert s.toks[k] == s.toks[..|ts|][k];
      assert ts[k..][1..] == ts[k + 1..];
      AtStart(s, ts, k + 1);
    }
  }

  lemma AtOne(s: Stream, pos: nat, t: Token)
    requires At(s, pos, [t])
    ensures pos < |s.toks| && s.toks[pos] == t
  {
  }

  /** The object that `Set` calls for the first `i` entries of `o`, in key order, build from a new object. */
  function Replay(o: ObjectValue, i: nat): ObjectValue
    requires i <= |o.keys|
  {
    if i == 0 then EmptyObject
    else
      var k := o.keys[i - 1];
      SetEntry(Replay(o, i - 1), k, if k in o.vals then o.vals[k] else Null)
  }

  /** `r` holds exactly the first `i` entries of `o`, in the order of `o`. */
  predicate HoldsPrefix(r: ObjectValue, o: ObjectValue, i: nat)
    requires i <= |o.keys|
  {
    && r.keys == o.keys[..i]
    && (forall k | k in o.keys[..i] :: k in r.vals)
    && (forall k | k in r.vals :: k in o.keys[..i] && k in o.vals && r.vals[k] == o.vals[k])
  }

  /** Key `j` of the key order has a value and does not occur earlier in the order. */
  predicate NewAt(o: ObjectValue, j: nat)
    requires j < |o.keys|
  {
    o.keys[j] in o.vals && o.keys[j] !in o.keys[..j]
  }

  /** Setting entry `i`, a key not seen before, extends the replayed prefix by that entry. */
  lemma ReplayStep(o: ObjectValue, i: nat)
    requires i < |o.keys| && NewAt(o, i) && HoldsPrefix(Replay(o, i), o, i)
    ensures HoldsPrefix(Replay(o, i + 1), o, i + 1)
  {
    assert o.keys[..i + 1] == o.keys[..i] + [o.keys[i]];
  }

  /** Replaying the first `i` entries, each under a key not seen before, gives exactly those entries. */
  lemma {:induction false} ReplayPrefix(o: ObjectValue, i: nat)
    requires i <= |o.keys| && forall j | 0 <= j < i :: NewAt(o, j)
    ensures HoldsPrefix(Replay(o, i), o, i)
  {
    if i > 0 {
      ReplayPrefix(o, i - 1);
      assert NewAt(o, i - 1);
      ReplayStep(o, i - 1);
    }
  }

  /** Replaying every entry of an object that keeps the invariant rebuilds it. */
  lemma ReplayAll(o: ObjectValue)
    requires ObjectInvariant(o)
    ensures Replay(o, |o.keys|) == o
  {
    forall j | 0 <= j < |o.keys| ensures NewAt(o, j) {
      forall m | 0 <= m < j ensures o.keys[..j][m] != o.keys[j] {
        assert o.keys[m] != o.keys[j];
      }
    }
    ReplayPrefix(o, |o.keys|);
    assert o.keys[..|o.keys|] == o.keys;
    assert Replay(o, |o.keys|).vals == o.vals;
  }

  /** `unmarshal` on `[` hands over to the array loop. */
  lemma OpenArray(s: Stream, pos: nat, es: seq<Node>, next: nat)
    requires pos < |s.toks| && s.toks[pos] == DelimTok(LBrack)
    requires ParseArray(s, pos + 1, []) == Ok((es, next))
    ensures ParseValue(s, pos) == Ok((Val(Arr(es)), next))
  {
  }

  /** `unmarshal` on `{` hands over to the object loop, starting from a new object. */
  lemma OpenObject(s: Stream, pos: nat, o: ObjectValue, next: nat)
    requires pos < |s.toks| && s.toks[pos] == DelimTok(LBrace)
    requires ParseObject(s, pos + 1, EmptyObject) == Ok((o, next))
    ensures ParseValue(s, pos) == Ok((Val(Obj(o)), next))
  {
  }

  /** Decoding the tokens of a well-formed tree gives back the tree and consumes exactly its tokens. */
  lemma {:induction false} ParseFlatten(s: Stream, pos: nat, n: Node)
    requires WellFormed(n) && At(s, pos, Flatten(n))
    ensures ParseValue(s, pos) == Ok((Val(n), pos + |Flatten(n)|))
    decreases n, 0
  {
    match n
    case Arr(es) => ParseFlattenArray(s, pos, es, pos + |Flatten(n)|);
    case Obj(o) => ParseFlattenObject(s, pos, o, pos + |Flatten(n)|);
    case _ =>
  }

  lemma {:induction false} ParseFlattenArray(s: Stream, pos: nat, es: seq<Node>, end: nat)
    requires AllWellFormed(es) && At(s, pos, Flatten(Arr(es))) && end == pos + |Flatten(Arr(es))|
    ensures ParseValue(s, pos) == Ok((Val(Arr(es)), end))
    decreases es, 2
  {
    var body := FlattenSeq(es);
    assert Flatten(Arr(es)) == [DelimTok(LBrack)] + (body + [DelimTok(RBrack)]);
    var close := pos + 1 + |body|;
    AtSplitAt(s, pos, [DelimTok(LBrack)], body + [DelimTok(RBrack)], pos + 1);
    AtSplitAt(s, pos + 1, body, [DelimTok(RBrack)], close);
    AtOne(s, close, DelimTok(RBrack));
    assert [] + es == es;
    ParseElems(s, pos + 1, [], es, close);
    CloseArray(s, close, es, end);
    OpenArray(s, pos, es, end);
  }

  lemma {:induction false} ParseFlattenObject(s: Stream, pos: nat, o: ObjectValue, end: nat)
    requires WellFormed(Obj(o)) && At(s, pos, Flatten(Obj(o))) && end == pos + |Flatten(Obj(o))|
    ensures ParseValue(s, pos) == Ok((Val(Obj(o)), end))
    decreases o, 3
  {
    ParseReplayed(s, pos, o, end);
    ReplayAll(o);
  }

  /** The tokens of an object decode to the object its entries build when set in key order. */
  lemma {:induction false} ParseReplayed(s: Stream, pos: nat, o: ObjectValue, end: nat)
    requires ValuesWellFormed(o) && At(s, pos, Flatten(Obj(o))) && end == pos + |Flatten(Obj(o))|
    ensures ParseValue(s, pos) == Ok((Val(Obj(Replay(o, |o.keys|))), end))
    decreases o, 2
  {
    var body := FlattenEntries(o, 0);
    assert Flatten(Obj(o)) == [DelimTok(LBrace)] + (body + [DelimTok(RBrace)]);
    var close := pos + 1 + |body|;
    AtSplitAt(s, pos, [DelimTok(LBrace)], body + [DelimTok(RBrace)], pos + 1);
    AtSplitAt(s, pos + 1, body, [DelimTok(RBrace)], close);
    AtOne(s, close, DelimTok(RBrace));
    ParseEntries(s, pos + 1, o, 0, close);
    CloseObject(s, close, Replay(o, |o.keys|), end);
    OpenObject(s, pos, Replay(o, |o.keys|), end);
  }

  /** The array loop stops at `]` with what it has read. */
  lemma CloseArray(s: Stream, pos: nat, acc: seq<Node>, next: nat)
    requires pos < |s.toks| && s.toks[pos] == DelimTok(RBrack) && next == pos + 1
    ensures ParseArray(s, pos, acc) == Ok((acc, next))
  {
  }

  /** The object loop stops at `}` with what it has read. */
  lemma CloseObject(s: Stream, pos: nat, obj: ObjectValue, next: nat)
    requires pos < |s.toks| && s.toks[pos] == DelimTok(RBrace) && next == pos + 1
    ensures ParseObject(s, pos, obj) == Ok((obj, next))
  {
  }

  /** One turn of the array loop: it reads the element `e` and appends it. */
  lemma ElemStep(s: Stream, pos: nat, acc: seq<Node>, e: Node, next: nat)
    requires WellFormed(e) && At(s, pos, Flatten(e)) && next == pos + |Flatten(e)|
    ensures next <= |s.toks|
    ensures ParseArray(s, pos, acc) == ParseArray(s, next, acc + [e])
    decreases e, 1
  {
    ParseFlatten(s, pos, e);
  }

  /** The array loop reads the elements `es` one by one, appending each to what it has. */
  lemma {:induction false} ParseElems(s: Stream, pos: nat, acc: seq<Node>, es: seq<Node>, end: nat)
    requires AllWellFormed(es)
    requires At(s, pos, FlattenSeq(es)) && end == pos + |FlattenSeq(es)|
    ensures end <= |s.toks|
    ensures ParseArray(s, pos, acc) == ParseArray(s, end, acc + es)
    decreases es, 1
  {
    AtBound(s, pos, FlattenSeq(es));
    if es == [] {
      assert acc + es == acc;
    } else {
      var e := es[0];
      var next := pos + |Flatten(e)|;
      AtSplitAt(s, pos, Flatten(e), FlattenSeq(es[1..]), next);
      ElemStep(s, pos, acc, e, next);
      ParseElems(s, next, acc + [e], es[1..], end);
      assert (acc + [e]) + es[1..] == acc + es;
    }
  }

  /** One turn of the object loop: it reads the key `k`, then the value `v`, and sets them. */
  lemma EntryStep(s: Stream, pos: nat, obj: ObjectValue, k: string, v: Node, next: nat)
    requires WellFormed(v) && At(s, pos, [StrTok(k)] + Flatten(v)) && next == pos + |[StrTok(k)] + Flatten(v)|
    ensures next <= |s.toks|
    ensures ParseObject(s, pos, obj) == ParseObject(s, next, SetEntry(obj, k, v))
    decreases v, 1
  {
    AtSplitAt(s, pos, [StrTok(k)], Flatten(v), pos + 1);
    AtOne(s, pos, StrTok(k));
    ParseFlatten(s, pos + 1, v);
  }

  /** Every value stored in `o` is well-formed; unlike `WellFormed(Obj(o))` it says nothing about the keys. */
  predicate ValuesWellFormed(o: ObjectValue)
  {
    forall k | k in o.vals :: WellFormed(o.vals[k])
  }

  /** One turn of the object loop that reads the key `k` followed by `null`. */
  lemma NullEntryStep(s: Stream, pos: nat, obj: ObjectValue, k: string, next: nat)
    requires At(s, pos, [StrTok(k), NullTok]) && next == pos + 2
    ensures next <= |s.toks|
    ensures ParseObject(s, pos, obj) == ParseObject(s, next, SetEntry(obj, k, Null))
  {
    AtBound(s, pos, [StrTok(k), NullTok]);
    assert [StrTok(k), NullTok][1..] == [NullTok];
  }

  /** One turn of the object loop over the entries of `o`: entry `i` is read and set. */
  lemma EntriesStep(s: Stream, pos: nat, o: ObjectValue, i: nat, next: nat)
    requires ValuesWellFormed(o) && i < |o.keys|
    requires At(s, pos, FlattenEntries(o, i))
    requires next == pos + |FlattenEntries(o, i)| - |FlattenEntries(o, i + 1)|
    ensures pos + |FlattenEntries(o, i)| <= |s.toks|
    ensures At(s, next, FlattenEntries(o, i + 1))
    ensures ParseObject(s, pos, Replay(o, i)) == ParseObject(s, next, Replay(o, i + 1))
    decreases o, 0
  {
    AtBound(s, pos, FlattenEntries(o, i));
    var k := o.keys[i];
    var rest := FlattenEntries(o, i + 1);
    if k in o.vals {
      var v := o.vals[k];
      var a := [StrTok(k)] + Flatten(v);
      assert FlattenEntries(o, i) == a + rest;
      AtSplitAt(s, pos, a, rest, next);
      EntryStep(s, pos, Replay(o, i), k, v, next);
    } else {
      assert FlattenEntries(o, i) == [StrTok(k), NullTok] + rest;
      AtSplitAt(s, pos, [StrTok(k), NullTok], rest, next);
      NullEntryStep(s, pos, Replay(o, i), k, next);
    }
  }

  lemma NoEntriesLeft(o: ObjectValue)
    ensures FlattenEntries(o, |o.keys|) == []
  {
  }

  /** The object loop reads the entries `i..` of `o` one by one, setting each in turn. */
  lemma {:induction false} ParseEntries(s: Stream, pos: nat, o: ObjectValue, i: nat, end: nat)
    requires ValuesWellFormed(o) && i <= |o.keys|
    requires At(s, pos, FlattenEntries(o, i)) && end == pos + |FlattenEntries(o, i)|
    ensures end <= |s.toks|
    ensures ParseObject(s, pos, Replay(o, i)) == ParseObject(s, end, Replay(o, |o.keys|))
    decreases o, 1, |o.keys| - i
  {
    AtBound(s, pos, FlattenEntries(o, i));
    if i == |o.keys| {
      NoEntriesLeft(o);
    } else {
      var next := pos + |FlattenEntries(o, i)| - |FlattenEntries(o, i + 1)|;
      EntriesStep(s, pos, o, i, next);
      ParseEntries(s, next, o, i + 1, end);
    }
  }

  /** Round trip at the root: the tokens of a well-formed tree, followed by anything, decode to that tree. */
  lemma RootRoundTrip(n: Node, tail: seq<Token>, stop: LexError)
    requires WellFormed(n)
    ensures DecodeRoot(Stream(Flatten(n) + tail, stop)) == Assigned(n, None)
  {
    var s := Stream(Flatten(n) + tail, stop);
    assert s.toks[..|Flatten(n)|] == Flatten(n);
    AtStart(s, Flatten(n), 0);
    ParseFlatten(s, 0, n);
  }
}

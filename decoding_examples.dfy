/**
  Worked documents: empty containers, a duplicated key, and nested objects
  whose keys come in different orders.
 */
module DecodingExamples {
  import opened Wrappers
  import opened JsonValues
  import opened Tokens
  import opened Decoding
  import opened DecodingLemmas

  /** `{}` decodes to a new, empty object and `[]` to an empty array. */
  lemma EmptyContainers(stop: LexError)
    ensures DecodeRoot(Stream([DelimTok(LBrace), DelimTok(RBrace)], stop)) == Assigned(Obj(EmptyObject), None)
    ensures DecodeRoot(Stream([DelimTok(LBrack), DelimTok(RBrack)], stop)) == Assigned(Arr([]), None)
  {
    var so := Stream([DelimTok(LBrace), DelimTok(RBrace)], stop);
    assert ParseObject(so, 1, EmptyObject) == Ok((EmptyObject, 2));
    var sa := Stream([DelimTok(LBrack), DelimTok(RBrack)], stop);
    assert ParseArray(sa, 1, []) == Ok(([], 2));
  }

  /**
    `{"a":1,"b":2,"a":3}` decodes to the keys `a`, `b` in that order with
    `a` = 3: the later value wins, the first position stays.
   */
  lemma DuplicateKey(stop: LexError)
    ensures DecodeRoot(Stream([DelimTok(LBrace), StrTok("a"), NumTok(1.0), StrTok("b"), NumTok(2.0),
                               StrTok("a"), NumTok(3.0), DelimTok(RBrace)], stop))
         == Assigned(Obj(ObjectValue(["a", "b"], map["a" := Num(3.0), "b" := Num(2.0)])), None)
  {
    var s := Stream([DelimTok(LBrace), StrTok("a"), NumTok(1.0), StrTok("b"), NumTok(2.0),
                     StrTok("a"), NumTok(3.0), DelimTok(RBrace)], stop);
    var o1 := SetEntry(EmptyObject, "a", Num(1.0));
    var o2 := SetEntry(o1, "b", Num(2.0));
    var o3 := SetEntry(o2, "a", Num(3.0));
    assert ParseObject(s, 7, o3) == Ok((o3, 8));
    assert ParseObject(s, 5, o2) == Ok((o3, 8));
    assert ParseObject(s, 3, o1) == Ok((o3, 8));
    assert ParseObject(s, 1, EmptyObject) == Ok((o3, 8));
    assert o3 == ObjectValue(["a", "b"], map["a" := Num(3.0), "b" := Num(2.0)]);
  }

  /** `{"c":1,"d":2}` */
  function CD(): ObjectValue
  {
    ObjectValue(["c", "d"], map["c" := Num(1.0), "d" := Num(2.0)])
  }

  /** `{"d":2,"c":1}` */
  function DC(): ObjectValue
  {
    ObjectValue(["d", "c"], map["d" := Num(2.0), "c" := Num(1.0)])
  }

  /** `{"b":{"c":1,"d":2},"a":{"d":2,"c":1}}` */
  function Nested(): ObjectValue
  {
    ObjectValue(["b", "a"], map["b" := Obj(CD()), "a" := Obj(DC())])
  }

  function NestedTokens(): seq<Token>
  {
    [DelimTok(LBrace),
     StrTok("b"), DelimTok(LBrace), StrTok("c"), NumTok(1.0), StrTok("d"), NumTok(2.0), DelimTok(RBrace),
     StrTok("a"), DelimTok(LBrace), StrTok("d"), NumTok(2.0), StrTok("c"), NumTok(1.0), DelimTok(RBrace),
     DelimTok(RBrace)]
  }

  lemma InnerTokens()
    ensures Flatten(Obj(CD())) == [DelimTok(LBrace), StrTok("c"), NumTok(1.0), StrTok("d"), NumTok(2.0), DelimTok(RBrace)]
    ensures Flatten(Obj(DC())) == [DelimTok(LBrace), StrTok("d"), NumTok(2.0), StrTok("c"), NumTok(1.0), DelimTok(RBrace)]
  {
    assert FlattenEntries(CD(), 0) == [StrTok("c"), NumTok(1.0), StrTok("d"), NumTok(2.0)];
    assert FlattenEntries(DC(), 0) == [StrTok("d"), NumTok(2.0), StrTok("c"), NumTok(1.0)];
  }

  lemma OuterTokens()
    ensures Flatten(Obj(Nested())) == NestedTokens()
  {
    InnerTokens();
    var o := Nested();
    assert FlattenEntries(o, 2) == [];
    assert FlattenEntries(o, 1) == [StrTok("a")] + Flatten(Obj(DC()));
    assert FlattenEntries(o, 0) == [StrTok("b")] + Flatten(Obj(CD())) + [StrTok("a")] + Flatten(Obj(DC()));
  }

  lemma InnerWellFormed()
    ensures WellFormed(Obj(CD())) && WellFormed(Obj(DC()))
  {
    assert ObjectInvariant(CD()) && ObjectInvariant(DC());
  }

  lemma NestedWellFormed()
    ensures WellFormed(Obj(Nested()))
  {
    InnerWellFormed();
    var o := Nested();
    assert ObjectInvariant(o);
    assert forall k | k in o.vals :: o.vals[k] == Obj(CD()) || o.vals[k] == Obj(DC());
  }

  /**
    The outer object keeps the order `b`, `a`, and each inner object keeps
    its own order: `c`, `d` under `b` and `d`, `c` under `a`.
   */
  lemma NestedOrders(stop: LexError)
    ensures DecodeRoot(Stream(NestedTokens(), stop)) == Assigned(Obj(Nested()), None)
    ensures Nested().keys == ["b", "a"] && CD().keys == ["c", "d"] && DC().keys == ["d", "c"]
  {
    OuterTokens();
    NestedWellFormed();
    RootRoundTrip(Obj(Nested()), [], stop);
    assert Flatten(Obj(Nested())) + [] == NestedTokens();
  }
}

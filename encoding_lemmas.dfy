/**
  What the encoder promises: an object is written as `{`, its entries in key
  order with `,` only between them, then `}`; a tree encodes exactly when
  every key and scalar in it does; and a key that `Set` adds is written last.
 */
module EncodingLemmas {
  import opened Wrappers
  import opened JsonValues
  import opened Encoding

  /** The texts of all parts, in order, or the first error among them. */
  function Collect(parts: seq<Result<string, EncodeError>>): Result<seq<string>, EncodeError>
  {
    if parts == [] then Ok([])
    else
      match parts[0]
      case Err(e) => Err(e)
      case Ok(t) =>
        match Collect(parts[1..])
        case Err(e) => Err(e)
        case Ok(ts) => Ok([t] + ts)
  }

  /** The texts with `,` between consecutive ones and nowhere else. */
  function Join(ts: seq<string>): string
  {
    if |ts| == 0 then ""
    else if |ts| == 1 then ts[0]
    else ts[0] + "," + Join(ts[1..])
  }

  /** The joined texts, or the first error. */
  function JoinAll(r: Result<seq<string>, EncodeError>): Result<string, EncodeError>
  {
    match r
    case Err(e) => Err(e)
    case Ok(ts) => Ok(Join(ts))
  }

  /** `open` + the joined texts + `close`, or the first error. */
  function Braced(r: Result<seq<string>, EncodeError>, open: string, close: string): Result<string, EncodeError>
  {
    match r
    case Err(e) => Err(e)
    case Ok(ts) => Ok(open + Join(ts) + close)
  }

  /** The entries of `o`, one text (or error) per key, in key order. */
  function EntryParts(o: ObjectValue, enc: ScalarEncoder, n: nat): seq<Result<string, EncodeError>>
    requires n <= |o.keys|
  {
    seq(n, i requires 0 <= i < n => EntryText(o, o.keys[i], enc))
  }

  /** The elements of `es`, one text (or error) per element. */
  function ElementParts(es: seq<Node>, enc: ScalarEncoder, n: nat): seq<Result<string, EncodeError>>
    requires n <= |es|
  {
    seq(n, i requires 0 <= i < n => Marshal(es[i], enc))
  }

  lemma {:induction false} CollectSnoc(parts: seq<Result<string, EncodeError>>, p: Result<string, EncodeError>)
    ensures Collect(parts + [p]) ==
              match Collect(parts)
              case Err(e) => Err(e)
              case Ok(ts) => (match p case Err(e) => Err(e) case Ok(t) => Ok(ts + [t]))
    decreases |parts|
  {
    if parts != [] {
      assert (parts + [p])[1..] == parts[1..] + [p];
      CollectSnoc(parts[1..], p);
      if parts[0].Ok? && Collect(parts[1..]).Ok? && p.Ok? {
        var ts, t := Collect(parts[1..]).value, p.value;
        assert [parts[0].value] + (ts + [t]) == ([parts[0].value] + ts) + [t];
      }
    } else {
      assert [] + [p] == [p];
      assert [p][1..] == [];
      if p.Ok? {
        assert [p.value] + [] == [] + [p.value];
      }
    }
  }

  lemma {:induction false} JoinSnoc(ts: seq<string>, t: string)
    ensures Join(ts + [t]) == if ts == [] then t else Join(ts) + "," + t
    decreases |ts|
  {
    if |ts| == 1 {
      assert ts + [t] == [ts[0], t];
      assert [ts[0], t][1..] == [t];
    } else if |ts| > 1 {
      assert (ts + [t])[1..] == ts[1..] + [t];
      JoinSnoc(ts[1..], t);
    }
  }

  /** `Collect` succeeds exactly when every part does, and then gives one text per part. */
  lemma {:induction false} CollectOk(parts: seq<Result<string, EncodeError>>)
    ensures Collect(parts).Ok? <==> forall i | 0 <= i < |parts| :: parts[i].Ok?
    ensures Collect(parts).Ok? ==>
              |Collect(parts).value| == |parts| &&
              forall i | 0 <= i < |parts| :: Collect(parts).value[i] == parts[i].value
    decreases |parts|
  {
    if parts != [] {
      CollectOk(parts[1..]);
      if parts[0].Ok? && Collect(parts[1..]).Ok? {
        var ts := Collect(parts[1..]).value;
        forall i | 0 <= i < |parts| ensures ([parts[0].value] + ts)[i] == parts[i].value {
          if i > 0 { assert parts[1..][i - 1] == parts[i]; }
        }
      }
      if !parts[0].Ok? || !Collect(parts[1..]).Ok? {
        if parts[0].Ok? {
          var i :| 0 <= i < |parts[1..]| && !parts[1..][i].Ok?;
          assert !parts[i + 1].Ok?;
        }
      } else {
        forall i | 0 <= i < |parts| ensures parts[i].Ok? {
          if i > 0 { assert parts[1..][i - 1] == parts[i]; }
        }
      }
    }
  }

  /** The loop's way of building the entries (one after the other) agrees with joining them all. */
  lemma {:induction false} EntriesJoined(o: ObjectValue, enc: ScalarEncoder, n: nat)
    requires n <= |o.keys|
    ensures EntriesText(o, enc, n) == JoinAll(Collect(EntryParts(o, enc, n)))
  {
    if n == 0 {
      assert EntryParts(o, enc, 0) == [];
    } else {
      EntriesJoined(o, enc, n - 1);
      assert EntryParts(o, enc, n) == EntryParts(o, enc, n - 1) + [EntryText(o, o.keys[n - 1], enc)];
      CollectSnoc(EntryParts(o, enc, n - 1), EntryText(o, o.keys[n - 1], enc));
      if Collect(EntryParts(o, enc, n - 1)).Ok? && EntryText(o, o.keys[n - 1], enc).Ok? {
        CollectOk(EntryParts(o, enc, n - 1));
        var ts, t := Collect(EntryParts(o, enc, n - 1)).value, EntryText(o, o.keys[n - 1], enc).value;
        JoinSnoc(ts, t);
        assert EntriesText(o, enc, n - 1) == Ok(Join(ts));
        if n == 1 {
          assert ts == [];
          assert "" + "" + t == t;
        }
      }
    }
  }

  /**
    `Object.MarshalJSON` writes `{`, then for each key of the key order its
    entry (encoded key, `:`, encoded value), with `,` only between entries,
    then `}`; the first entry that fails to encode makes the whole call fail.
   */
  lemma ObjectShape(o: ObjectValue, enc: ScalarEncoder)
    ensures MarshalObject(o, enc) == Braced(Collect(EntryParts(o, enc, |o.keys|)), "{", "}")
  {
    EntriesJoined(o, enc, |o.keys|);
  }

  lemma {:induction false} ElementsJoined(es: seq<Node>, enc: ScalarEncoder, n: nat)
    requires n <= |es|
    ensures ElementsText(es, enc, n) == JoinAll(Collect(ElementParts(es, enc, n)))
  {
    if n == 0 {
      assert ElementParts(es, enc, 0) == [];
    } else {
      ElementsJoined(es, enc, n - 1);
      assert ElementParts(es, enc, n) == ElementParts(es, enc, n - 1) + [Marshal(es[n - 1], enc)];
      CollectSnoc(ElementParts(es, enc, n - 1), Marshal(es[n - 1], enc));
      if Collect(ElementParts(es, enc, n - 1)).Ok? && Marshal(es[n - 1], enc).Ok? {
        CollectOk(ElementParts(es, enc, n - 1));
        var ts, t := Collect(ElementParts(es, enc, n - 1)).value, Marshal(es[n - 1], enc).value;
        JoinSnoc(ts, t);
        assert ElementsText(es, enc, n - 1) == Ok(Join(ts));
        if n == 1 {
          assert ts == [];
          assert "" + "" + t == t;
        }
      }
    }
  }

  /** An array is written as `[`, its elements with `,` only between them, then `]`. */
  lemma ArrayShape(es: seq<Node>, enc: ScalarEncoder)
    ensures MarshalArray(es, enc) == Braced(Collect(ElementParts(es, enc, |es|)), "[", "]")
  {
    ElementsJoined(es, enc, |es|);
  }

  /** An empty object is written `{}` and an empty array `[]`, whatever the scalar encoder. */
  lemma EmptyShapes(enc: ScalarEncoder)
    ensures MarshalObject(EmptyObject, enc) == Ok("{}")
    ensures MarshalArray([], enc) == Ok("[]")
  {
    ObjectShape(EmptyObject, enc);
    assert EntryParts(EmptyObject, enc, 0) == [];
    ArrayShape([], enc);
    assert ElementParts([], enc, 0) == [];
    assert "{" + "" + "}" == "{}" && "[" + "" + "]" == "[]";
  }

  /** Every key and every scalar of the tree can be encoded. */
  predicate Encodable(n: Node, enc: ScalarEncoder)
    decreases n
  {
    match n
    case Arr(es) => forall i | 0 <= i < |es| :: Encodable(es[i], enc)
    case Obj(o) =>
      forall i | 0 <= i < |o.keys| ::
        && enc(Str(o.keys[i])).Ok?
        && (if o.keys[i] in o.vals then Encodable(o.vals[o.keys[i]], enc) else enc(Null).Ok?)
    case _ => enc(n).Ok?
  }

  /** `json.Marshal` on a tree succeeds exactly when every key and scalar in it can be encoded. */
  lemma {:induction false} MarshalOk(n: Node, enc: ScalarEncoder)
    ensures Marshal(n, enc).Ok? <==> Encodable(n, enc)
    decreases n, 2
  {
    match n
    case Arr(es) => ElementsOk(es, enc);
    case Obj(o) => EntriesOk(o, enc);
    case _ =>
  }

  lemma {:induction false} ElementsOk(es: seq<Node>, enc: ScalarEncoder)
    ensures MarshalArray(es, enc).Ok? <==> forall i | 0 <= i < |es| :: Encodable(es[i], enc)
    decreases es, 1
  {
    ArrayShape(es, enc);
    CollectOk(ElementParts(es, enc, |es|));
    var parts := ElementParts(es, enc, |es|);
    forall i | 0 <= i < |es| ensures parts[i].Ok? <==> Encodable(es[i], enc) {
      MarshalOk(es[i], enc);
    }
  }

  lemma {:induction false} EntriesOk(o: ObjectValue, enc: ScalarEncoder)
    ensures MarshalObject(o, enc).Ok? <==> Encodable(Obj(o), enc)
    decreases o, 1
  {
    ObjectShape(o, enc);
    CollectOk(EntryParts(o, enc, |o.keys|));
    var parts := EntryParts(o, enc, |o.keys|);
    forall i | 0 <= i < |o.keys|
      ensures parts[i].Ok? <==>
                && enc(Str(o.keys[i])).Ok?
                && (if o.keys[i] in o.vals then Encodable(o.vals[o.keys[i]], enc) else enc(Null).Ok?)
    {
      if o.keys[i] in o.vals {
        MarshalOk(o.vals[o.keys[i]], enc);
      }
    }
  }

  /** `Set` changes no entry but the one under its own key. */
  lemma OtherEntriesUnchanged(o: ObjectValue, k: string, v: Node, j: string, enc: ScalarEncoder)
    requires j != k
    ensures EntryText(SetEntry(o, k, v), j, enc) == EntryText(o, j, enc)
  {
    assert (j in SetEntry(o, k, v).vals) == (j in o.vals);
    if j in o.vals {
      assert SetEntry(o, k, v).vals[j] == o.vals[j];
    }
  }

  /** A new key adds one entry after all the others. */
  lemma NewEntryAppended(o: ObjectValue, k: string, v: Node, enc: ScalarEncoder)
    requires k !in o.keys && k !in o.vals
    ensures |SetEntry(o, k, v).keys| == |o.keys| + 1
    ensures EntryParts(SetEntry(o, k, v), enc, |o.keys| + 1)
         == EntryParts(o, enc, |o.keys|) + [EntryText(SetEntry(o, k, v), k, enc)]
  {
    var o' := SetEntry(o, k, v);
    var n := |o.keys|;
    forall i | 0 <= i < n ensures EntryParts(o', enc, n + 1)[i] == EntryParts(o, enc, n)[i] {
      OtherEntriesUnchanged(o, k, v, o.keys[i], enc);
    }
  }

  /**
    After `Set` of a key the object did not have, `MarshalJSON` writes what
    it wrote before with the new entry added last (after a `,` unless the
    object was empty).
   */
  lemma SetNewKeyWrittenLast(o: ObjectValue, k: string, v: Node, enc: ScalarEncoder, t: string, kt: string, vt: string)
    requires k !in o.keys && k !in o.vals
    requires MarshalObject(o, enc) == Ok(t) && enc(Str(k)) == Ok(kt) && Marshal(v, enc) == Ok(vt)
    ensures 2 <= |t| && t[0] == '{' && t[|t| - 1] == '}'
    ensures MarshalObject(SetEntry(o, k, v), enc)
         == Ok(t[..|t| - 1] + (if o.keys == [] then "" else ",") + kt + ":" + vt + "}")
  {
    var o' := SetEntry(o, k, v);
    var n := |o.keys|;
    NewEntryAppended(o, k, v, enc);
    assert EntryText(o', k, enc) == Ok(kt + ":" + vt);
    ObjectShape(o, enc);
    ObjectShape(o', enc);
    CollectSnoc(EntryParts(o, enc, n), Ok(kt + ":" + vt));
    CollectOk(EntryParts(o, enc, n));
    var ts := Collect(EntryParts(o, enc, n)).value;
    assert MarshalObject(o', enc) == Ok("{" + Join(ts + [kt + ":" + vt]) + "}");
    BracedSnoc(ts, t, kt, vt);
  }

  /** The text algebra behind the previous lemma: closing `}` off, the new entry on. */
  lemma BracedSnoc(ts: seq<string>, t: string, kt: string, vt: string)
    requires t == "{" + Join(ts) + "}"
    ensures 2 <= |t| && t[0] == '{' && t[|t| - 1] == '}'
    ensures "{" + Join(ts + [kt + ":" + vt]) + "}" == t[..|t| - 1] + (if ts == [] then "" else ",") + kt + ":" + vt + "}"
  {
    JoinSnoc(ts, kt + ":" + vt);
    assert t[..|t| - 1] == "{" + Join(ts);
    if ts == [] {
      assert "{" + Join(ts + [kt + ":" + vt]) + "}" == "{" + (kt + ":" + vt) + "}";
      assert Join(ts) == "";
    } else {
      assert "{" + Join(ts + [kt + ":" + vt]) + "}" == "{" + (Join(ts) + "," + (kt + ":" + vt)) + "}";
    }
  }

  /**
    After `Set` of a key the object already has, every entry is written in
    the same place as before, and only the entry of that key changes.
   */
  lemma SetExistingKeyInPlace(o: ObjectValue, k: string, v: Node, enc: ScalarEncoder, i: nat)
    requires ObjectInvariant(o) && i < |o.keys| && o.keys[i] == k
    ensures SetEntry(o, k, v).keys == o.keys
    ensures EntryParts(SetEntry(o, k, v), enc, |o.keys|)
         == EntryParts(o, enc, |o.keys|)[i := EntryText(SetEntry(o, k, v), k, enc)]
  {
    var o' := SetEntry(o, k, v);
    forall j | 0 <= j < |o.keys| && j != i
      ensures EntryParts(o', enc, |o.keys|)[j] == EntryParts(o, enc, |o.keys|)[j]
    {
      OtherEntriesUnchanged(o, k, v, o.keys[j], enc);
    }
  }

  /** Once an entry fails, the text of every longer prefix fails with the same error. */
  lemma {:induction false} EntriesErrorSticks(o: ObjectValue, enc: ScalarEncoder, i: nat, n: nat)
    requires i <= n <= |o.keys| && EntriesText(o, enc, i).Err?
    ensures EntriesText(o, enc, n) == EntriesText(o, enc, i)
    decreases n - i
  {
    if i < n {
      EntriesErrorSticks(o, enc, i, n - 1);
    }
  }
}

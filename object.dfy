/**
  Go's `Object`: a key order and a map, updated in place by `Set`, and
  written out by `MarshalJSON` in key order.
 */
module OrderedObject {
  import opened Wrappers
  import opened JsonValues
  import opened Encoding
  import EncodingLemmas

  class Object {
    var keyOrder: seq<string>
    var values: map<string, Node>

    /** The current contents, as the value the rest of the model works on. */
    function Snapshot(): ObjectValue
      reads this
    {
      ObjectValue(keyOrder, values)
    }

    /** The key order has no duplicates and lists exactly the keys of the map. */
    predicate Valid()
      reads this
    {
      ObjectInvariant(Snapshot())
    }

    /** `NewObject`: no keys, no values. */
    constructor ()
      ensures keyOrder == [] && values == map[]
      ensures Snapshot() == EmptyObject && Valid()
    {
      keyOrder := [];
      values := map[];
    }

    /** `Get`: the value under `k` and whether it is present; nil (Null) when absent. */
    function Get(k: string): (r: (Node, bool))
      reads this
      ensures r.1 <==> k in values
      ensures r.1 ==> r.0 == values[k]
      ensures !r.1 ==> r.0 == Null
      ensures Valid() ==> (r.1 <==> k in keyOrder)
    {
      JsonValues.Get(Snapshot(), k)
    }

    /**
      `KeyOrder`: the keys in the order of their first insertion; on a valid
      object, without repetition and each one present.
     */
    function KeyOrder(): (r: seq<string>)
      reads this
      ensures r == keyOrder
      ensures Valid() ==> Distinct(r) && forall k :: k in r <==> Get(k).1
    {
      keyOrder
    }

    /**
      `Set`: a key not in the map is appended to the key order; a key already
      in it keeps its position. Either way the map now holds `v` under `k`
      and nothing else changes.
     */
    method Set(k: string, v: Node)
      modifies this
      ensures k !in old(values) ==> keyOrder == old(keyOrder) + [k]
      ensures k in old(values) ==> keyOrder == old(keyOrder)
      ensures values == old(values)[k := v]
      ensures Snapshot() == SetEntry(old(Snapshot()), k, v)
      ensures old(Valid()) ==> Valid()
    {
      SetEntryKeepsInvariant(Snapshot(), k, v);
      if k !in values {
        keyOrder := keyOrder + [k];
      }
      values := values[k := v];
    }

    /** `SetAndReturn`: `Set`, then the same object back, for chaining. */
    method SetAndReturn(k: string, v: Node) returns (r: Object)
      modifies this
      ensures r == this
      ensures Snapshot() == SetEntry(old(Snapshot()), k, v)
      ensures old(Valid()) ==> Valid()
    {
      Set(k, v);
      r := this;
    }

    /**
      `MarshalJSON`: `{`, then for each key of the key order a `,` (except
      before the first), the encoded key, `:` and the encoded value, then `}`.
      The first key or value that fails to encode ends the call with its error.
     */
    method MarshalJSON(enc: ScalarEncoder) returns (r: Result<string, EncodeError>)
      ensures r == MarshalObject(Snapshot(), enc)
    {
      var b := "{";
      var i := 0;
      while i < |keyOrder|
        invariant 0 <= i <= |keyOrder|
        invariant EntriesText(Snapshot(), enc, i).Ok?
        invariant b == "{" + EntriesText(Snapshot(), enc, i).value
      {
        var k := keyOrder[i];
        ghost var prefix := EntriesText(Snapshot(), enc, i).value;
        if i > 0 {
          b := b + ",";
        }
        var key := enc(Str(k));
        if key.Err? {
          EncodingLemmas.EntriesErrorSticks(Snapshot(), enc, i + 1, |keyOrder|);
          return Err(key.error);
        }
        b := b + key.value + ":";
        var (v, _) := Get(k);
        var val := Marshal(v, enc);
        if val.Err? {
          EncodingLemmas.EntriesErrorSticks(Snapshot(), enc, i + 1, |keyOrder|);
          return Err(val.error);
        }
        b := b + val.value;
        assert b == "{" + (prefix + (if i > 0 then "," else "") + (key.value + ":" + val.value));
        i := i + 1;
      }
      b := b + "}";
      r := Ok(b);
    }
  }

  /** `Set(a,1); Set(b,2); Set(a,3)` on a new object: the order is `a`, `b` and `a` holds 3. */
  method FirstInsertionWins() returns (order: seq<string>, a: Node, found: bool)
    ensures order == ["a", "b"] && a == Num(3.0) && found
  {
    var o := new Object();
    var o' := o.SetAndReturn("a", Num(1.0));
    o' := o'.SetAndReturn("b", Num(2.0));
    o' := o'.SetAndReturn("a", Num(3.0));
    order := o.KeyOrder();
    var got := o.Get("a");
    a, found := got.0, got.1;
  }
}

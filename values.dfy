/**
  The parsed JSON tree of ojson.go. In Go a value is an `interface{}` holding
  nil, bool, float64, string, []interface{} or *Object; here it is a tagged
  union. An object is recorded by its key order and its key-to-value map.
 */
module JsonValues {

  /** A number is carried as an opaque payload: the model never computes with it. */
  datatype Node =
    | Null
    | Bool(b: bool)
    | Num(x: real)
    | Str(s: string)
    | Arr(elems: seq<Node>)
    | Obj(obj: ObjectValue)

  /** The two fields of Go's `Object`: `keyOrder` and `values`. */
  datatype ObjectValue = ObjectValue(keys: seq<string>, vals: map<string, Node>)

  /** What `NewObject` builds: no keys, no values. */
  const EmptyObject := ObjectValue([], map[])

  predicate Distinct(s: seq<string>)
  {
    forall i, j | 0 <= i < j < |s| :: s[i] != s[j]
  }

  /** The object invariant: the key order has no duplicates and lists exactly the keys of the map. */
  predicate ObjectInvariant(o: ObjectValue)
  {
    && Distinct(o.keys)
    && (forall k | k in o.keys :: k in o.vals)
    && (forall k | k in o.vals :: k in o.keys)
  }

  /** Every object in the tree, at any depth, keeps the object invariant. */
  predicate WellFormed(n: Node)
  {
    match n
    case Arr(es) => forall i | 0 <= i < |es| :: WellFormed(es[i])
    case Obj(o) => ObjectInvariant(o) && forall k | k in o.vals :: WellFormed(o.vals[k])
    case _ => true
  }

  predicate AllWellFormed(es: seq<Node>)
  {
    forall i | 0 <= i < |es| :: WellFormed(es[i])
  }

  /**
    `Object.Get`: the value under `k` and whether it was found. Go's nil
    stands both for JSON null and for "absent", so a miss yields Null.
   */
  function Get(o: ObjectValue, k: string): (r: (Node, bool))
    ensures r.1 <==> k in o.vals
    ensures r.1 ==> r.0 == o.vals[k]
    ensures ObjectInvariant(o) ==> (r.1 <==> k in o.keys)
    ensures !r.1 ==> r.0 == Null
  {
    if k in o.vals then (o.vals[k], true) else (Null, false)
  }

  /**
    `Object.Set` as a value update (insert-or-update): an absent key is
    appended to the key order; a present key keeps its position and only its
    value changes, so the first insertion position wins.
   */
  function SetEntry(o: ObjectValue, k: string, v: Node): (r: ObjectValue)
    ensures k in o.vals ==> r.keys == o.keys
    ensures k !in o.vals ==> r.keys == o.keys + [k]
    ensures k in r.vals && r.vals[k] == v
  {
    ObjectValue(if k in o.vals then o.keys else o.keys + [k], o.vals[k := v])
  }

  /** `Set` keeps the object invariant, and with a well-formed value it keeps the whole tree well-formed. */
  lemma SetEntryKeepsInvariant(o: ObjectValue, k: string, v: Node)
    ensures ObjectInvariant(o) ==> ObjectInvariant(SetEntry(o, k, v))
    ensures WellFormed(Obj(o)) && WellFormed(v) ==> WellFormed(Obj(SetEntry(o, k, v)))
  {
  }

  /** After `Set`, `Get` finds the new value under `k`, and every other key keeps its value. */
  lemma SetEntryThenGet(o: ObjectValue, k: string, v: Node, k': string)
    ensures Get(SetEntry(o, k, v), k) == (v, true)
    ensures k' != k ==> Get(SetEntry(o, k, v), k') == Get(o, k')
  {
  }

  /** Setting an existing key never moves it: its index in the key order is the one it was first given. */
  lemma SetKeepsPositions(o: ObjectValue, k: string, v: Node, i: nat)
    requires i < |o.keys|
    ensures i < |SetEntry(o, k, v).keys| && SetEntry(o, k, v).keys[i] == o.keys[i]
  {
  }

  /** Set(a,1); Set(b,2); Set(a,3) on a new object gives the order [a,b] and a = 3. */
  lemma FirstInsertionWins()
    ensures SetEntry(SetEntry(SetEntry(EmptyObject, "a", Num(1.0)), "b", Num(2.0)), "a", Num(3.0))
         == ObjectValue(["a", "b"], map["a" := Num(3.0), "b" := Num(2.0)])
  {
  }
}

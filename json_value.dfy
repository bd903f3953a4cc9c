/**
 The value tree that the proxy server receives from the upstream property
 API once the response body has been decoded: the nested dicts, lists and
 scalars a JSON decoder yields. Floats are kept abstract, since the
 sanitiser only asks whether a float is NaN or infinite.
 */
module JsonValue {

  datatype Option<T> = None | Some(value: T)

  /** A float as far as `math.isnan` and `math.isinf` can tell. */
  datatype Float = Finite(r: real) | NaN | PosInf | NegInf

  predicate IsNaN(x: Float) {
    x.NaN?
  }

  predicate IsInf(x: Float) {
    x.PosInf? || x.NegInf?
  }

  /** The test the sanitiser applies to a float: NaN, +Infinity or -Infinity. */
  predicate IsNonFinite(x: Float) {
    IsNaN(x) || IsInf(x)
  }

  /**
   A decoded value. A dict is the sequence of its (key, value) entries in
   insertion order; a decoded JSON object has string keys. The type is wider
   than a Python dict, since it admits repeated keys; every property proved
   here holds for such values too.
   */
  datatype Json =
    | JNull
    | JBool(b: bool)
    | JInt(n: int)
    | JFloat(x: Float)
    | JStr(s: string)
    | JArr(items: seq<Json>)
    | JObj(fields: seq<(string, Json)>)

  predicate IsScalar(j: Json) {
    !j.JArr? && !j.JObj?
  }

  predicate IsNull(j: Json) {
    j.JNull?
  }

  /** A float leaf holding NaN or an infinity. */
  predicate IsNonFiniteFloat(j: Json) {
    j.JFloat? && IsNonFinite(j.x)
  }

  /** No float leaf anywhere in the tree is NaN or infinite. */
  predicate Clean(j: Json)
    decreases j
  {
    match j
    case JFloat(x) => !IsNonFinite(x)
    case JArr(items) => forall i | 0 <= i < |items| :: Clean(items[i])
    case JObj(fields) => forall i | 0 <= i < |fields| :: Clean(fields[i].1)
    case _ => true
  }

  /**
   The skeleton of a value: its containers, their sizes and order, and every
   dict's keys, with each scalar reduced to a bare leaf.
   */
  datatype Shape = Leaf | ArrShape(elems: seq<Shape>) | ObjShape(entries: seq<(string, Shape)>)

  function ShapeOf(j: Json): Shape
    decreases j
  {
    match j
    case JArr(items) =>
      ArrShape(seq(|items|, i requires 0 <= i < |items| => ShapeOf(items[i])))
    case JObj(fields) =>
      ObjShape(seq(|fields|, i requires 0 <= i < |fields| => (fields[i].0, ShapeOf(fields[i].1))))
    case _ => Leaf
  }

  /**
   The sub-value reached by following a path of positions: a list index, or
   the index of an entry in a dict's insertion order. None when the path
   leaves the tree.
   */
  function At(j: Json, path: seq<nat>): Option<Json>
    decreases path
  {
    if path == [] then Some(j)
    else
      match j
      case JArr(items) =>
        if path[0] < |items| then At(items[path[0]], path[1..]) else None
      case JObj(fields) =>
        if path[0] < |fields| then At(fields[path[0]].1, path[1..]) else None
      case _ => None
  }

  /** The number of scalar leaves of `j` that satisfy `hit`. */
  function CountLeaves(j: Json, hit: Json -> bool): nat
    decreases j, 2
  {
    match j
    case JArr(items) => CountItems(items, hit)
    case JObj(fields) => CountFields(fields, hit)
    case _ => if hit(j) then 1 else 0
  }

  function CountItems(items: seq<Json>, hit: Json -> bool): nat
    decreases items, 1
  {
    if items == [] then 0 else CountLeaves(items[0], hit) + CountItems(items[1..], hit)
  }

  function CountFields(fields: seq<(string, Json)>, hit: Json -> bool): nat
    decreases fields, 1
  {
    if fields == [] then 0
    else
      assert fields decreases to fields[0];
      assert fields[0] decreases to fields[0].1;
      CountLeaves(fields[0].1, hit) + CountFields(fields[1..], hit)
  }

  function Nulls(j: Json): nat {
    CountLeaves(j, IsNull)
  }

  function NonFinites(j: Json): nat {
    CountLeaves(j, IsNonFiniteFloat)
  }

  /** Clean says exactly that there are no non-finite float leaves to count. */
  lemma {:induction false} CleanIffNoNonFinite(j: Json)
    ensures Clean(j) <==> NonFinites(j) == 0
    decreases j, 2
  {
    match j
    case JArr(items) => CleanIffNoNonFiniteItems(items);
    case JObj(fields) => CleanIffNoNonFiniteFields(fields);
    case _ =>
  }

  lemma {:induction false} CleanIffNoNonFiniteItems(items: seq<Json>)
    ensures (forall i | 0 <= i < |items| :: Clean(items[i])) <==> CountItems(items, IsNonFiniteFloat) == 0
    decreases items, 1
  {
    if items != [] {
      CleanIffNoNonFinite(items[0]);
      CleanIffNoNonFiniteItems(items[1..]);
      assert forall i | 1 <= i < |items| :: items[i] == items[1..][i - 1];
    }
  }

  lemma {:induction false} CleanIffNoNonFiniteFields(fields: seq<(string, Json)>)
    ensures (forall i | 0 <= i < |fields| :: Clean(fields[i].1)) <==> CountFields(fields, IsNonFiniteFloat) == 0
    decreases fields, 1
  {
    if fields != [] {
      assert fields decreases to fields[0];
      assert fields[0] decreases to fields[0].1;
      CleanIffNoNonFinite(fields[0].1);
      CleanIffNoNonFiniteFields(fields[1..]);
      assert forall i | 1 <= i < |fields| :: fields[i] == fields[1..][i - 1];
    }
  }
}

/**
 The proxy server's response sanitiser (`sanitize_data` in server.py): it
 walks the decoded upstream response and replaces every NaN, +Infinity and
 -Infinity float with None, so that the response can be sent back as
 standard JSON (null). Dicts and lists are rebuilt entry by entry; every
 other value is returned as it is.
 */
module Sanitizer {
  import opened JsonValue

  /**
   Dicts keep their keys and insertion order with each value sanitised,
   lists keep their order with each item sanitised, a NaN or infinite float
   becomes null, and everything else is returned unchanged. Whatever the
   input, no non-finite float is left in the result.
   */
  function Sanitize(j: Json): (r: Json)
    ensures Clean(r)
    decreases j
  {
    match j
    case JObj(fields) =>
      JObj(seq(|fields|, i requires 0 <= i < |fields| => (fields[i].0, Sanitize(fields[i].1))))
    case JArr(items) =>
      JArr(seq(|items|, i requires 0 <= i < |items| => Sanitize(items[i])))
    case JFloat(x) =>
      if IsNonFinite(x) then JNull else j
    case _ => j
  }

  /**
   Sanitising never adds, drops or reorders anything: every list keeps its
   length, every dict keeps exactly its keys in their order, at every depth.
   */
  lemma {:induction false} ShapePreserved(j: Json)
    ensures ShapeOf(Sanitize(j)) == ShapeOf(j)
    decreases j
  {
    match j
    case JObj(fields) =>
      var out := Sanitize(j).fields;
      forall i | 0 <= i < |fields|
        ensures ShapeOf(out[i].1) == ShapeOf(fields[i].1)
      {
        ShapePreserved(fields[i].1);
      }
      assert ShapeOf(Sanitize(j)).entries == ShapeOf(j).entries;
    case JArr(items) =>
      var out := Sanitize(j).items;
      forall i | 0 <= i < |items|
        ensures ShapeOf(out[i]) == ShapeOf(items[i])
      {
        ShapePreserved(items[i]);
      }
      assert ShapeOf(Sanitize(j)).elems == ShapeOf(j).elems;
    case _ =>
  }

  /**
   Sanitising commutes with navigation: a path reaches something in the
   output exactly when it reaches something in the input, and what it
   reaches in the output is the sanitised input sub-value.
   */
  lemma {:induction false} SanitizeAt(j: Json, path: seq<nat>)
    ensures At(Sanitize(j), path).Some? <==> At(j, path).Some?
    ensures At(j, path).Some? ==> At(Sanitize(j), path).value == Sanitize(At(j, path).value)
    decreases path
  {
    if path != [] {
      match j
      case JObj(fields) =>
        if path[0] < |fields| {
          SanitizeAt(fields[path[0]].1, path[1..]);
        }
      case JArr(items) =>
        if path[0] < |items| {
          SanitizeAt(items[path[0]], path[1..]);
        }
      case _ =>
    }
  }

  /** A NaN or infinite float is replaced by null at the very same position. */
  lemma {:induction false} NonFiniteReplacedInPlace(j: Json, path: seq<nat>, x: Float)
    requires At(j, path) == Some(JFloat(x)) && IsNonFinite(x)
    ensures At(Sanitize(j), path) == Some(JNull)
  {
    SanitizeAt(j, path);
  }

  /**
   Every other scalar leaf (null, bool, int, string, finite float) is found
   unchanged at the same position of the output.
   */
  lemma {:induction false} ScalarKeptInPlace(j: Json, path: seq<nat>, v: Json)
    requires At(j, path) == Some(v) && IsScalar(v) && !IsNonFiniteFloat(v)
    ensures At(Sanitize(j), path) == Some(v)
  {
    SanitizeAt(j, path);
  }

  /** A value with no non-finite float is sanitised to an equal value. */
  lemma {:induction false} IdentityOnClean(j: Json)
    requires Clean(j)
    ensures Sanitize(j) == j
    decreases j
  {
    match j
    case JObj(fields) =>
      var out := Sanitize(j).fields;
      forall i | 0 <= i < |fields|
        ensures out[i] == fields[i]
      {
        IdentityOnClean(fields[i].1);
      }
      assert out == fields;
    case JArr(items) =>
      var out := Sanitize(j).items;
      forall i | 0 <= i < |items|
        ensures out[i] == items[i]
      {
        IdentityOnClean(items[i]);
      }
      assert out == items;
    case _ =>
  }

  /** The values the sanitiser leaves alone are exactly the clean ones. */
  lemma {:induction false} FixedPointIffClean(j: Json)
    ensures Sanitize(j) == j <==> Clean(j)
  {
    if Clean(j) {
      IdentityOnClean(j);
    }
  }

  /** Sanitising an already sanitised value changes nothing. */
  lemma {:induction false} Idempotent(j: Json)
    ensures Sanitize(Sanitize(j)) == Sanitize(j)
  {
    IdentityOnClean(Sanitize(j));
  }

  /**
   Each non-finite float turns into one null and nothing else does: the
   output has as many nulls as the input had nulls and non-finite floats
   together.
   */
  lemma {:induction false} NullCount(j: Json)
    ensures Nulls(Sanitize(j)) == Nulls(j) + NonFinites(j)
    decreases j, 2
  {
    match j
    case JObj(fields) => NullCountFields(fields);
    case JArr(items) => NullCountItems(items);
    case _ =>
  }

  lemma {:induction false} NullCountItems(items: seq<Json>)
    ensures CountItems(Sanitize(JArr(items)).items, IsNull)
         == CountItems(items, IsNull) + CountItems(items, IsNonFiniteFloat)
    decreases items, 1
  {
    if items != [] {
      var out := Sanitize(JArr(items)).items;
      NullCount(items[0]);
      NullCountItems(items[1..]);
      assert out[1..] == Sanitize(JArr(items[1..])).items;
    }
  }

  lemma {:induction false} NullCountFields(fields: seq<(string, Json)>)
    ensures CountFields(Sanitize(JObj(fields)).fields, IsNull)
         == CountFields(fields, IsNull) + CountFields(fields, IsNonFiniteFloat)
    decreases fields, 1
  {
    if fields != [] {
      var out := Sanitize(JObj(fields)).fields;
      assert fields decreases to fields[0];
      assert fields[0] decreases to fields[0].1;
      NullCount(fields[0].1);
      NullCountFields(fields[1..]);
      assert out[1..] == Sanitize(JObj(fields[1..])).fields;
    }
  }

  /** No non-finite float leaf is left to count in the output. */
  lemma {:induction false} NoNonFiniteLeft(j: Json)
    ensures NonFinites(Sanitize(j)) == 0
  {
    CleanIffNoNonFinite(Sanitize(j));
  }
}

/**
 * Null defaults and the reflective "first non-null wins" merge of two report records
 * (config/Util.java).  A record is modelled as the sequence of its declared field values,
 * in declaration order; a field of primitive Java type (int, boolean, ...) can never be null.
 */
module Util {
  import opened Wrappers

  /** `Optional.ofNullable(object).map(getter).orElse(defaultValue)`. */
  function CheckNullAndSetDefault<T, R>(obj: Option<T>, getter: T -> Option<R>, defaultValue: R): (r: R)
    ensures obj.None? ==> r == defaultValue
    ensures obj.Some? && getter(obj.value).None? ==> r == defaultValue
    ensures obj.Some? && getter(obj.value).Some? ==> r == getter(obj.value).value
  {
    match obj
    case None => defaultValue
    case Some(o) => getter(o).GetOr(defaultValue)
  }

  /** The value a reflective getter returns for one field. */
  datatype FieldValue = Null | Number(x: real) | Text(s: string) | Flag(b: bool) | Count(n: int)

  /** Whether a declared field has a reference type (may hold null) or a primitive type. */
  datatype FieldKind = Reference | Primitive

  /** A record of the given class layout: one value per declared field, primitives never null. */
  predicate WellFormed(schema: seq<FieldKind>, rec: seq<FieldValue>)
  {
    |rec| == |schema| &&
    forall i :: 0 <= i < |rec| && schema[i] == Primitive ==> rec[i] != Null
  }

  /** One field of the merge: the first record's value unless it is null. */
  function FirstNonNull(a: FieldValue, b: FieldValue): (r: FieldValue)
    ensures a != Null ==> r == a
    ensures a == Null ==> r == b
  {
    if a != Null then a else b
  }

  /** The record the merge builds, field by field. */
  function Merged(first: seq<FieldValue>, second: seq<FieldValue>): seq<FieldValue>
    requires |first| == |second|
  {
    seq(|first|, i requires 0 <= i < |first| => FirstNonNull(first[i], second[i]))
  }

  /** The record whose every field is null (what the Lombok builder yields when nothing is set). */
  function AllNull(n: nat): (r: seq<FieldValue>)
    ensures |r| == n
    ensures forall i :: 0 <= i < n ==> r[i] == Null
  {
    seq(n, i => Null)
  }

  /**
   * mergeProcessProductionReport / mergeMainProductionReport: walk the declared fields and set
   * each builder field to `first.f != null ? first.f : second.f`.  Both Java methods run this
   * same loop on their own class, so one method models both.
   */
  method MergeReports(first: seq<FieldValue>, second: seq<FieldValue>) returns (merged: seq<FieldValue>)
    requires |first| == |second|
    ensures |merged| == |first|
    ensures forall i :: 0 <= i < |first| ==>
      merged[i] == (if first[i] != Null then first[i] else second[i])
    ensures merged == Merged(first, second)
  {
    merged := [];
    var k := 0;
    while k < |first|
      invariant 0 <= k <= |first|
      invariant |merged| == k
      invariant forall i :: 0 <= i < k ==> merged[i] == FirstNonNull(first[i], second[i])
    {
      var value := if first[k] != Null then first[k] else second[k];
      merged := merged + [value];
      k := k + 1;
    }
  }

  /** A record merged with an all-null record is itself, on either side. */
  lemma MergeWithAllNull(rec: seq<FieldValue>)
    ensures Merged(rec, AllNull(|rec|)) == rec
    ensures Merged(AllNull(|rec|), rec) == rec
  {
  }

  /** merge(a, a) == a. */
  lemma MergeIdempotent(rec: seq<FieldValue>)
    ensures Merged(rec, rec) == rec
  {
  }

  /** merge(merge(a, b), c) == merge(a, merge(b, c)). */
  lemma MergeAssociative(a: seq<FieldValue>, b: seq<FieldValue>, c: seq<FieldValue>)
    requires |a| == |b| == |c|
    ensures Merged(Merged(a, b), c) == Merged(a, Merged(b, c))
  {
  }

  /** A primitive field is never null, so the merged value always comes from the first record. */
  lemma PrimitiveFieldsFromFirst(schema: seq<FieldKind>, first: seq<FieldValue>, second: seq<FieldValue>)
    requires WellFormed(schema, first) && WellFormed(schema, second)
    ensures WellFormed(schema, Merged(first, second))
    ensures forall i :: 0 <= i < |schema| && schema[i] == Primitive ==> Merged(first, second)[i] == first[i]
  {
  }
}

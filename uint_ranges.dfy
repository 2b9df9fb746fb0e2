/** The shape checks that `verifyAssets` applies to the ranges a caller
    supplies (assetIds, ownershipTimes, mustOwnAmounts), over a small model of
    the JavaScript values that can stand where a UintRange is expected. */
module UintRanges {

  datatype Option<+T> = None | Some(value: T)

  /** A field as `BigInt(...)` sees it: either it converts to an integer, or the
      conversion throws (undefined, a fractional number, a non-numeric string). */
  datatype Field = Num(n: int) | Unconvertible

  /** A JavaScript value found where a UintRange is expected. */
  datatype RangeLike =
    | Obj(start: Field, end: Field)  // an object that is not null
    | Null                           // null: `typeof null` is "object" as well
    | Primitive(truthy: bool)        // a number, string, boolean or undefined, with its truthiness

  /** A converted `UintRange<bigint>`: the inclusive interval start..end. */
  datatype Range = Range(start: int, end: int)

  /** What evaluating a shape predicate gives: true, false, or a thrown runtime error. */
  datatype Verdict = Pass | Fail | Throws

  /** The predicate `typeof x === "object" && BigInt(x.start) >= 0 && BigInt(x.end) >= 0`,
      evaluated left to right with short-circuit. Reading a field of null throws, and
      so does `BigInt` of a value it cannot convert. */
  function CheckOne(x: RangeLike): (v: Verdict)
    ensures v == Pass <==> x.Obj? && x.start.Num? && x.end.Num? && x.start.n >= 0 && x.end.n >= 0
    ensures v == Throws <==>
      x.Null? || (x.Obj? && (x.start.Unconvertible? || (x.start.n >= 0 && x.end.Unconvertible?)))
  {
    match x
    case Primitive(_) => Fail
    case Null => Throws
    case Obj(s, e) =>
      if s.Unconvertible? then Throws
      else if s.n < 0 then Fail
      else if e.Unconvertible? then Throws
      else if e.n < 0 then Fail
      else Pass
  }

  /** `xs.every(CheckOne)`: the elements in order, stopping at the first one whose
      verdict is not `Pass`; that verdict is the verdict of the whole list. */
  function Every(xs: seq<RangeLike>): (v: Verdict)
    ensures v == Pass <==> forall i :: 0 <= i < |xs| ==> CheckOne(xs[i]) == Pass
    ensures v != Pass ==>
      exists i :: 0 <= i < |xs| && CheckOne(xs[i]) == v && forall j :: 0 <= j < i ==> CheckOne(xs[j]) == Pass
  {
    if xs == [] then Pass
    else if CheckOne(xs[0]) != Pass then CheckOne(xs[0])
    else
      var v := Every(xs[1..]);
      assert forall i :: 1 <= i < |xs| ==> xs[i] == xs[1..][i - 1];
      v
  }

  /** `convertUintRange` applied to every element of a list that passed `Every`. */
  function ToRanges(xs: seq<RangeLike>): (rs: seq<Range>)
    requires Every(xs) == Pass
    ensures |rs| == |xs|
    ensures forall i :: 0 <= i < |xs| ==> rs[i].start >= 0 && rs[i].end >= 0
    ensures forall i :: 0 <= i < |xs| ==> xs[i] == Obj(Num(rs[i].start), Num(rs[i].end))
  {
    seq(|xs|, i requires 0 <= i < |xs| => Range(xs[i].start.n, xs[i].end.n))
  }

  /** JavaScript truthiness of an optional field: undefined and null are falsy,
      every object is truthy, a primitive carries its own truthiness. */
  function Truthy(m: Option<RangeLike>): (t: bool)
    ensures t ==> m.Some? && !m.value.Null?
    ensures m.Some? && m.value.Obj? ==> t
    ensures m.Some? && m.value.Primitive? ==> (t <==> m.value.truthy)
  {
    m.Some? && (m.value.Obj? || (m.value.Primitive? && m.value.truthy))
  }
}

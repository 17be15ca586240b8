/**
 * The JavaScript values that sit in the numeric properties of a position
 * (`{ x?, y?, z?, b? }`), and the few number operations the calibration and
 * boundary code applies to them.  A finite number is a `real`; infinities and
 * the sign of zero are not represented.
 */
module Coordinates {

  /** A numeric property as read in JavaScript: a finite number, NaN,
      `undefined` (the key is absent) or `null`. */
  datatype Value = Num(r: real) | NaN | Undefined | Null

  /** A point with the four axes the controller reports; an absent key reads as `Undefined`. */
  datatype Position = Position(x: Value, y: Value, z: Value, b: Value)

  /** The empty object `{}`. */
  const EmptyPosition := Position(Undefined, Undefined, Undefined, Undefined)

  /** `isUndefined(v) || Number.isNaN(v) || isNull(v)`: the value was never measured. */
  predicate IsNoSet(v: Value) {
    v.NaN? || v.Undefined? || v.Null?
  }

  /** The horizontal coordinate that is active on the machine: the rotary
      angle `b` on a rotary setup, the linear `x` otherwise. */
  function HorizontalOf(p: Position, isRotate: bool): Value {
    if isRotate then p.b else p.x
  }

  /** Numeric conversion done by arithmetic and by `Math.min`, `Math.max`,
      `Math.round`: `undefined` becomes NaN and `null` becomes 0. */
  function ToNumber(v: Value): Value {
    match v
    case Undefined => NaN
    case Null => Num(0.0)
    case _ => v
  }

  function Add(a: Value, b: Value): Value {
    match (ToNumber(a), ToNumber(b))
    case (Num(x), Num(y)) => Num(x + y)
    case _ => NaN
  }

  function Sub(a: Value, b: Value): Value {
    match (ToNumber(a), ToNumber(b))
    case (Num(x), Num(y)) => Num(x - y)
    case _ => NaN
  }

  function Mul(a: Value, b: Value): Value {
    match (ToNumber(a), ToNumber(b))
    case (Num(x), Num(y)) => Num(x * y)
    case _ => NaN
  }

  /** Division by a non-zero literal (every division in the modelled code is by 2 or 1000). */
  function DivBy(a: Value, d: real): Value
    requires d != 0.0
  {
    match ToNumber(a)
    case Num(x) => Num(x / d)
    case _ => NaN
  }

  function MinReal(x: real, y: real): real { if x <= y then x else y }

  function MaxReal(x: real, y: real): real { if x <= y then y else x }

  /** `Math.min(a, b)`: NaN as soon as either argument converts to NaN. */
  function Min(a: Value, b: Value): Value {
    match (ToNumber(a), ToNumber(b))
    case (Num(x), Num(y)) => Num(MinReal(x, y))
    case _ => NaN
  }

  /** `Math.max(a, b)`. */
  function Max(a: Value, b: Value): Value {
    match (ToNumber(a), ToNumber(b))
    case (Num(x), Num(y)) => Num(MaxReal(x, y))
    case _ => NaN
  }

  /** `Math.round(a)`: the nearest integer, halves rounded up, i.e. floor(x + 0.5). */
  function Round(a: Value): Value {
    match ToNumber(a)
    case Num(x) => Num((x + 0.5).Floor as real)
    case _ => NaN
  }

  /** `!v` for a numeric property: `undefined`, `null`, NaN and 0 are falsy. */
  predicate IsFalsy(v: Value) {
    !(v.Num? && v.r != 0.0)
  }

  /** `v || 0`. */
  function OrZero(v: Value): Value {
    if IsFalsy(v) then Num(0.0) else v
  }

  /** `${v}` in a template literal; `numStr` is JavaScript's number-to-text conversion. */
  function Text(v: Value, numStr: real -> string): string {
    match v
    case Num(x) => numStr(x)
    case NaN => "NaN"
    case Undefined => "undefined"
    case Null => "null"
  }

  /** Min and max of two numbers do not depend on the order of the arguments. */
  lemma MinMaxSymmetric(a: Value, b: Value)
    ensures Min(a, b) == Min(b, a) && Max(a, b) == Max(b, a)
  {
  }
}

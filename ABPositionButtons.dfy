/**
 * The A/B-position button group: capturing the current machine point into the
 * provisional A or B slot, clearing both points, and when the buttons are
 * disabled.  A captured coordinate is the work coordinate less the origin
 * offset, rounded to the nearest thousandth.
 */
module ABPositionButtons {
  import opened Coordinates
  import opened LaserCalibration

  /** `workPosition` as the controller reports it: one text per axis. */
  datatype WorkPosition = WorkPosition(x: string, y: string, z: string, b: string)

  /** The fixed offsets the handlers add after rounding (all zero). */
  const ExtraOffset := Num(0.0)

  /** `Math.round((parseFloat(work) - offset) * 1000) / 1000 + 0` for one axis;
      `work` is the parsed work coordinate. */
  function CaptureAxis(work: Value, offset: Value): Value {
    Add(DivBy(Round(Mul(Sub(work, offset), Num(1000.0))), 1000.0), ExtraOffset)
  }

  /** The point a click captures; `parseFloat` is the given `parse`. */
  function CapturePoint(work: WorkPosition, offset: Position, parse: string -> Value): Position {
    Position(CaptureAxis(parse(work.x), offset.x),
             CaptureAxis(parse(work.y), offset.y),
             CaptureAxis(parse(work.z), offset.z),
             CaptureAxis(parse(work.b), offset.b))
  }

  /** storeAPosition: the thunk it dispatches. */
  function StoreAPosition(work: WorkPosition, offset: Position, parse: string -> Value): (t: LaserThunk)
    ensures t.UpdateTmpAPosition?
    ensures t.position.x == CaptureAxis(parse(work.x), offset.x)
    ensures t.position.y == CaptureAxis(parse(work.y), offset.y)
    ensures t.position.z == CaptureAxis(parse(work.z), offset.z)
    ensures t.position.b == CaptureAxis(parse(work.b), offset.b)
  {
    UpdateTmpAPosition(CapturePoint(work, offset, parse))
  }

  /** storeBPosition: the thunk it dispatches. */
  function StoreBPosition(work: WorkPosition, offset: Position, parse: string -> Value): (t: LaserThunk)
    ensures t.UpdateTmpBPosition?
    ensures t.position.x == CaptureAxis(parse(work.x), offset.x)
    ensures t.position.y == CaptureAxis(parse(work.y), offset.y)
    ensures t.position.z == CaptureAxis(parse(work.z), offset.z)
    ensures t.position.b == CaptureAxis(parse(work.b), offset.b)
  {
    UpdateTmpBPosition(CapturePoint(work, offset, parse))
  }

  /** The "Clear AB" click handler: the thunk it dispatches. */
  function OnClickClearAB(): (t: LaserThunk)
    ensures t.ClearAB?
  {
    ClearAB
  }

  /** `disabled` of the "Set A position" and "Set B position" buttons. */
  predicate SetPositionDisabled(canClick: bool, canABPosition: bool) {
    !canClick || !canABPosition
  }

  /** `disabled` of the "Clear AB" button. */
  predicate ClearABDisabled(canClick: bool) {
    !canClick
  }

  // ---------------------------------------------------------------------------
  // Rounding

  /** `Math.round(x * 1000) / 1000` on a number. */
  function RoundToThousandth(x: real): real {
    ((x * 1000.0 + 0.5).Floor as real) / 1000.0
  }

  lemma DivideNumber(x: real, d: real)
    requires d != 0.0
    ensures DivBy(Num(x), d) == Num(x / d)
  {
  }

  lemma RoundNumber(x: real)
    ensures Round(Num(x)) == Num((x + 0.5).Floor as real)
  {
  }

  /** For numbers, the capture is the rounded difference. */
  lemma CaptureOfNumbers(w: real, o: real)
    ensures CaptureAxis(Num(w), Num(o)) == Num(RoundToThousandth(w - o))
  {
    var t := (w - o) * 1000.0;
    assert Mul(Sub(Num(w), Num(o)), Num(1000.0)) == Num(t);
    RoundNumber(t);
    var k := (t + 0.5).Floor as real;
    DivideNumber(k, 1000.0);
    assert Add(Num(k / 1000.0), ExtraOffset) == Num(k / 1000.0);
  }

  /** A numeric axis is captured as the difference rounded to a thousandth;
      a `null` offset counts as 0. */
  lemma CaptureAxisValue(work: Value, offset: Value)
    requires ToNumber(work).Num? && ToNumber(offset).Num?
    ensures CaptureAxis(work, offset) == Num(RoundToThousandth(ToNumber(work).r - ToNumber(offset).r))
  {
    var w, o := ToNumber(work), ToNumber(offset);
    assert Sub(work, offset) == Sub(w, o);
    CaptureOfNumbers(w.r, o.r);
  }

  /** A work value that is not a number, or a missing offset, gives NaN. */
  lemma CaptureAxisMissing(work: Value, offset: Value)
    requires !ToNumber(work).Num? || !ToNumber(offset).Num?
    ensures CaptureAxis(work, offset) == NaN
  {
    assert Sub(work, offset) == NaN;
  }

  /** Rounding to a thousandth moves a number by at most half a thousandth. */
  lemma RoundingError(x: real)
    ensures -0.0005 <= RoundToThousandth(x) - x <= 0.0005
  {
    var t := x * 1000.0;
    var k := (t + 0.5).Floor as real;
    assert t + 0.5 - 1.0 < k <= t + 0.5;
    assert RoundToThousandth(x) == k / 1000.0;
    assert k / 1000.0 - x == (k - t) / 1000.0;
  }

  /** A number that is already a whole number of thousandths is kept exactly. */
  lemma RoundingExact(n: int)
    ensures RoundToThousandth(n as real / 1000.0) == n as real / 1000.0
  {
    var x := n as real / 1000.0;
    assert x * 1000.0 == n as real;
    assert (n as real + 0.5).Floor == n;
  }

  /** Rounding twice is rounding once. */
  lemma RoundingIdempotent(x: real)
    ensures RoundToThousandth(RoundToThousandth(x)) == RoundToThousandth(x)
  {
    RoundingExact((x * 1000.0 + 0.5).Floor);
  }

  /** Each captured coordinate is within half a thousandth of `work - offset`. */
  lemma CaptureIsClose(work: real, offset: real)
    ensures CaptureAxis(Num(work), Num(offset)).Num?
    ensures -0.0005 <= CaptureAxis(Num(work), Num(offset)).r - (work - offset) <= 0.0005
  {
    CaptureOfNumbers(work, offset);
    RoundingError(work - offset);
  }

  /** Capturing a point that was itself captured, with a zero offset, gives it back. */
  lemma RecaptureKeepsPoint(work: real, offset: real)
    ensures var c := CaptureAxis(Num(work), Num(offset));
      c.Num? && CaptureAxis(c, Num(0.0)) == c
  {
    CaptureOfNumbers(work, offset);
    var c := CaptureAxis(Num(work), Num(offset));
    CaptureOfNumbers(c.r, 0.0);
    assert c.r - 0.0 == c.r;
    RoundingIdempotent(work - offset);
  }

  /** The worked example: 12.34567 with offset 2 is captured as 10.346. */
  lemma CaptureExample()
    ensures CaptureAxis(Num(12.34567), Num(2.0)) == Num(10.346)
  {
    CaptureOfNumbers(12.34567, 2.0);
    assert (10.34567 * 1000.0 + 0.5).Floor == 10346;
  }

  // ---------------------------------------------------------------------------
  // The two set buttons and the clear button

  /** Both set buttons capture the same point; they only address different slots. */
  lemma StoreAAndBAgree(work: WorkPosition, offset: Position, parse: string -> Value)
    ensures StoreAPosition(work, offset, parse).position == StoreBPosition(work, offset, parse).position
  {
  }

  /** Dispatching "Set A" writes the captured point to tmpAPosition and leaves tmpBPosition alone. */
  lemma StoreAWritesSlotA(s: LaserState, work: WorkPosition, offset: Position, parse: string -> Value)
    ensures var t := Step(s, StoreAPosition(work, offset, parse));
      t.tmpAPosition == CapturePoint(work, offset, parse) && t.tmpBPosition == s.tmpBPosition
  {
    TmpUpdateKeepsOtherSlots(s, A, CapturePoint(work, offset, parse));
  }

  /** Dispatching "Set B" writes the captured point to tmpBPosition and leaves tmpAPosition alone. */
  lemma StoreBWritesSlotB(s: LaserState, work: WorkPosition, offset: Position, parse: string -> Value)
    ensures var t := Step(s, StoreBPosition(work, offset, parse));
      t.tmpBPosition == CapturePoint(work, offset, parse) && t.tmpAPosition == s.tmpAPosition
  {
    TmpUpdateKeepsOtherSlots(s, B, CapturePoint(work, offset, parse));
  }

  /** "Clear AB" leaves all four slots empty and A/B positioning off. */
  lemma ClearClickEmptiesSlots(s: LaserState)
    ensures var t := Step(s, OnClickClearAB());
      && t.aPosition == EmptyPosition && t.bPosition == EmptyPosition
      && t.tmpAPosition == EmptyPosition && t.tmpBPosition == EmptyPosition
      && !t.useABPosition && t.overlay.None?
  {
    ClearEmptiesEverything(s);
  }

  /** The set buttons are enabled exactly when clicking is allowed and A/B
      positioning is possible; "Clear AB" needs only the first, so it is
      enabled whenever the set buttons are. */
  lemma ButtonEnablement(canClick: bool, canABPosition: bool)
    ensures !SetPositionDisabled(canClick, canABPosition) <==> canClick && canABPosition
    ensures !ClearABDisabled(canClick) <==> canClick
    ensures !SetPositionDisabled(canClick, canABPosition) ==> !ClearABDisabled(canClick)
  {
  }
}

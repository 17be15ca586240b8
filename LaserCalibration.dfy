/**
 * The A/B-position calibration slice of the laser store: the committed points
 * A and B, the provisional points captured while jogging, the
 * `useABPosition` flag, and the overlay that previews the measured region.
 *
 * The overlay is described as a value (its size, the mask rectangle, whether
 * the mask is outlined, and the two crosshair markers) instead of the SVG
 * element tree the renderer builds from it.
 */
module LaserCalibration {
  import opened Wrappers
  import opened Coordinates

  /** `{ minX, minY, width, height }` as returned by calculateBoundingBox. */
  datatype BoundingBox = BoundingBox(minX: Value, minY: Value, width: Value, height: Value)

  /** A rectangle in overlay space (origin top-left). */
  datatype Rect = Rect(x: Value, y: Value, width: Value, height: Value)

  /** A crosshair marker in overlay space. */
  datatype Marker = Marker(x: Value, y: Value)

  /** The preview overlay: its size, the measured region left undimmed by the
      mask, whether that region is outlined, and the markers of points A and B. */
  datatype Overlay = Overlay(
    width: real,
    height: real,
    mask: Option<Rect>,
    highlighted: bool,
    markerA: Option<Marker>,
    markerB: Option<Marker>)

  /** `state.laser.materials`: the stock size and whether it is mounted on the rotary axis. */
  datatype Materials = Materials(isRotate: bool, x: real, y: real)

  /** `state.machine.size`. */
  datatype MachineSize = MachineSize(x: real, y: real)

  /** Which of the two reference points an action addresses. */
  datatype PointSlot = A | B

  /** The part of the store that the calibration actions read and write. */
  datatype LaserState = LaserState(
    aPosition: Position,
    bPosition: Position,
    tmpAPosition: Position,
    tmpBPosition: Position,
    useABPosition: bool,
    useBackground: bool,
    backgroundEnabled: bool,
    overlay: Option<Overlay>,
    materials: Materials,
    machineSize: MachineSize)

  /** The thunks the A/B buttons dispatch. */
  datatype LaserThunk =
    | UpdateTmpAPosition(position: Position)
    | UpdateTmpBPosition(position: Position)
    | ClearAB

  predicate NumericXY(p: Position) {
    p.x.Num? && p.y.Num?
  }

  function Abs(r: real): real { if r < 0.0 then -r else r }

  /** calculateBoundingBox: the axis-aligned rectangle spanned by two points. */
  function CalculateBoundingBox(p1: Position, p2: Position): (box: BoundingBox)
    ensures ToNumber(p1.x).Num? && ToNumber(p2.x).Num? ==>
      var x1, x2 := ToNumber(p1.x).r, ToNumber(p2.x).r;
      && box.minX == Num(MinReal(x1, x2))
      && box.width == Num(Abs(x1 - x2))
      && box.minX.r + box.width.r == MaxReal(x1, x2)
    ensures ToNumber(p1.y).Num? && ToNumber(p2.y).Num? ==>
      var y1, y2 := ToNumber(p1.y).r, ToNumber(p2.y).r;
      && box.minY == Num(MinReal(y1, y2))
      && box.height == Num(Abs(y1 - y2))
      && box.minY.r + box.height.r == MaxReal(y1, y2)
    ensures !ToNumber(p1.x).Num? || !ToNumber(p2.x).Num? ==> box.minX == NaN && box.width == NaN
    ensures !ToNumber(p1.y).Num? || !ToNumber(p2.y).Num? ==> box.minY == NaN && box.height == NaN
  {
    var minX := Min(p1.x, p2.x);
    var minY := Min(p1.y, p2.y);
    var maxX := Max(p1.x, p2.x);
    var maxY := Max(p1.y, p2.y);
    BoundingBox(minX, minY, Sub(maxX, minX), Sub(maxY, minY))
  }

  /** The bounding box is the same whichever point comes first. */
  lemma BoundingBoxSymmetric(p1: Position, p2: Position)
    ensures CalculateBoundingBox(p1, p2) == CalculateBoundingBox(p2, p1)
  {
    MinMaxSymmetric(p1.x, p2.x);
    MinMaxSymmetric(p1.y, p2.y);
  }

  /** `Math.min`/`Math.max` read a `null` coordinate as 0, so it spans the box from 0. */
  lemma BoundingBoxNullIsZero(p1: Position, p2: Position, x: real)
    requires p1.x.Null? && p2.x == Num(x) && x >= 0.0
    ensures CalculateBoundingBox(p1, p2).minX == Num(0.0)
    ensures CalculateBoundingBox(p1, p2).width == Num(x)
  {
    var box := CalculateBoundingBox(p1, p2);
    assert ToNumber(p1.x) == Num(0.0) && ToNumber(p2.x) == Num(x);
    assert MinReal(0.0, x) == 0.0 && Abs(0.0 - x) == x;
    assert box.minX == Num(0.0) && box.width == Num(x);
  }

  /** The mask rectangle handed to updateABPositionMask: the box with its y
      range flipped against `height`, since overlay y grows downwards. */
  function FlippedMask(box: BoundingBox, height: real): Rect {
    Rect(box.minX, Sub(Num(height), Add(box.minY, box.height)), box.width, box.height)
  }

  /** The marker drawn for a point: `(p.x, height - p.y)`. */
  function FlippedMarker(p: Position, height: real): Marker {
    Marker(p.x, Sub(Num(height), p.y))
  }

  /** The check of updateABpositionBackground: y, and the active horizontal axis, must be measured. */
  predicate NotSet(p: Position, isRotate: bool) {
    IsNoSet(p.y) || (!isRotate && IsNoSet(p.x)) || (isRotate && IsNoSet(p.b))
  }

  /** A point is unset exactly when y or its active horizontal coordinate is unset. */
  lemma NotSetUsesActiveAxis(p: Position, isRotate: bool)
    ensures NotSet(p, isRotate) <==> IsNoSet(p.y) || IsNoSet(HorizontalOf(p, isRotate))
  {
  }

  function EmptyOverlay(width: real, height: real): Overlay {
    Overlay(width, height, None, false, None, None)
  }

  function WithMarker(o: Overlay, slot: PointSlot, m: Marker): Overlay {
    match slot
    case A => o.(markerA := Some(m))
    case B => o.(markerB := Some(m))
  }

  function OtherSlot(slot: PointSlot): PointSlot {
    match slot
    case A => B
    case B => A
  }

  /** The overlay drawn by updateABpositionBackground for two complete points:
      stock-sized, outlined mask over their bounding box, one marker per point. */
  function ABOverlay(a: Position, b: Position, materials: Materials): Overlay {
    Overlay(
      materials.x, materials.y,
      Some(FlippedMask(CalculateBoundingBox(a, b), materials.y)),
      true,
      Some(FlippedMarker(a, materials.y)),
      Some(FlippedMarker(b, materials.y)))
  }

  function InitialState(materials: Materials, machineSize: MachineSize): LaserState {
    LaserState(EmptyPosition, EmptyPosition, EmptyPosition, EmptyPosition,
               false, false, false, None, materials, machineSize)
  }

  /** updateAPosition / updateBPosition: the committed slot takes the position. */
  function WithPosition(s: LaserState, slot: PointSlot, p: Position): LaserState {
    match slot
    case A => s.(aPosition := p)
    case B => s.(bPosition := p)
  }

  function TmpPosition(s: LaserState, slot: PointSlot): Position {
    match slot
    case A => s.tmpAPosition
    case B => s.tmpBPosition
  }

  /** removeBackgroundImage: the overlay is torn down and both background flags drop. */
  function WithoutBackground(s: LaserState): LaserState {
    s.(overlay := None, backgroundEnabled := false, useBackground := false)
  }

  /** updateABpositionBackground: no overlay unless both points are set. */
  function WithABBackground(s: LaserState, a: Position, b: Position): LaserState {
    if NotSet(a, s.materials.isRotate) || NotSet(b, s.materials.isRotate) then WithoutBackground(s)
    else s.(overlay := Some(ABOverlay(a, b, s.materials)))
  }

  /** The overlay after _updateTmpPosition stored `p` in `slot` while the other
      provisional slot held `other`: a machine-sized overlay is created if there
      is none, the slot's marker moves to `p`, and when `other` has both x and y
      the other marker and an un-outlined mask over both points are drawn. */
  function TmpOverlay(current: Option<Overlay>, slot: PointSlot, p: Position, other: Position, size: MachineSize): Overlay {
    var base := if current.Some? then current.value else EmptyOverlay(size.x, size.y);
    var withOwn := WithMarker(base, slot, FlippedMarker(p, size.y));
    if other.y.Undefined? || other.x.Undefined? then withOwn
    else
      WithMarker(withOwn, OtherSlot(slot), FlippedMarker(other, size.y))
        .(mask := Some(FlippedMask(CalculateBoundingBox(other, p), size.y)), highlighted := false)
  }

  /** _updateTmpPosition (updateTmpAPosition / updateTmpBPosition). */
  function WithTmpPosition(s: LaserState, slot: PointSlot, p: Position): LaserState {
    var o := TmpOverlay(s.overlay, slot, p, TmpPosition(s, OtherSlot(slot)), s.machineSize);
    match slot
    case A => s.(tmpAPosition := p, overlay := Some(o))
    case B => s.(tmpBPosition := p, overlay := Some(o))
  }

  /** clearAB: every point slot empty, A/B positioning off, background removed. */
  function Cleared(s: LaserState): LaserState {
    s.(aPosition := EmptyPosition, bPosition := EmptyPosition,
       tmpAPosition := EmptyPosition, tmpBPosition := EmptyPosition,
       useABPosition := false,
       overlay := None, backgroundEnabled := false, useBackground := false)
  }

  function Step(s: LaserState, t: LaserThunk): LaserState {
    match t
    case UpdateTmpAPosition(p) => WithTmpPosition(s, A, p)
    case UpdateTmpBPosition(p) => WithTmpPosition(s, B, p)
    case ClearAB => Cleared(s)
  }

  /** The store slice, updated in place by the actions of laser/index.ts. */
  class LaserStore {
    var aPosition: Position
    var bPosition: Position
    var tmpAPosition: Position
    var tmpBPosition: Position
    var useABPosition: bool
    var useBackground: bool
    var backgroundEnabled: bool
    var overlay: Option<Overlay>
    var materials: Materials
    var machineSize: MachineSize

    function View(): LaserState
      reads this
    {
      LaserState(aPosition, bPosition, tmpAPosition, tmpBPosition,
                 useABPosition, useBackground, backgroundEnabled, overlay, materials, machineSize)
    }

    /** The A/B part of INITIAL_STATE, with the stock and machine size given. */
    constructor (materials: Materials, machineSize: MachineSize)
      ensures View() == InitialState(materials, machineSize)
    {
      aPosition, bPosition := EmptyPosition, EmptyPosition;
      tmpAPosition, tmpBPosition := EmptyPosition, EmptyPosition;
      useABPosition, useBackground, backgroundEnabled := false, false, false;
      overlay := None;
      this.materials, this.machineSize := materials, machineSize;
    }

    /** _updatePosition: an ACTION_UPDATE_STATE that sets one committed slot. */
    method UpdatePosition(slot: PointSlot, p: Position)
      modifies this
      ensures View() == WithPosition(old(View()), slot, p)
    {
      if slot == A {
        aPosition := p;
      } else {
        bPosition := p;
      }
    }

    /** removeBackgroundImage. */
    method RemoveBackgroundImage()
      modifies this
      ensures View() == WithoutBackground(old(View()))
    {
      overlay := None;                 // clearBackgroundImage tears the overlay down
      backgroundEnabled := false;      // setBackgroundEnabled(false)
      useBackground := false;          // updateState({ useBackground: false })
    }

    /** updateABpositionBackground: redraws the preview from two points, which it does not store. */
    method UpdateABPositionBackground(a: Position, b: Position)
      modifies this
      ensures View() == WithABBackground(old(View()), a, b)
      ensures NotSet(a, materials.isRotate) || NotSet(b, materials.isRotate) ==> overlay == None
      ensures !NotSet(a, materials.isRotate) && !NotSet(b, materials.isRotate) ==>
        overlay == Some(ABOverlay(a, b, materials))
    {
      var notSetA := NotSet(a, materials.isRotate);
      var notSetB := NotSet(b, materials.isRotate);
      if notSetA || notSetB {
        RemoveBackgroundImage();
        return;
      }
      var width, height := materials.x, materials.y;
      var box := CalculateBoundingBox(a, b);
      var o := EmptyOverlay(width, height);
      o := o.(mask := Some(FlippedMask(box, height)), highlighted := true);
      o := WithMarker(o, A, FlippedMarker(a, height));
      o := WithMarker(o, B, FlippedMarker(b, height));
      overlay := Some(o);
    }

    /** _updateTmpPosition: stores a provisional point and refreshes the live preview. */
    method UpdateTmpPosition(p: Position, slot: PointSlot)
      modifies this
      ensures View() == WithTmpPosition(old(View()), slot, p)
    {
      var other := if slot == A then tmpBPosition else tmpAPosition;
      if overlay.None? {
        overlay := Some(EmptyOverlay(machineSize.x, machineSize.y));
      }
      overlay := Some(WithMarker(overlay.value, slot, FlippedMarker(p, machineSize.y)));
      var notSetAnotherPoint := other.y.Undefined? || other.x.Undefined?;
      if !notSetAnotherPoint {
        overlay := Some(WithMarker(overlay.value, OtherSlot(slot), FlippedMarker(other, machineSize.y)));
        var box := CalculateBoundingBox(other, p);
        overlay := Some(overlay.value.(mask := Some(FlippedMask(box, machineSize.y)), highlighted := false));
      }
      if slot == A {
        tmpAPosition := p;
      } else {
        tmpBPosition := p;
      }
    }

    /** clearAB: the six dispatches in source order. */
    method ClearAB()
      modifies this
      ensures View() == Cleared(old(View()))
    {
      UpdatePosition(A, EmptyPosition);
      UpdatePosition(B, EmptyPosition);
      UpdateTmpPosition(EmptyPosition, A);
      UpdateTmpPosition(EmptyPosition, B);
      useABPosition := false;
      RemoveBackgroundImage();
    }

    /** dispatch of one of the thunks the A/B buttons create. */
    method Dispatch(t: LaserThunk)
      modifies this
      ensures View() == Step(old(View()), t)
    {
      match t
      case UpdateTmpAPosition(p) => UpdateTmpPosition(p, A);
      case UpdateTmpBPosition(p) => UpdateTmpPosition(p, B);
      case ClearAB => ClearAB();
    }
  }

  // ---------------------------------------------------------------------------
  // Properties of the transitions

  /** The overlay of updateABpositionBackground exists exactly when both points are set. */
  lemma ABBackgroundNeedsBothPoints(s: LaserState, a: Position, b: Position)
    ensures WithABBackground(s, a, b).overlay.Some? <==>
      !NotSet(a, s.materials.isRotate) && !NotSet(b, s.materials.isRotate)
    ensures WithABBackground(s, a, b).overlay.None? ==>
      !WithABBackground(s, a, b).backgroundEnabled && !WithABBackground(s, a, b).useBackground
  {
  }

  /** updateABpositionBackground changes nothing but the overlay and the background flags. */
  lemma ABBackgroundKeepsPoints(s: LaserState, a: Position, b: Position)
    ensures var t := WithABBackground(s, a, b);
      && t.aPosition == s.aPosition && t.bPosition == s.bPosition
      && t.tmpAPosition == s.tmpAPosition && t.tmpBPosition == s.tmpBPosition
      && t.useABPosition == s.useABPosition && t.materials == s.materials && t.machineSize == s.machineSize
  {
  }

  /** Swapping A and B leaves the measured region unchanged. */
  lemma ABMaskSymmetric(a: Position, b: Position, materials: Materials)
    ensures ABOverlay(a, b, materials).mask == ABOverlay(b, a, materials).mask
  {
    BoundingBoxSymmetric(a, b);
  }

  /** For numeric points the mask is exactly the rectangle spanned by the two
      markers in overlay space: the y-flip maps the box onto the flipped points. */
  lemma ABMaskSpansMarkers(a: Position, b: Position, materials: Materials)
    requires NumericXY(a) && NumericXY(b)
    ensures var o := ABOverlay(a, b, materials);
      var m, ma, mb := o.mask.value, o.markerA.value, o.markerB.value;
      && m.x.Num? && m.y.Num? && m.width.Num? && m.height.Num? && ma.y.Num? && mb.y.Num?
      && m.x.r == MinReal(ma.x.r, mb.x.r) && m.x.r + m.width.r == MaxReal(ma.x.r, mb.x.r)
      && m.y.r == MinReal(ma.y.r, mb.y.r) && m.y.r + m.height.r == MaxReal(ma.y.r, mb.y.r)
  {
  }

  /** The worked example: stock 100 x 60, A = (10, 5), B = (40, 25). */
  lemma ABExample()
    ensures var a := Position(Num(10.0), Num(5.0), Undefined, Undefined);
      var b := Position(Num(40.0), Num(25.0), Undefined, Undefined);
      && CalculateBoundingBox(a, b) == BoundingBox(Num(10.0), Num(5.0), Num(30.0), Num(20.0))
      && ABOverlay(a, b, Materials(false, 100.0, 60.0)).mask == Some(Rect(Num(10.0), Num(35.0), Num(30.0), Num(20.0)))
  {
  }

  /** _updateTmpPosition writes only its own slot and the overlay. */
  lemma TmpUpdateKeepsOtherSlots(s: LaserState, slot: PointSlot, p: Position)
    ensures var t := WithTmpPosition(s, slot, p);
      && TmpPosition(t, slot) == p
      && TmpPosition(t, OtherSlot(slot)) == TmpPosition(s, OtherSlot(slot))
      && t.aPosition == s.aPosition && t.bPosition == s.bPosition
      && t.useABPosition == s.useABPosition && t.useBackground == s.useBackground
      && t.backgroundEnabled == s.backgroundEnabled
      && t.materials == s.materials && t.machineSize == s.machineSize
      && t.overlay.Some?
  {
  }

  /** The provisional mask is recomputed exactly when the other provisional
      point has x and y; it is then flipped against the machine height and not outlined. */
  lemma TmpMaskRule(s: LaserState, slot: PointSlot, p: Position)
    ensures var other := TmpPosition(s, OtherSlot(slot));
      var o := WithTmpPosition(s, slot, p).overlay.value;
      if other.x.Undefined? || other.y.Undefined? then
        o.mask == (if s.overlay.Some? then s.overlay.value.mask else None)
        && o.highlighted == (s.overlay.Some? && s.overlay.value.highlighted)
      else
        o.mask == Some(FlippedMask(CalculateBoundingBox(other, p), s.machineSize.y)) && !o.highlighted
  {
  }

  /** Capturing A then B draws the same provisional mask as capturing B then A. */
  lemma TmpMaskOrderIndependent(s: LaserState, p: Position, q: Position)
    requires !p.x.Undefined? && !p.y.Undefined? && !q.x.Undefined? && !q.y.Undefined?
    ensures WithTmpPosition(s.(tmpBPosition := q), A, p).overlay.value.mask
         == WithTmpPosition(s.(tmpAPosition := p), B, q).overlay.value.mask
  {
    BoundingBoxSymmetric(p, q);
  }

  /** clearAB empties all four slots, turns A/B positioning off and removes the background. */
  lemma ClearEmptiesEverything(s: LaserState)
    ensures var t := Cleared(s);
      && t.aPosition == EmptyPosition && t.bPosition == EmptyPosition
      && t.tmpAPosition == EmptyPosition && t.tmpBPosition == EmptyPosition
      && !t.useABPosition && t.overlay.None? && !t.backgroundEnabled && !t.useBackground
      && t.materials == s.materials && t.machineSize == s.machineSize
  {
  }

  /** Clearing twice is clearing once. */
  lemma ClearIdempotent(s: LaserState)
    ensures Cleared(Cleared(s)) == Cleared(s)
  {
  }

  /** A clear forgets every earlier provisional capture. */
  lemma ClearForgetsCaptures(s: LaserState, slot: PointSlot, p: Position)
    ensures Cleared(WithTmpPosition(s, slot, p)) == Cleared(s)
  {
  }
}

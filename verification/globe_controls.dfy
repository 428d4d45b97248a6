/**
 * The drag and zoom handlers of `src/components/globe/GlobeControls.ts`. Both
 * read the shared projection and overwrite its rotation or scale in place.
 */
module GlobeControls {
  import opened Projection

  const DefaultSensitivity: real := 75.0
  const DefaultMinScale: real := 350.0
  const DefaultMaxScale: real := 1000.0

  /** `scaleExtent([1, 2.5])`: d3 keeps the zoom factor `k` within these bounds. */
  const MinZoomFactor: real := 1.0
  const MaxZoomFactor: real := 2.5

  /**
   * One drag step: with `k = sensitivity / scale`, longitude moves by `dx·k`,
   * latitude by `-dy·k`, and the roll stays.
   */
  function DraggedRotation(r: Rotation, scale: real, dx: real, dy: real, sensitivity: real): (d: Rotation)
    requires scale != 0.0
    ensures d.gamma == r.gamma
    ensures (d.lambda - r.lambda) * scale == dx * sensitivity
    ensures (r.phi - d.phi) * scale == dy * sensitivity
  {
    var k := sensitivity / scale;
    Rotation(r.lambda + dx * k, r.phi - dy * k, r.gamma)
  }

  /** Dragging back by the opposite deltas at the same scale restores the rotation. */
  lemma DragUndo(r: Rotation, scale: real, dx: real, dy: real, sensitivity: real)
    requires scale != 0.0
    ensures DraggedRotation(DraggedRotation(r, scale, dx, dy, sensitivity), scale, -dx, -dy, sensitivity) == r
  {
  }

  /** Two drag steps at one scale are one drag by the summed deltas. */
  lemma DragAdditive(r: Rotation, scale: real, dx1: real, dy1: real, dx2: real, dy2: real, sensitivity: real)
    requires scale != 0.0
    ensures DraggedRotation(DraggedRotation(r, scale, dx1, dy1, sensitivity), scale, dx2, dy2, sensitivity)
         == DraggedRotation(r, scale, dx1 + dx2, dy1 + dy2, sensitivity)
  {
    var k := sensitivity / scale;
    assert (r.lambda + dx1 * k) + dx2 * k == r.lambda + (dx1 + dx2) * k;
    assert (r.phi - dy1 * k) - dy2 * k == r.phi - (dy1 + dy2) * k;
  }

  /**
   * A larger scale turns the same mouse movement into a smaller angle: at
   * positive scales `s <= t`, the angle moved at `t` is at most the one at `s`.
   */
  lemma DragSlowsWhenZoomedIn(r: Rotation, s: real, t: real, dx: real, sensitivity: real)
    requires 0.0 < s <= t && dx >= 0.0 && sensitivity >= 0.0
    ensures DraggedRotation(r, t, dx, 0.0, sensitivity).lambda - r.lambda
         <= DraggedRotation(r, s, dx, 0.0, sensitivity).lambda - r.lambda
  {
    var a := DraggedRotation(r, t, dx, 0.0, sensitivity).lambda - r.lambda;
    var b := DraggedRotation(r, s, dx, 0.0, sensitivity).lambda - r.lambda;
    assert a * t == b * s;
    assert a >= 0.0 by { assert a * t >= 0.0; }
  }

  /**
   * The zoom handler: `minScale · k` becomes the scale only when it lies in
   * `[minScale, maxScale]`; otherwise the scale is left as it was (rejected, not
   * clamped).
   */
  function ZoomedScale(scale: real, k: real, minScale: real, maxScale: real): (s: real)
    ensures minScale <= minScale * k <= maxScale ==> s == minScale * k
    ensures !(minScale <= minScale * k <= maxScale) ==> s == scale
  {
    var newScale := minScale * k;
    if newScale >= minScale && newScale <= maxScale then newScale else scale
  }

  /** A scale within the bounds stays within them after a zoom event. */
  lemma ZoomKeepsBounds(scale: real, k: real, minScale: real, maxScale: real)
    requires minScale <= scale <= maxScale
    ensures minScale <= ZoomedScale(scale, k, minScale, maxScale) <= maxScale
  {
  }

  /** Zooming is absolute, not relative: the same event twice gives the same scale as once. */
  lemma ZoomIdempotent(scale: real, k: real, minScale: real, maxScale: real)
    ensures ZoomedScale(ZoomedScale(scale, k, minScale, maxScale), k, minScale, maxScale)
         == ZoomedScale(scale, k, minScale, maxScale)
  {
  }

  /**
   * Any zoom factor d3 lets through is accepted when `maxScale` is at least
   * 2.5 times a positive `minScale`: the scale becomes `minScale · k`.
   */
  lemma ZoomAlwaysAccepted(scale: real, k: real, minScale: real, maxScale: real)
    requires 0.0 <= minScale && minScale * MaxZoomFactor <= maxScale
    requires MinZoomFactor <= k <= MaxZoomFactor
    ensures ZoomedScale(scale, k, minScale, maxScale) == minScale * k
  {
    assert minScale * k <= minScale * MaxZoomFactor;
  }

  /** With the default bounds 350 and 1000 no zoom event is ever rejected. */
  lemma DefaultZoomAlwaysAccepted(scale: real, k: real)
    requires MinZoomFactor <= k <= MaxZoomFactor
    ensures ZoomedScale(scale, k, DefaultMinScale, DefaultMaxScale) == DefaultMinScale * k
  {
    ZoomAlwaysAccepted(scale, k, DefaultMinScale, DefaultMaxScale);
  }

  /** What the handlers react to; `DragStart` / `DragEnd` only call back. */
  datatype ControlEvent = DragStart | Drag(dx: real, dy: real) | DragEnd | Zoom(k: real)

  /** The projection state after one event at the given sensitivity and zoom bounds. */
  function ApplyControl(s: ProjectionState, e: ControlEvent, sensitivity: real, minScale: real, maxScale: real): (t: ProjectionState)
    requires s.scale != 0.0
    ensures t.translate == s.translate
    ensures !e.Zoom? ==> t.scale == s.scale
    ensures !e.Drag? ==> t.rotation == s.rotation
  {
    match e
    case DragStart => s
    case DragEnd => s
    case Drag(dx, dy) => s.(rotation := DraggedRotation(s.rotation, s.scale, dx, dy, sensitivity))
    case Zoom(k) => s.(scale := ZoomedScale(s.scale, k, minScale, maxScale))
  }

  /**
   * A scale that starts within positive bounds stays within them over any
   * sequence of drag and zoom events.
   */
  function ApplyControls(s: ProjectionState, events: seq<ControlEvent>, sensitivity: real, minScale: real, maxScale: real): (t: ProjectionState)
    requires 0.0 < minScale <= s.scale <= maxScale
    ensures minScale <= t.scale <= maxScale
    ensures t.translate == s.translate
    decreases |events|
  {
    if |events| == 0 then s
    else
      var next := ApplyControl(s, events[0], sensitivity, minScale, maxScale);
      assert minScale <= next.scale <= maxScale by {
        ZoomKeepsBounds(s.scale, if events[0].Zoom? then events[0].k else 1.0, minScale, maxScale);
      }
      ApplyControls(next, events[1..], sensitivity, minScale, maxScale)
  }

  /** The `drag` handler: overwrite the projection's rotation by one drag step. */
  method OnDrag(projection: GeoProjection, dx: real, dy: real, sensitivity: real)
    requires projection.scale != 0.0
    modifies projection
    ensures projection.rotation == DraggedRotation(old(projection.rotation), old(projection.scale), dx, dy, sensitivity)
    ensures projection.scale == old(projection.scale) && projection.translate == old(projection.translate)
  {
    var r := projection.rotation;
    var k := sensitivity / projection.scale;
    projection.rotation := Rotation(r.lambda + dx * k, r.phi - dy * k, r.gamma);
  }

  /** The `zoom` handler: set the scale to `minScale · k` when that is within the bounds. */
  method OnZoom(projection: GeoProjection, k: real, minScale: real, maxScale: real)
    modifies projection
    ensures projection.rotation == old(projection.rotation) && projection.translate == old(projection.translate)
    ensures projection.scale == ZoomedScale(old(projection.scale), k, minScale, maxScale)
  {
    var newScale := minScale * k;
    if newScale >= minScale && newScale <= maxScale {
      projection.scale := newScale;
    }
  }
}

/**
 * The globe renderer of `src/components/globe/GlobeRenderer.ts`: marker
 * visibility, the autorotation loop held in the closure variables
 * `isRotating` / `rotationTimer`, and the handle it returns
 * (`updateNodeVisibility`, `setDragging`, `stopRotation`). Each animation frame
 * is an explicit call of `Rotate`; `requestAnimationFrame` hands out handles
 * from a counter.
 */
module GlobeRenderer {
  import opened Wrappers
  import opened Types
  import opened Projection

  /** Degrees of longitude added per animation frame. */
  const RotationStep: real := 0.0375

  const VisibleOpacity: real := 0.7
  const HiddenOpacity: real := 0.0

  /** `Math.PI / 2` as the double JavaScript computes. */
  const HalfPi: real := 1.5707963267948966

  /** Rounding toward zero, the integer part JavaScript's `%` keeps. */
  function Trunc(y: real): (t: int)
    ensures y >= 0.0 ==> 0 <= t && t as real <= y < t as real + 1.0
    ensures y < 0.0 ==> t <= 0 && t as real - 1.0 < y <= t as real
  {
    if y >= 0.0 then y.Floor else -((-y).Floor)
  }

  /** `a` and `b` differ by a whole number of turns. */
  predicate SameAngle(a: real, b: real)
  {
    ((a - b) / 360.0).Floor as real == (a - b) / 360.0
  }

  /**
   * JavaScript's `x % 360`: the remainder keeps the sign of `x`, unlike
   * Dafny's Euclidean `%`.
   */
  function JsRem360(x: real): (r: real)
    ensures -360.0 < r < 360.0
    ensures x >= 0.0 ==> r >= 0.0
    ensures x <= 0.0 ==> r <= 0.0
    ensures -360.0 < x < 360.0 ==> r == x
    ensures SameAngle(x, r)
  {
    var t := Trunc(x / 360.0);
    var r := x - 360.0 * t as real;
    assert (x - r) / 360.0 == t as real;
    r
  }

  /** The longitude one `rotate` step produces: `(λ + 0.0375) % 360`. */
  function StepLongitude(lambda: real): (next: real)
    ensures -360.0 < next < 360.0
    ensures SameAngle(lambda + RotationStep, next)
    ensures -360.0 < lambda + RotationStep < 360.0 ==> next == lambda + RotationStep
  {
    JsRem360(lambda + RotationStep)
  }

  /** The longitude after `n` uninterrupted autorotation frames. */
  function AutoRotated(lambda: real, n: nat): real
  {
    if n == 0 then lambda else StepLongitude(AutoRotated(lambda, n - 1))
  }

  lemma FloorShift(t: int, z: real)
    ensures (t as real + z).Floor == t + z.Floor
  {
  }

  /** For a non-negative `y`, taking the remainder first does not change the next step. */
  lemma RemThenStep(y: real)
    requires y > -360.0
    ensures JsRem360(JsRem360(y) + RotationStep) == JsRem360(y + RotationStep)
  {
    if y >= 0.0 {
      var t := (y / 360.0).Floor;
      var r := JsRem360(y);
      assert r == y - 360.0 * t as real;
      var z := (r + RotationStep) / 360.0;
      assert (y + RotationStep) / 360.0 == t as real + z;
      FloorShift(t, z);
    }
  }

  /**
   * Wrap-around is exact for any number of frames: starting within one turn,
   * `n` frames give `(λ + n·0.0375) % 360`.
   */
  lemma {:induction false} AutoRotatedClosedForm(lambda: real, n: nat)
    requires -360.0 < lambda < 360.0
    ensures AutoRotated(lambda, n) == JsRem360(lambda + n as real * RotationStep)
  {
    if n > 0 {
      AutoRotatedClosedForm(lambda, n - 1);
      var y := lambda + (n - 1) as real * RotationStep;
      RemThenStep(y);
      assert y + RotationStep == lambda + n as real * RotationStep;
    }
  }

  /**
   * `isVisible`: the marker has a projected position and lies within a quarter
   * turn (π/2, inclusive) of the point facing the viewer, `(-λ, -φ)`.
   */
  predicate IsVisible(geo: Geometry, s: ProjectionState, d: Node)
  {
    geo.project(s, d.long, d.lat).Some? &&
    geo.distance(-s.rotation.lambda, -s.rotation.phi, d.long, d.lat) <= HalfPi
  }

  /** The marker opacity rule `isVisible(d) ? 0.7 : 0`. */
  function Opacity(geo: Geometry, s: ProjectionState, d: Node): (o: real)
    ensures o == VisibleOpacity <==> IsVisible(geo, s, d)
    ensures o == HiddenOpacity <==> !IsVisible(geo, s, d)
  {
    if IsVisible(geo, s, d) then VisibleOpacity else HiddenOpacity
  }

  /** The opacity of every marker, in node order. */
  function Opacities(geo: Geometry, s: ProjectionState, nodes: seq<Node>): (os: seq<real>)
    ensures |os| == |nodes|
    ensures forall i :: 0 <= i < |nodes| ==> os[i] == Opacity(geo, s, nodes[i])
  {
    seq(|nodes|, i requires 0 <= i < |nodes| => Opacity(geo, s, nodes[i]))
  }

  /** `nodes.indexOf(d)`: the first position holding `d`, or -1. */
  method IndexOf(nodes: seq<Node>, d: Node) returns (index: int)
    ensures -1 <= index < |nodes|
    ensures index == -1 <==> d !in nodes
    ensures index >= 0 ==> nodes[index] == d
    ensures forall j :: 0 <= j < |nodes| && nodes[j] == d ==> index <= j
  {
    var i := 0;
    while i < |nodes|
      invariant 0 <= i <= |nodes|
      invariant forall j :: 0 <= j < i ==> nodes[j] != d
    {
      if nodes[i] == d {
        return i;
      }
      i := i + 1;
    }
    return -1;
  }

  /** One rendered globe: its markers and the autorotation state. */
  class GlobeRenderer {
    const projection: GeoProjection
    const geometry: Geometry
    const nodes: seq<Node>
    var isRotating: bool
    /** The handle of the pending animation frame, if any. */
    var rotationTimer: Option<nat>
    /** The `opacity` style of each marker circle, in node order. */
    var opacities: seq<real>
    /** The last handle `requestAnimationFrame` gave out. */
    var lastFrame: nat

    /** A frame is pending only while the globe is rotating; one opacity per marker. */
    ghost predicate Consistent()
      reads this
    {
      (rotationTimer.Some? ==> isRotating) && |opacities| == |nodes|
    }

    /** Besides, a frame is pending whenever the globe is rotating. */
    ghost predicate Valid()
      reads this
    {
      Consistent() && (isRotating ==> rotationTimer.Some?)
    }

    /**
     * `renderGlobe`: draw one marker per node with the opacity rule, then start
     * rotating (one `rotate` step) only when `shouldRotate` holds.
     */
    constructor (projection: GeoProjection, geometry: Geometry, nodes: seq<Node>, shouldRotate: bool)
      modifies projection
      ensures Valid()
      ensures this.projection == projection && this.geometry == geometry && this.nodes == nodes
      ensures isRotating == shouldRotate
      ensures projection.scale == old(projection.scale) && projection.translate == old(projection.translate)
      ensures shouldRotate ==> projection.rotation == old(projection.rotation).(lambda := StepLongitude(old(projection.rotation.lambda)))
      ensures !shouldRotate ==> projection.rotation == old(projection.rotation) && rotationTimer == None
      ensures opacities == Opacities(geometry, projection.State(), nodes)
    {
      this.projection := projection;
      this.geometry := geometry;
      this.nodes := nodes;
      opacities := Opacities(geometry, projection.State(), nodes);
      rotationTimer := None;
      isRotating := shouldRotate;
      lastFrame := 0;
      new;
      if shouldRotate {
        Rotate();
      }
    }

    /**
     * `rotate`, run when the pending animation frame fires: nothing when not
     * rotating; otherwise advance λ by 0.0375 modulo 360 (truncated), keep φ and
     * γ, refresh every marker's opacity and schedule the next frame.
     */
    method Rotate()
      requires Consistent()
      modifies this, projection
      ensures Valid()
      ensures isRotating == old(isRotating)
      ensures projection.scale == old(projection.scale) && projection.translate == old(projection.translate)
      ensures !isRotating ==>
        projection.rotation == old(projection.rotation) && rotationTimer == None &&
        opacities == old(opacities) && lastFrame == old(lastFrame)
      ensures isRotating ==>
        projection.rotation == old(projection.rotation).(lambda := StepLongitude(old(projection.rotation.lambda))) &&
        opacities == Opacities(geometry, projection.State(), nodes) &&
        lastFrame == old(lastFrame) + 1 && rotationTimer == Some(lastFrame)
    {
      if !isRotating {
        return;
      }
      var r := projection.rotation;
      projection.rotation := Rotation(StepLongitude(r.lambda), r.phi, r.gamma);
      opacities := Opacities(geometry, projection.State(), nodes);
      lastFrame := lastFrame + 1;
      rotationTimer := Some(lastFrame);
    }

    /** `stopRotation`: stop and cancel the pending frame; a second call changes nothing more. */
    method StopRotation()
      requires Valid()
      modifies this
      ensures Valid()
      ensures !isRotating && rotationTimer == None
      ensures opacities == old(opacities) && lastFrame == old(lastFrame)
    {
      isRotating := false;
      if rotationTimer.Some? {
        rotationTimer := None;
      }
    }

    /** `setDragging`: `true` stops rotation as `stopRotation` does; `false` does nothing. */
    method SetDragging(isDragging: bool)
      requires Valid()
      modifies this
      ensures Valid()
      ensures isDragging ==> !isRotating && rotationTimer == None
      ensures !isDragging ==> isRotating == old(isRotating) && rotationTimer == old(rotationTimer)
      ensures opacities == old(opacities) && lastFrame == old(lastFrame)
    {
      if isDragging {
        isRotating := false;
        if rotationTimer.Some? {
          rotationTimer := None;
        }
      }
    }

    /** The click handler on the globe group: stops rotation for good. */
    method OnGroupClick()
      requires Valid()
      modifies this
      ensures Valid()
      ensures !isRotating && rotationTimer == None
      ensures opacities == old(opacities) && lastFrame == old(lastFrame)
    {
      isRotating := false;
      if rotationTimer.Some? {
        rotationTimer := None;
      }
    }

    /** `updateNodeVisibility`: reapply the opacity rule under the current projection. */
    method UpdateNodeVisibility()
      requires Valid()
      modifies this
      ensures Valid()
      ensures opacities == Opacities(geometry, projection.State(), nodes)
      ensures isRotating == old(isRotating) && rotationTimer == old(rotationTimer) && lastFrame == old(lastFrame)
    {
      opacities := Opacities(geometry, projection.State(), nodes);
    }

    /**
     * A click on marker `i`: reports the node and `nodes.indexOf(d)`; the click
     * then bubbles to the group, whose handler stops rotation.
     */
    method OnNodeClick(i: nat) returns (node: Node, index: int)
      requires Valid() && i < |nodes|
      modifies this
      ensures Valid()
      ensures node == nodes[i]
      ensures 0 <= index <= i && nodes[index] == node
      ensures forall j :: 0 <= j < index ==> nodes[j] != node
      ensures !isRotating && rotationTimer == None
      ensures opacities == old(opacities) && lastFrame == old(lastFrame)
    {
      node := nodes[i];
      index := IndexOf(nodes, node);
      OnGroupClick();
    }
  }

  /** When the markers are pairwise distinct, a click reports the clicked position itself. */
  lemma ClickIndexOfDistinct(nodes: seq<Node>, i: nat, index: int)
    requires i < |nodes| && forall j, k :: 0 <= j < k < |nodes| ==> nodes[j] != nodes[k]
    requires 0 <= index <= i && nodes[index] == nodes[i]
    ensures index == i
  {
  }
}

/**
 * The globe scene of `src/components/globe/GlobeScene.tsx`: the size-dependent
 * scale and offset given to the projection, and the wiring of the drag and zoom
 * handlers to the renderer. The scene imports `initializeGlobe` and
 * `renderGlobe` from `./GlobeRenderer`, which resolves to `GlobeRenderer.ts`;
 * that file re-exports the `initializeGlobe` of `GlobeInitializer.ts`.
 */
module GlobeScene {
  import opened Projection
  import opened Types
  import GlobeControls
  import GlobeRenderer

  const MinScale: real := 450.0
  const MaxScale: real := 2000.0
  const Sensitivity: real := 75.0
  const MobileBreakpoint: real := 640.0

  predicate IsMobile(width: real)
  {
    width < MobileBreakpoint
  }

  function Min(a: real, b: real): (m: real)
    ensures m <= a && m <= b && (m == a || m == b)
  {
    if a <= b then a else b
  }

  /** Half the smaller side on a narrow screen, 40% of it otherwise. */
  function InitialScale(width: real, height: real): (s: real)
    ensures IsMobile(width) ==> s + s == Min(width, height)
    ensures !IsMobile(width) ==> 5.0 * s == 2.0 * Min(width, height)
  {
    if IsMobile(width) then Min(width, height) * 0.5 else Min(width, height) * 0.4
  }

  /** Centred horizontally; vertically at 40% of the height on a narrow screen, else centred. */
  function InitialTranslate(width: real, height: real): (t: ScreenPoint)
    ensures t.x + t.x == width
    ensures IsMobile(width) ==> 5.0 * t.y == 2.0 * height
    ensures !IsMobile(width) ==> t.y + t.y == height
  {
    ScreenPoint(width / 2.0, if IsMobile(width) then height * 0.4 else height / 2.0)
  }

  /**
   * `initializeGlobe` sets `rotate([0, -30])` (the roll defaults to 0), scale
   * 350 and a centred translate; the scene then overrides scale and translate.
   */
  const InitializerRotation: Rotation := Rotation(0.0, -30.0, 0.0)

  /** The projection state once the effect has applied its own scale and translate. */
  function InitialProjection(width: real, height: real): ProjectionState
  {
    ProjectionState(InitializerRotation, InitialScale(width, height), InitialTranslate(width, height))
  }

  /**
   * Before any drag or rotation, a node is shown exactly when it projects and
   * lies within a quarter turn of longitude 0, latitude 30° north: the point
   * the initializer's rotation turns to face the viewer.
   */
  lemma InitialVisibility(width: real, height: real, geo: Geometry, d: Node)
    ensures GlobeRenderer.IsVisible(geo, InitialProjection(width, height), d)
        <==> geo.project(InitialProjection(width, height), d.long, d.lat).Some? &&
             geo.distance(0.0, 30.0, d.long, d.lat) <= GlobeRenderer.HalfPi
  {
    assert -InitializerRotation.lambda == 0.0 && -InitializerRotation.phi == 30.0;
  }

  /** On a narrow screen the globe starts smaller than the zoom handler's minimum. */
  lemma MobileStartsBelowMinimum(width: real, height: real)
    requires IsMobile(width)
    ensures InitialScale(width, height) < MinScale
  {
  }

  /**
   * The starting scale lies within the zoom bounds exactly on a wide screen
   * whose smaller side is between 1125 and 5000.
   */
  lemma InitialScaleInBoundsIff(width: real, height: real)
    ensures MinScale <= InitialScale(width, height) <= MaxScale
        <==> !IsMobile(width) && 1125.0 <= Min(width, height) <= 5000.0
  {
  }

  /**
   * A wide screen whose smaller side is under 1125 also starts below the
   * minimum of 450; a 1280×800 window, for one, starts at 320.
   */
  lemma WideStartsBelowMinimum(width: real, height: real)
    requires !IsMobile(width) && Min(width, height) < 1125.0
    ensures InitialScale(width, height) < MinScale
    ensures InitialScale(1280.0, 800.0) == 320.0
  {
  }

  /** On a narrow screen of positive height the globe sits above the centre. */
  lemma MobileSitsHigher(width: real, height: real)
    requires IsMobile(width) && height > 0.0
    ensures InitialTranslate(width, height).y < height / 2.0
  {
  }

  /**
   * Every zoom factor d3 allows is accepted with the scene's bounds, so the
   * first zoom event brings the scale into `[450, 2000]` whatever it was.
   */
  lemma SceneZoomAccepted(scale: real, k: real)
    requires GlobeControls.MinZoomFactor <= k <= GlobeControls.MaxZoomFactor
    ensures GlobeControls.ZoomedScale(scale, k, MinScale, MaxScale) == MinScale * k
    ensures MinScale <= GlobeControls.ZoomedScale(scale, k, MinScale, MaxScale) <= MaxScale
  {
    GlobeControls.ZoomAlwaysAccepted(scale, k, MinScale, MaxScale);
  }

  /** One mounted scene: the shared projection and the renderer drawing with it. */
  class Scene {
    const projection: GeoProjection
    const renderer: GlobeRenderer.GlobeRenderer

    ghost predicate Valid()
      reads this, renderer
    {
      renderer.projection == projection && renderer.Valid()
    }

    /**
     * The effect body: initialise, size the projection, then `renderGlobe`,
     * which draws the markers and takes one rotation step when `shouldRotate`.
     */
    constructor (width: real, height: real, geometry: Geometry, nodes: seq<Node>, shouldRotate: bool)
      ensures Valid() && fresh(projection) && fresh(renderer)
      ensures renderer.geometry == geometry && renderer.nodes == nodes
      ensures renderer.isRotating == shouldRotate
      ensures projection.scale == InitialScale(width, height) && projection.translate == InitialTranslate(width, height)
      ensures shouldRotate ==> projection.rotation == InitializerRotation.(lambda := GlobeRenderer.StepLongitude(0.0))
      ensures !shouldRotate ==> projection.rotation == InitializerRotation
      ensures renderer.opacities == GlobeRenderer.Opacities(geometry, projection.State(), nodes)
    {
      var s := InitialProjection(width, height);
      var p := new GeoProjection(s.rotation, s.scale, s.translate);
      projection := p;
      renderer := new GlobeRenderer.GlobeRenderer(p, geometry, nodes, shouldRotate);
    }

    /** `onDragStart`: `setDragging(true)` stops the autorotation for good. */
    method DragStart()
      requires Valid()
      modifies renderer
      ensures Valid()
      ensures !renderer.isRotating && renderer.rotationTimer.None?
      ensures renderer.opacities == old(renderer.opacities)
    {
      renderer.SetDragging(true);
    }

    /**
     * A drag step at sensitivity 75, then `updateNodeVisibility`, which
     * recomputes every marker's opacity for the new rotation.
     */
    method Drag(dx: real, dy: real)
      requires Valid() && projection.scale != 0.0
      modifies projection, renderer
      ensures Valid()
      ensures projection.rotation == GlobeControls.DraggedRotation(old(projection.rotation), old(projection.scale), dx, dy, Sensitivity)
      ensures projection.scale == old(projection.scale) && projection.translate == old(projection.translate)
      ensures renderer.opacities == GlobeRenderer.Opacities(renderer.geometry, projection.State(), renderer.nodes)
      ensures renderer.isRotating == old(renderer.isRotating) && renderer.rotationTimer == old(renderer.rotationTimer)
    {
      GlobeControls.OnDrag(projection, dx, dy, Sensitivity);
      renderer.UpdateNodeVisibility();
    }

    /** `onDragEnd`: `setDragging(false)` does nothing, so rotation never resumes. */
    method DragEnd()
      requires Valid()
      modifies renderer
      ensures Valid()
      ensures renderer.isRotating == old(renderer.isRotating) && renderer.rotationTimer == old(renderer.rotationTimer)
      ensures renderer.opacities == old(renderer.opacities)
    {
      renderer.SetDragging(false);
    }

    /**
     * A zoom event with the scene's bounds 450 and 2000. `setupZoom` ignores the
     * `updateNodeVisibility` the scene passes it, so opacities are not refreshed.
     */
    method Zoom(k: real)
      requires Valid()
      modifies projection
      ensures Valid()
      ensures projection.scale == GlobeControls.ZoomedScale(old(projection.scale), k, MinScale, MaxScale)
      ensures projection.rotation == old(projection.rotation) && projection.translate == old(projection.translate)
      ensures renderer.opacities == old(renderer.opacities) && renderer.isRotating == old(renderer.isRotating)
    {
      GlobeControls.OnZoom(projection, k, MinScale, MaxScale);
    }

    /**
     * An animation frame of the renderer's `rotate` on the shared projection:
     * after a drag has started, frames change nothing.
     */
    method Frame()
      requires Valid()
      modifies renderer, projection
      ensures Valid()
      ensures renderer.isRotating == old(renderer.isRotating)
      ensures projection.scale == old(projection.scale) && projection.translate == old(projection.translate)
      ensures !renderer.isRotating ==> projection.rotation == old(projection.rotation) && renderer.opacities == old(renderer.opacities)
      ensures renderer.isRotating ==>
        projection.rotation == old(projection.rotation).(lambda := GlobeRenderer.StepLongitude(old(projection.rotation.lambda))) &&
        renderer.opacities == GlobeRenderer.Opacities(renderer.geometry, projection.State(), renderer.nodes)
    {
      renderer.Rotate();
    }
  }
}

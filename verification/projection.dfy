/**
 * The orthographic projection object that the renderer, the drag/zoom handlers
 * and the autorotation share and update in place, and the two d3 geometry
 * functions the globe calls. The projection and `d3.geoDistance` are foreign
 * floating-point code: they are kept as uninterpreted function values.
 */
module Projection {
  import opened Wrappers

  /** `projection.rotate()`: the three Euler angles [λ, φ, γ] in degrees. */
  datatype Rotation = Rotation(lambda: real, phi: real, gamma: real)

  datatype ScreenPoint = ScreenPoint(x: real, y: real)

  datatype ProjectionState = ProjectionState(rotation: Rotation, scale: real, translate: ScreenPoint)

  /**
   * `project(s, long, lat)` is `projection([long, lat])` under state `s`
   * (`None` when d3 returns null); `distance(a, b, long, lat)` is
   * `d3.geoDistance([a, b], [long, lat])` in radians. Coordinates are `None`
   * when the marker record has them undefined.
   */
  datatype Geometry = Geometry(
    project: (ProjectionState, Option<real>, Option<real>) -> Option<ScreenPoint>,
    distance: (real, real, Option<real>, Option<real>) -> real)

  /** A d3 projection, mutated in place through its `rotate` and `scale` setters. */
  class GeoProjection {
    var rotation: Rotation
    var scale: real
    var translate: ScreenPoint

    constructor (rotation: Rotation, scale: real, translate: ScreenPoint)
      ensures State() == ProjectionState(rotation, scale, translate)
    {
      this.rotation := rotation;
      this.scale := scale;
      this.translate := translate;
    }

    function State(): (s: ProjectionState)
      reads this
      ensures s.rotation == rotation && s.scale == scale && s.translate == translate
    {
      ProjectionState(rotation, scale, translate)
    }
  }
}

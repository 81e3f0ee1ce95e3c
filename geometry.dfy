/**
  Positions as they flow through the drag pipeline. Coordinates are reals:
  the model never computes with them, it only fixes the y component to 0
  where the editor does (`WithY(0f)`).
*/
module Geometry {

  /** A screen or pointer coordinate. */
  datatype Vec2 = Vec2(x: real, y: real)

  /** A world coordinate. */
  datatype Vec3 = Vec3(x: real, y: real, z: real)

  const Zero2 := Vec2(0.0, 0.0)

  const Zero3 := Vec3(0.0, 0.0, 0.0)

  /** `v.WithY(0f)`: the same point moved onto the floor plane. */
  function OnFloor(v: Vec3): (r: Vec3)
    ensures r.y == 0.0 && r.x == v.x && r.z == v.z
  {
    v.(y := 0.0)
  }

  /** The result of `Plane.Raycast`: whether the ray met the plane, and the point. */
  datatype Hit = Hit(found: bool, point: Vec3)
}

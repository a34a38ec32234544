/** Value types shared by both scene versions. */
module Geometry {

  /** A point of the platform plane, written `[x, z]` in the game: the boxes are
      drawn at the translation (x, z, 0), so the game's `z` is the matrix's y. */
  datatype Pos = Pos(x: real, z: real)

  /** The translation part of a figure transform. The game only ever builds the
      figure matrices from translations, so the translation is all of them. */
  datatype Vec3 = Vec3(x: real, y: real, z: real)

  /** `m.times(Mat4.translation(d.x, d.y, d.z))` on a pure translation `m`. */
  function Translate(m: Vec3, d: Vec3): Vec3
  {
    Vec3(m.x + d.x, m.y + d.y, m.z + d.z)
  }

  /** `Math.abs`. */
  function Abs(r: real): real
  {
    if r < 0.0 then -r else r
  }

  /** Both coordinates lie on the same side of zero. */
  predicate SameSide(a: real, b: real)
  {
    (a >= 0.0 && b >= 0.0) || (a <= 0.0 && b <= 0.0)
  }
}

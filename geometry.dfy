/**
 * Map coordinates: world units (32 per tile horizontally, 8 per height
 * step), the quarter-turn rotation `CoordsXY::Rotate`, tile conversion and
 * the one-tile step in each cardinal direction.
 */
module Geometry {
  import opened Common

  const COORDS_XY_STEP: int := 32
  const COORDS_Z_STEP: int := 8
  /** Map edge in world units: 256 tiles of 32 units. */
  const MAXIMUM_MAP_SIZE_BIG: int := 256 * 32

  datatype XY = XY(x: int, y: int)
  datatype XYZ = XYZ(x: int, y: int, z: int)

  function Add(a: XY, b: XY): XY { XY(a.x + b.x, a.y + b.y) }
  function Sub(a: XY, b: XY): XY { XY(a.x - b.x, a.y - b.y) }
  function Flat(c: XYZ): XY { XY(c.x, c.y) }
  function WithZ(c: XY, z: int): XYZ { XYZ(c.x, c.y, z) }

  /**
   * `Rotate(direction)`: a quarter turn per unit of `direction & 3`
   * (Dafny's `%` is Euclidean, which agrees with `& 3` on negative values).
   */
  function Rotate(c: XY, direction: int): XY
  {
    match direction % 4
    case 0 => c
    case 1 => XY(c.y, -c.x)
    case 2 => XY(-c.x, -c.y)
    case _ => XY(-c.y, c.x)
  }

  /** Rotating by `a` and then by `b` is rotating by `a + b`. */
  lemma RotateAdd(c: XY, a: int, b: int)
    ensures Rotate(Rotate(c, a), b) == Rotate(c, a + b)
  {
    assert (a + b) % 4 == (a % 4 + b % 4) % 4;
  }

  /** Rotating back by `0 - d` undoes a rotation by `d`, and conversely. */
  lemma {:induction false} RotateInverse(c: XY, d: int)
    ensures Rotate(Rotate(c, 0 - d), d) == c
    ensures Rotate(Rotate(c, d), 0 - d) == c
  {
    RotateAdd(c, 0 - d, d);
    RotateAdd(c, d, 0 - d);
  }

  /** Rotation scales with the tile step, so tile offsets and world offsets rotate alike. */
  lemma RotateScale(t: XY, d: int)
    ensures Rotate(XY(t.x * 32, t.y * 32), d) == XY(Rotate(t, d).x * 32, Rotate(t, d).y * 32)
  {
  }

  /** `TileCoordsXY(CoordsXY)`: each axis divided by 32, truncated. */
  function ToTile(c: XY): (t: XY)
    ensures c.x >= 0 && c.y >= 0 ==> t == XY(c.x / 32, c.y / 32)
  {
    XY(TDiv(c.x, COORDS_XY_STEP), TDiv(c.y, COORDS_XY_STEP))
  }

  /** `TileCoordsXY::ToCoordsXY`. */
  function ToCoords(t: XY): XY
  {
    XY(t.x * COORDS_XY_STEP, t.y * COORDS_XY_STEP)
  }

  /** Tile conversion inverts coordinate conversion. */
  lemma ToTileToCoords(t: XY)
    ensures ToTile(ToCoords(t)) == t
  {
    TDivExact(t.x);
    TDivExact(t.y);
  }

  /** `CoordsDirectionDelta[d]` for the four cardinal directions. */
  function DirectionDelta(d: int): (r: XY)
    requires 0 <= d < 4
    ensures r == Rotate(XY(-32, 0), d)
  {
    match d
    case 0 => XY(-32, 0)
    case 1 => XY(0, 32)
    case 2 => XY(32, 0)
    case _ => XY(0, -32)
  }

  /** `map_is_location_valid`. */
  predicate IsLocationValid(c: XY)
  {
    0 <= c.x < MAXIMUM_MAP_SIZE_BIG && 0 <= c.y < MAXIMUM_MAP_SIZE_BIG
  }
}

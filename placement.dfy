/**
 * The pure arithmetic of placing a design: operation codes and the command
 * flags each operation issues with, the track cursor, the clearance height
 * of a tile, the per-element orientation bits a placed element gets, the
 * bounding box and selection list, the footprint of a capture and the
 * preview zoom level.
 */
module Placement {
  import opened Common
  import opened Geometry
  import opened Bits
  import opened Records
  import opened World

  // ---------------------------------------------------------------------
  // Operations

  const PTD_OPERATION_DRAW_OUTLINES: nat := 0
  const PTD_OPERATION_PLACE_QUERY: nat := 1
  const PTD_OPERATION_PLACE: nat := 2
  const PTD_OPERATION_GET_PLACE_Z: nat := 3
  const PTD_OPERATION_PLACE_GHOST: nat := 4
  const PTD_OPERATION_PLACE_TRACK_PREVIEW: nat := 5
  const PTD_OPERATION_REMOVE_GHOST: nat := 6
  const PTD_OPERATION_FLAG_IS_REPLAY: nat := 0x80

  /** `ptdOperation & PTD_OPERATION_FLAG_IS_REPLAY` and `ptdOperation & ~PTD_OPERATION_FLAG_IS_REPLAY`. */
  function SplitOperation(ptdOperation: nat): (r: (nat, bool))
    requires ptdOperation < 256
    ensures r.0 < 0x80
    ensures r.0 + (if r.1 then PTD_OPERATION_FLAG_IS_REPLAY else 0) == ptdOperation
  {
    (ptdOperation % 0x80, ptdOperation >= 0x80)
  }

  /** The four operations that issue placement actions. */
  predicate IsPlacing(op: nat)
  {
    op == PTD_OPERATION_PLACE_QUERY || op == PTD_OPERATION_PLACE
    || op == PTD_OPERATION_PLACE_GHOST || op == PTD_OPERATION_PLACE_TRACK_PREVIEW
  }

  // ---------------------------------------------------------------------
  // Command flags

  function WithReplay(flags: CommandFlags, isReplay: bool): CommandFlags
  {
    if isReplay then flags + {Replay} else flags
  }

  /** Small and large scenery placement. */
  function SceneryObjectFlags(op: nat, isReplay: bool): (f: CommandFlags)
    ensures PathScenery in f
    ensures (Apply in f) == (op != PTD_OPERATION_PLACE_QUERY)
    ensures (Ghost in f) == (op == PTD_OPERATION_PLACE_GHOST)
    ensures (NoSpend in f) == (AllowDuringPaused in f)
                          == (op == PTD_OPERATION_PLACE_GHOST || op == PTD_OPERATION_PLACE_TRACK_PREVIEW)
    ensures (Replay in f) == isReplay
  {
    var base :=
      if op == PTD_OPERATION_PLACE_TRACK_PREVIEW then {Apply, PathScenery, AllowDuringPaused, NoSpend}
      else if op == PTD_OPERATION_PLACE_GHOST then {Apply, PathScenery, AllowDuringPaused, Ghost, NoSpend}
      else if op == PTD_OPERATION_PLACE_QUERY then {PathScenery}
      else {Apply, PathScenery};
    WithReplay(base, isReplay)
  }

  /** Wall placement: like the standard flags, but the preview also sets `PATH_SCENERY`. */
  function WallFlags(op: nat, isReplay: bool): (f: CommandFlags)
    ensures (Apply in f) == (op != PTD_OPERATION_PLACE_QUERY)
    ensures (Ghost in f) == (op == PTD_OPERATION_PLACE_GHOST)
    ensures (PathScenery in f) == (op == PTD_OPERATION_PLACE_TRACK_PREVIEW)
    ensures (NoSpend in f) == (op == PTD_OPERATION_PLACE_GHOST || op == PTD_OPERATION_PLACE_TRACK_PREVIEW)
    ensures (Replay in f) == isReplay
  {
    var base :=
      if op == PTD_OPERATION_PLACE_TRACK_PREVIEW then {Apply, PathScenery, AllowDuringPaused, NoSpend}
      else if op == PTD_OPERATION_PLACE_GHOST then {Apply, AllowDuringPaused, NoSpend, Ghost}
      else if op == PTD_OPERATION_PLACE_QUERY then {}
      else {Apply};
    WithReplay(base, isReplay)
  }

  /** Footpaths, maze cells and markers, and ride entrances. */
  function StandardFlags(op: nat, isReplay: bool): (f: CommandFlags)
    ensures (Apply in f) == (op != PTD_OPERATION_PLACE_QUERY)
    ensures (Ghost in f) == (op == PTD_OPERATION_PLACE_GHOST)
    ensures PathScenery !in f
    ensures (NoSpend in f) == (AllowDuringPaused in f)
                          == (op == PTD_OPERATION_PLACE_GHOST || op == PTD_OPERATION_PLACE_TRACK_PREVIEW)
    ensures (Replay in f) == isReplay
  {
    var base :=
      if op == PTD_OPERATION_PLACE_TRACK_PREVIEW then {Apply, AllowDuringPaused, NoSpend}
      else if op == PTD_OPERATION_PLACE_GHOST then {Apply, AllowDuringPaused, NoSpend, Ghost}
      else if op == PTD_OPERATION_PLACE_QUERY then {}
      else {Apply};
    WithReplay(base, isReplay)
  }

  /** Track placement: a query only drops the spending. */
  function TrackPlaceFlags(op: nat, isReplay: bool): (f: CommandFlags)
    ensures (Apply in f) == (op != PTD_OPERATION_PLACE_QUERY)
    ensures (Ghost in f) == (op == PTD_OPERATION_PLACE_GHOST)
    ensures (NoSpend in f) ==
      (op == PTD_OPERATION_PLACE_QUERY || op == PTD_OPERATION_PLACE_GHOST || op == PTD_OPERATION_PLACE_TRACK_PREVIEW)
    ensures (Replay in f) == isReplay
  {
    var base :=
      if op == PTD_OPERATION_PLACE_TRACK_PREVIEW then {Apply, AllowDuringPaused, NoSpend}
      else if op == PTD_OPERATION_PLACE_GHOST then {Apply, AllowDuringPaused, NoSpend, Ghost}
      else if op == PTD_OPERATION_PLACE_QUERY then {NoSpend}
      else {Apply};
    WithReplay(base, isReplay)
  }

  /** Removing ghost scenery, and demolishing a ghost maze. */
  const GHOST_REMOVE_FLAGS: CommandFlags := {Apply, AllowDuringPaused, NoSpend, Ghost}
  /** Removing ghost track pieces. */
  const TRACK_REMOVE_FLAGS: CommandFlags := {AllowDuringPaused, NoSpend, Ghost}

  // ---------------------------------------------------------------------
  // Track cursor

  /** Position and rotation of the next piece; bit 2 of the rotation marks a diagonal heading. */
  datatype Cursor = Cursor(pos: XYZ, rotation: nat)

  /** Bit 2 of a piece's end rotation. */
  predicate EndsDiagonal(c: TrackCoordinates)
  {
    c.rotationEnd % 8 >= 4
  }

  /**
   * The cursor after one piece: moved by the piece's rotated end offset and
   * height change, turned by its rotation change, and stepped one tile
   * forward unless it ends on a diagonal.
   */
  function Advance(cur: Cursor, c: TrackCoordinates): (r: Cursor)
    ensures r.rotation < 8
    ensures r.rotation % 4 == (cur.rotation + c.rotationEnd - c.rotationBegin) % 4
    ensures (r.rotation >= 4) == EndsDiagonal(c)
    ensures r.pos.z == cur.pos.z - c.zBegin + c.zEnd
    ensures var moved := Add(Flat(cur.pos), Rotate(XY(c.x, c.y), cur.rotation));
      Flat(r.pos) == if EndsDiagonal(c) then moved else Add(moved, DirectionDelta(r.rotation))
  {
    var xy := Add(Flat(cur.pos), Rotate(XY(c.x, c.y), cur.rotation));
    var z := cur.pos.z - c.zBegin + c.zEnd;
    var rotation := (cur.rotation + c.rotationEnd - c.rotationBegin) % 4;
    if EndsDiagonal(c) then Cursor(WithZ(xy, z), rotation + 4)
    else Cursor(WithZ(Add(xy, DirectionDelta(rotation)), z), rotation)
  }

  // ---------------------------------------------------------------------
  // Clearance (GET_PLACE_Z)

  const LAND_HEIGHT_STEP: int := 16
  const TILE_ELEMENT_SLOPE_ALL_CORNERS_UP: bv8 := 0x0F
  const TILE_ELEMENT_SLOPE_DOUBLE_HEIGHT: bv8 := 0x10

  /** Height a piece must clear on a tile: the land (one step up per raised slope level) or higher water. */
  function SurfaceZ(s: Surface): (z: int)
    ensures z >= s.baseZ
    ensures s.waterHeight > 0 ==> z >= s.waterHeight
    ensures z == s.baseZ || z == s.baseZ + LAND_HEIGHT_STEP || z == s.baseZ + 2 * LAND_HEIGHT_STEP
            || (s.waterHeight > 0 && z == s.waterHeight)
    ensures s.slope & TILE_ELEMENT_SLOPE_ALL_CORNERS_UP == 0 && s.waterHeight <= s.baseZ ==> z == s.baseZ
  {
    var land :=
      if s.slope & TILE_ELEMENT_SLOPE_ALL_CORNERS_UP != 0 then
        if s.slope & TILE_ELEMENT_SLOPE_DOUBLE_HEIGHT != 0 then s.baseZ + 2 * LAND_HEIGHT_STEP
        else s.baseZ + LAND_HEIGHT_STEP
      else s.baseZ;
    if s.waterHeight > 0 && s.waterHeight > land then s.waterHeight else land
  }

  /**
   * `placeZ -= diff` when `diff = z + placeZ - surfaceZ` is negative: the
   * least raise that lifts a block at `z` to the surface.
   */
  function Raise(placeZ: int, z: int, surfaceZ: int): (r: int)
    ensures r >= placeZ
    ensures z + r >= surfaceZ
    ensures r == placeZ || z + r == surfaceZ
  {
    var diff := z + placeZ - surfaceZ;
    if diff < 0 then placeZ - diff else placeZ
  }

  // ---------------------------------------------------------------------
  // Bounding box and selection tiles

  datatype Box = Box(min: XYZ, max: XYZ)

  predicate Contains(b: Box, c: XYZ)
  {
    b.min.x <= c.x <= b.max.x && b.min.y <= c.y <= b.max.y && b.min.z <= c.z <= b.max.z
  }

  predicate Within(inner: Box, outer: Box)
  {
    outer.min.x <= inner.min.x && outer.min.y <= inner.min.y && outer.min.z <= inner.min.z
    && inner.max.x <= outer.max.x && inner.max.y <= outer.max.y && inner.max.z <= outer.max.z
  }

  /** `track_design_update_max_min_coordinates`: the least box holding the old one and `c`. */
  function Extend(b: Box, c: XYZ): (r: Box)
    ensures Contains(r, c) && Within(b, r)
    ensures forall d :: Contains(b, d) ==> Contains(r, d)
    ensures r.min.x == b.min.x || r.min.x == c.x
    ensures r.max.x == b.max.x || r.max.x == c.x
    ensures r.min.y == b.min.y || r.min.y == c.y
    ensures r.max.y == b.max.y || r.max.y == c.y
    ensures r.min.z == b.min.z || r.min.z == c.z
    ensures r.max.z == b.max.z || r.max.z == c.z
  {
    Box(XYZ(Min(b.min.x, c.x), Min(b.min.y, c.y), Min(b.min.z, c.z)),
        XYZ(Max(b.max.x, c.x), Max(b.max.y, c.y), Max(b.max.z, c.z)))
  }

  function Min(a: int, b: int): int { if a < b then a else b }
  function Max(a: int, b: int): int { if a > b then a else b }

  predicate NoDuplicates<T(==)>(s: seq<T>)
  {
    forall i, j | 0 <= i < j < |s| :: s[i] != s[j]
  }

  /** `track_design_add_selection_tile`: append the tile only when it is absent. */
  function WithTile(tiles: seq<XY>, t: XY): (r: seq<XY>)
    ensures t in r
    ensures t in tiles ==> r == tiles
    ensures t !in tiles ==> r == tiles + [t]
    ensures NoDuplicates(tiles) ==> NoDuplicates(r)
    ensures forall u :: u in r <==> u in tiles || u == t
  {
    if t in tiles then tiles else tiles + [t]
  }

  // ---------------------------------------------------------------------
  // Orientation of placed elements

  /**
   * Rotation of a placed small or large scenery object or wall:
   * `(rotation + flags) & 3`, which reads only the low two bits of the flags.
   */
  function PlacedDirection(rotation: nat, flags: bv8): (d: nat)
    ensures d < 4
  {
    (rotation + (flags & 3) as nat) % 4
  }

  /** Quadrant of a placed small scenery object: `((flags >> 2) + rotation) & 3`. */
  function PlacedQuadrant(rotation: nat, flags: bv8): (q: nat)
    ensures q < 4
  {
    (rotation + ((flags >> 2) & 3) as nat) % 4
  }

  /**
   * The path byte placement builds: the edge nibble rotated left by
   * `rotation`, the slope direction (bits 5-6) turned by `rotation`, and
   * bits 4 and 7 copied.
   */
  function PlacedPathByte(flags: bv8, rotation: nat): (bh: bv8)
    requires rotation < 4
    ensures bh & 0x0F == EdgesRotateLeft(flags, rotation)
    ensures bh & 0x90 == flags & 0x90
    ensures ((bh >> 5) & 3) as nat == (((flags >> 5) & 3) as nat + rotation) % 4
  {
    var edges := EdgesRotateLeft(flags, rotation);
    var slopeDirection := ((flags >> 5) as nat + rotation) % 4;
    edges | ((slopeDirection as bv8) << 5) | (flags & 0x90)
  }

  /** `((bh >> 5) & 3) | ((bh >> 2) & 4)`: slope direction plus the sloped bit. */
  function PathSlope(bh: bv8): (slope: bv8)
    ensures slope & 3 == (bh >> 5) & 3
    ensures (slope & 4 != 0) == (bh & 0x10 != 0)
    ensures slope < 8
  {
    ((bh >> 5) & 3) | ((bh >> 2) & 4)
  }

  // ---------------------------------------------------------------------
  // Where placement puts a record's elements

  /** A ride entrance: its offset rotated by the piece direction, added to the preview origin. */
  function PlacedEntranceXY(e: EntranceElement, rotation: nat, origin: XYZ): XY
  {
    Add(Rotate(XY(e.x, e.y), rotation), Flat(origin))
  }

  /** The base height (in height steps) of the station track an entrance is matched against. */
  function PlacedEntranceHeight(e: EntranceElement, originZ: int): int
  {
    TDiv(originZ, COORDS_Z_STEP) + e.z
  }

  /** The height of the entrance a query checks. */
  function PlacedEntranceQueryZ(e: EntranceElement, originZ: int): int
  {
    e.z * COORDS_Z_STEP + originZ
  }

  /** A maze cell: its tile offset in world units, rotated, added to the placement position. */
  function PlacedMazeXY(m: MazeElement, rotation: nat, coords: XYZ): XY
  {
    Add(Rotate(ToCoords(XY(m.x, m.y)), rotation), Flat(coords))
  }

  /** A scenery element's tile: the origin's tile plus the rotated tile offset. */
  function PlacedSceneryTile(s: SceneryElement, rotation: nat, origin: XYZ): XY
  {
    Add(ToTile(Flat(origin)), Rotate(XY(s.x, s.y), rotation))
  }

  /** A scenery element's height. */
  function PlacedSceneryZ(s: SceneryElement, originZ: int): int
  {
    s.z * COORDS_Z_STEP + originZ
  }

  // ---------------------------------------------------------------------
  // Footprint and preview

  /** `space_required = (max - min) / 32 + 1`: the tiles a design spans along one axis. */
  function SpaceRequired(min: int, max: int): (n: int)
    requires min <= max
    ensures n >= 1
    ensures (n - 1) * 32 <= max - min < n * 32
  {
    TDiv(max - min, 32) + 1
  }

  /** The zoom level framing a preview whose larger horizontal extent is `sizeXY` and height `sizeZ`. */
  function PreviewZoom(sizeXY: int, sizeZ: int): (zoom: nat)
    ensures 1 <= zoom <= 3
    ensures zoom == 1 <==> sizeXY <= 1000 && sizeZ <= 280
    ensures zoom == 3 <==> sizeXY > 1600 || sizeZ > 1000
  {
    var z := if sizeXY > 1000 || sizeZ > 280 then 2 else 1;
    if sizeXY > 1600 || sizeZ > 1000 then 3 else z
  }

  datatype PreviewView = PreviewView(centre: XYZ, zoom: nat, viewWidth: nat, viewHeight: nat)

  function Shl(v: nat, k: nat): nat { if k == 0 then v else 2 * Shl(v, k - 1) }

  lemma {:induction false} ShlScale(v: nat, k: nat)
    ensures Shl(v, k) == v * Shl(1, k)
  {
    if k > 0 {
      ShlScale(v, k - 1);
    }
  }

  /** The framing of the preview image around a placed design's bounding box. */
  function PreviewFraming(b: Box, hasTrack: bool): (v: PreviewView)
    ensures v.zoom == PreviewZoom(Max(b.max.x - b.min.x, b.max.y - b.min.y), if hasTrack then b.max.z - b.min.z else 0)
    ensures v.viewWidth == 370 * Shl(1, v.zoom) && v.viewHeight == 217 * Shl(1, v.zoom)
    ensures !hasTrack ==> v.centre.z == 0
  {
    var centre := XYZ(TDiv(b.min.x + b.max.x, 2) + 16, TDiv(b.min.y + b.max.y, 2) + 16,
                      if hasTrack then TDiv(b.min.z + b.max.z, 2) else 0);
    var sizeZ := if hasTrack then b.max.z - b.min.z else 0;
    var zoom := PreviewZoom(Max(b.max.x - b.min.x, b.max.y - b.min.y), sizeZ);
    ShlScale(370, zoom);
    ShlScale(217, zoom);
    PreviewView(centre, zoom, Shl(370, zoom), Shl(217, zoom))
  }

  /** A bigger box never gets a finer zoom. */
  lemma {:induction false} PreviewZoomMonotone(sx: int, sz: int, sx': int, sz': int)
    requires sx <= sx' && sz <= sz'
    ensures PreviewZoom(sx, sz) <= PreviewZoom(sx', sz')
  {
  }
}

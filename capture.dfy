/**
 * The per-item arithmetic of capturing a built ride into a design record:
 * the statistics a design keeps, and how entrances, maze cells and scenery
 * are re-expressed relative to the preview origin and rotated back by the
 * saved direction. Each transform is paired with a lemma saying that
 * placement, at the same origin and rotation, puts the item back.
 */
module Capture {
  import opened Common
  import opened Geometry
  import opened Bits
  import opened Records
  import opened World
  import opened Placement

  /** The signed window a captured tile offset or relative height must fall in. */
  predicate InWindow(v: int)
  {
    -126 <= v <= 127
  }

  // ---------------------------------------------------------------------
  // Statistics

  /** A 16.16 fixed-point speed truncated to whole units and narrowed to a signed byte. */
  function SpeedOf(v: int): (r: Int8Value)
    ensures (r - TDiv(v, 65536)) % 256 == 0
    ensures -128 * 65536 < v < 128 * 65536 ==> r == TDiv(v, 65536)
  {
    Int8(TDiv(v, 65536))
  }

  /** A vertical G force in 1/32 units narrowed to the record's signed byte. */
  function VerticalGOf(g: int): (r: Int8Value)
    ensures (r - TDiv(g, 32)) % 256 == 0
    ensures -128 * 32 < g < 128 * 32 ==> r == TDiv(g, 32)
  {
    Int8(TDiv(g, 32))
  }

  /** The lateral G force in 1/32 units narrowed to the record's unsigned byte. */
  function LateralGOf(g: int): (r: nat)
    ensures r < 256 && (r - TDiv(g, 32)) % 256 == 0
    ensures 0 <= g < 256 * 32 ==> r == TDiv(g, 32)
  {
    Uint8(TDiv(g, 32))
  }

  /** A rating in hundredths brought to tenths and narrowed to the record's unsigned byte. */
  function RatingOf(rating: int): (r: nat)
    ensures r < 256 && (r - TDiv(rating, 10)) % 256 == 0
    ensures 0 <= rating < 256 * 10 ==> r == TDiv(rating, 10)
  {
    Uint8(TDiv(rating, 10))
  }

  /** The air time scaled by 123/1024, replaced by 0 when it does not fit a byte. */
  function AirTimeOf(t: nat): (r: nat)
    requires t < 0x1_0000
    ensures r < 256
    ensures t * 123 < 256 * 1024 ==> r * 1024 <= t * 123 < (r + 1) * 1024
    ensures t * 123 >= 256 * 1024 ==> r == 0
  {
    var scaled := (t * 123) / 1024;
    if scaled > 255 then 0 else scaled
  }

  /** Inversions in bits 0-4 and sheltered eighths in bits 5-7 of one byte. */
  function InversionsOf(inversions: bv8, shelteredEighths: bv8): (r: bv8)
    ensures r & 0x1F == inversions & 0x1F
    ensures r >> 5 == shelteredEighths & 7
  {
    (inversions & 0x1F) | (shelteredEighths << 5)
  }

  /** The ride statistics a design record keeps. */
  datatype DesignStats = DesignStats(
    rideMode: nat, colourScheme: nat, vehicleColours: seq<VehicleColour>, trackColours: seq<TrackColour>,
    departFlags: nat, numberOfTrains: nat, numberOfCarsPerTrain: nat,
    minWaitingTime: nat, maxWaitingTime: nat, operationSetting: nat, liftHillSpeed: nat, numCircuits: nat,
    entranceStyle: nat, maxSpeed: Int8Value, averageSpeed: Int8Value, rideLength: int,
    maxPositiveVerticalG: Int8Value, maxNegativeVerticalG: Int8Value, maxLateralG: nat,
    inversions: bv8, drops: nat, highestDropHeight: nat, totalAirTime: nat,
    excitement: nat, intensity: nat, nausea: nat, upkeepCost: int)

  /**
   * The statistics block of a capture: the colour scheme type reduced to two
   * bits, speeds and length out of 16.16 fixed point, G forces out of
   * 1/32 units and ratings out of hundredths, each narrowed to its byte
   * field, the packed inversion byte, and the operating settings and
   * colours copied as they are. The ride's hole count is not part of it.
   */
  function CaptureStatistics(s: RideStats): (d: DesignStats)
    requires s.totalAirTime < 0x1_0000
    ensures d.colourScheme < 4 && d.colourScheme == s.colourSchemeType % 4
    ensures d.totalAirTime < 256
    ensures d.inversions & 0x1F == s.inversions & 0x1F && d.inversions >> 5 == s.shelteredEighths & 7
    ensures d.maxSpeed == SpeedOf(s.maxSpeed) && d.averageSpeed == SpeedOf(s.averageSpeed)
    ensures d.rideLength * 65536 <= s.totalLength || s.totalLength < 0
    ensures d.maxPositiveVerticalG == VerticalGOf(s.maxPositiveVerticalG)
            && d.maxNegativeVerticalG == VerticalGOf(s.maxNegativeVerticalG)
            && d.maxLateralG == LateralGOf(s.maxLateralG)
    ensures d.excitement == RatingOf(s.excitement) && d.intensity == RatingOf(s.intensity)
            && d.nausea == RatingOf(s.nausea)
    ensures d.rideMode == s.mode && d.vehicleColours == s.vehicleColours && d.trackColours == s.trackColours
    ensures d.departFlags == s.departFlags && d.numberOfTrains == s.numVehicles
            && d.numberOfCarsPerTrain == s.numCarsPerTrain
    ensures d.minWaitingTime == s.minWaitingTime && d.maxWaitingTime == s.maxWaitingTime
            && d.operationSetting == s.operationOption && d.liftHillSpeed == s.liftHillSpeed
            && d.numCircuits == s.numCircuits && d.entranceStyle == s.entranceStyle
    ensures d.drops == s.drops && d.highestDropHeight == s.highestDropHeight && d.upkeepCost == s.upkeepCost
  {
    DesignStats(
      s.mode, s.colourSchemeType % 4, s.vehicleColours, s.trackColours,
      s.departFlags, s.numVehicles, s.numCarsPerTrain,
      s.minWaitingTime, s.maxWaitingTime, s.operationOption, s.liftHillSpeed, s.numCircuits,
      s.entranceStyle, SpeedOf(s.maxSpeed), SpeedOf(s.averageSpeed), TDiv(s.totalLength, 65536),
      VerticalGOf(s.maxPositiveVerticalG), VerticalGOf(s.maxNegativeVerticalG), LateralGOf(s.maxLateralG),
      InversionsOf(s.inversions, s.shelteredEighths), s.drops, s.highestDropHeight, AirTimeOf(s.totalAirTime),
      RatingOf(s.excitement), RatingOf(s.intensity), RatingOf(s.nausea), s.upkeepCost)
  }

  // ---------------------------------------------------------------------
  // Directions and heights

  /** `(d - saveDirection) & 3` on bytes: the direction relative to the saved one. */
  function RelativeDirection(d: nat, saveDirection: nat): (r: nat)
    ensures r < 4
    ensures (saveDirection + r) % 4 == d % 4
  {
    (d - saveDirection) % 4
  }

  /** `(z - originZ) / 8`: a height relative to the origin, in height steps. */
  function RelativeHeight(z: int, originZ: int): (r: int)
    ensures (z - originZ) % 8 == 0 ==> r * 8 + originZ == z
    ensures (z - originZ) % 8 == 0 && originZ % 8 == 0 ==> TDiv(originZ, 8) + r == z / 8
  {
    var q := TDiv(z - originZ, 8);
    assert (z - originZ) % 8 == 0 ==> q == (z - originZ) / 8 by {
      if (z - originZ) % 8 == 0 {
        TDivExact((z - originZ) / 8);
      }
    }
    assert originZ % 8 == 0 ==> TDiv(originZ, 8) == originZ / 8 by {
      if originZ % 8 == 0 {
        TDivExact(originZ / 8);
      }
    }
    q
  }

  // ---------------------------------------------------------------------
  // Entrances

  /** The entrance offset before narrowing: the map position relative to the origin, rotated back. */
  function EntranceOffset(tile: XY, origin: XYZ, saveDirection: nat): (r: XY)
    ensures Add(Rotate(r, saveDirection), Flat(origin)) == ToCoords(tile)
  {
    var r := Rotate(Sub(ToCoords(tile), Flat(origin)), 0 - saveDirection);
    RotateInverse(Sub(ToCoords(tile), Flat(origin)), saveDirection);
    r
  }

  /**
   * The record of a station entrance (or exit) whose tile element faces
   * `tileDirection`, for a station at height `stationZ`; `None` when the
   * relative height leaves the signed window.
   */
  function CaptureEntrance(tile: XY, tileDirection: nat, stationZ: int, origin: XYZ, saveDirection: nat, isExit: bool)
    : (r: Option<EntranceElement>)
    ensures r.Some? <==> InWindow(RelativeHeight(stationZ, origin.z))
    ensures r.Some? ==>
      && r.value.z == RelativeHeight(stationZ, origin.z)
      && r.value.direction as nat == RelativeDirection(tileDirection, saveDirection)
      && r.value.x == Int16(EntranceOffset(tile, origin, saveDirection).x)
      && r.value.y == Int16(EntranceOffset(tile, origin, saveDirection).y)
      && r.value.isExit == isExit
  {
    var z := RelativeHeight(stationZ, origin.z);
    if !InWindow(z) then None
    else
      var offset := EntranceOffset(tile, origin, saveDirection);
      Some(EntranceElement(z, RelativeDirection(tileDirection, saveDirection) as bv8,
                           Int16(offset.x), Int16(offset.y), isExit))
  }

  /**
   * An entrance captured from the map is put back where it was by placement
   * at the same origin and rotation: same position, same facing, and it is
   * matched against the station's own height.
   */
  lemma {:induction false} EntranceRoundTrip(
    tile: XY, tileDirection: nat, stationZ: int, origin: XYZ, saveDirection: nat, isExit: bool)
    requires saveDirection < 4
    requires IsLocationValid(ToCoords(tile)) && IsLocationValid(Flat(origin))
    requires stationZ % 8 == 0 && origin.z % 8 == 0
    requires InWindow(RelativeHeight(stationZ, origin.z))
    ensures var e := CaptureEntrance(tile, tileDirection, stationZ, origin, saveDirection, isExit).value;
      && PlacedEntranceXY(e, saveDirection, origin) == ToCoords(tile)
      && (saveDirection + e.direction as nat) % 4 == tileDirection % 4
      && PlacedEntranceHeight(e, origin.z) == stationZ / 8
      && PlacedEntranceQueryZ(e, origin.z) == stationZ
      && e.isExit == isExit
  {
    var d := Sub(ToCoords(tile), Flat(origin));
    var offset := EntranceOffset(tile, origin, saveDirection);
    assert -8192 < d.x < 8192 && -8192 < d.y < 8192;
    assert offset == Rotate(d, 0 - saveDirection);
    assert -8192 < offset.x < 8192 && -8192 < offset.y < 8192;
    assert (stationZ - origin.z) % 8 == 0;
  }

  // ---------------------------------------------------------------------
  // Maze cells

  /** `(x - startX) / 32` stored in a signed byte: a cell's tile offset from the first maze tile. */
  function MazeOffset(x: int, startX: int): (r: Int8Value)
    ensures (x - startX) % 32 == 0 && -128 * 32 <= x - startX < 128 * 32 ==> r * 32 == x - startX
  {
    assert (x - startX) % 32 == 0 ==> TDiv(x - startX, 32) == (x - startX) / 32 by {
      if (x - startX) % 32 == 0 {
        TDivExact((x - startX) / 32);
      }
    }
    Int8(TDiv(x - startX, 32))
  }

  /** A maze cell record: its wall mask and its offset from the first maze tile. */
  function CaptureMazeCell(at: XY, start: XY, entry: Word16): (m: MazeElement)
    ensures m.entry == entry
    ensures m.x == MazeOffset(at.x, start.x) && m.y == MazeOffset(at.y, start.y)
  {
    MazeElement(MazeOffset(at.x, start.x), MazeOffset(at.y, start.y), entry)
  }

  /** An entrance (type 8) or exit (type 0x80) marker of a maze. */
  function CaptureMazeMarker(at: XY, start: XY, direction: nat, isExit: bool): (m: MazeElement)
    requires direction < 256
    ensures m.IsMarker() && m.Direction() == direction
    ensures m.Type() == if isExit then MAZE_ELEMENT_TYPE_EXIT else MAZE_ELEMENT_TYPE_ENTRANCE
    ensures m.x == MazeOffset(at.x, start.x) && m.y == MazeOffset(at.y, start.y)
  {
    MazeElement(MazeOffset(at.x, start.x), MazeOffset(at.y, start.y),
                MarkerEntry(direction, if isExit then MAZE_ELEMENT_TYPE_EXIT else MAZE_ELEMENT_TYPE_ENTRANCE))
  }

  /**
   * Maze placement is a rigid motion of the captured cells: a cell within
   * a signed byte of tiles from the first tile lands at the placement
   * position plus its map offset from the first tile, turned by the
   * rotation; unrotated at the first tile, it lands where it was.
   */
  lemma {:induction false} MazeCellPlacement(at: XY, start: XY, entry: Word16, rotation: nat, coords: XYZ)
    requires at.x % 32 == 0 && at.y % 32 == 0 && start.x % 32 == 0 && start.y % 32 == 0
    requires -128 * 32 <= at.x - start.x < 128 * 32 && -128 * 32 <= at.y - start.y < 128 * 32
    ensures PlacedMazeXY(CaptureMazeCell(at, start, entry), rotation, coords)
            == Add(Rotate(Sub(at, start), rotation), Flat(coords))
    ensures rotation % 4 == 0 && Flat(coords) == start ==>
            PlacedMazeXY(CaptureMazeCell(at, start, entry), rotation, coords) == at
  {
    var m := CaptureMazeCell(at, start, entry);
    assert (at.x - start.x) % 32 == 0 by {
      assert at.x - start.x == 32 * (at.x / 32 - start.x / 32);
    }
    assert (at.y - start.y) % 32 == 0 by {
      assert at.y - start.y == 32 * (at.y / 32 - start.y / 32);
    }
    assert ToCoords(XY(m.x, m.y)) == Sub(at, start);
  }

  // ---------------------------------------------------------------------
  // Scenery

  /** `(v - s) & 3` on bytes: a two-bit direction field turned back by `s` quarter turns. */
  function Turn(v: bv8, s: bv8): (r: bv8)
    ensures r < 4 && (r + s) & 3 == v & 3
  {
    (v - s) & 3
  }

  /** Paths: the slope direction in bits 5-6 turned back, the edge nibble rotated right, bits 4 and 7 kept. */
  function CapturePathFlags(f: bv8, saveDirection: nat): (r: bv8)
    requires saveDirection < 4
    ensures r & 0x90 == f & 0x90
    ensures r & 0x0F == EdgesRotateRight(f, saveDirection)
    ensures (((r >> 5) & 3) + saveDirection as bv8) & 3 == (f >> 5) & 3
  {
    var slope := Turn((f & 0x60) >> 5, saveDirection as bv8);
    var withSlope := (f & 0x9F) | (slope << 5);
    (withSlope & 0xF0) | EdgesRotateRight(f, saveDirection)
  }

  /** Walls: the direction in bits 0-1 turned back, the other six bits kept. */
  function CaptureWallFlags(f: bv8, saveDirection: nat): (r: bv8)
    requires saveDirection < 4
    ensures r & 0xFC == f & 0xFC
    ensures ((r & 3) + saveDirection as bv8) & 3 == f & 3
  {
    (f & 0xFC) | Turn(f & 3, saveDirection as bv8)
  }

  /** Other scenery: direction (bits 0-1) and quadrant (bits 2-3) each turned back, the upper nibble kept. */
  function CaptureObjectFlags(f: bv8, saveDirection: nat): (r: bv8)
    requires saveDirection < 4
    ensures r & 0xF0 == f & 0xF0
    ensures ((r & 3) + saveDirection as bv8) & 3 == f & 3
    ensures (((r >> 2) & 3) + saveDirection as bv8) & 3 == (f >> 2) & 3
  {
    var s := saveDirection as bv8;
    (f & 0xF0) | Turn(f & 3, s) | (Turn((f & 0x0C) >> 2, s) << 2)
  }

  /** The flag byte of a captured scenery element, by the object type its descriptor names. */
  function CaptureSceneryFlags(kind: ObjectType, f: bv8, saveDirection: nat): bv8
    requires saveDirection < 4
  {
    match kind
    case Paths => CapturePathFlags(f, saveDirection)
    case Walls => CaptureWallFlags(f, saveDirection)
    case _ => CaptureObjectFlags(f, saveDirection)
  }

  /**
   * The scenery element's tile offset before narrowing: its absolute tile
   * (the saved coordinates read as unsigned bytes) relative to the origin,
   * rotated back, and truncated to tiles.
   */
  function SceneryOffset(s: SceneryElement, origin: XYZ, saveDirection: nat): XY
  {
    ToTile(Rotate(Sub(ToCoords(XY(Uint8(s.x), Uint8(s.y))), Flat(origin)), 0 - saveDirection))
  }

  /** A captured scenery element as the loop leaves it, and whether it fitted the window. */
  datatype CapturedScenery = CapturedScenery(element: SceneryElement, ok: bool)

  /**
   * One step of the scenery capture loop. The flags are rewritten first; a
   * tile offset outside the window stops with only the flags rewritten, a
   * relative height outside it stops with the height not yet rewritten.
   */
  function CaptureScenery(s: SceneryElement, origin: XYZ, saveDirection: nat): (r: CapturedScenery)
    requires saveDirection < 4
    ensures r.element.flags == CaptureSceneryFlags(s.sceneryObject.kind, s.flags, saveDirection)
    ensures r.element.sceneryObject == s.sceneryObject
    ensures r.element.primaryColour == s.primaryColour && r.element.secondaryColour == s.secondaryColour
    ensures var t := SceneryOffset(s, origin, saveDirection);
      && (InWindow(t.x) && InWindow(t.y) ==> r.element.x == t.x && r.element.y == t.y)
      && (!(InWindow(t.x) && InWindow(t.y)) ==> !r.ok && r.element.x == s.x && r.element.y == s.y)
    ensures r.ok <==> var t := SceneryOffset(s, origin, saveDirection);
      InWindow(t.x) && InWindow(t.y) && InWindow(RelativeHeight(s.z * 8, origin.z))
    ensures r.ok ==> r.element.z == RelativeHeight(s.z * 8, origin.z)
    ensures !r.ok ==> r.element.z == s.z
  {
    var flagged := s.(flags := CaptureSceneryFlags(s.sceneryObject.kind, s.flags, saveDirection));
    var t := SceneryOffset(s, origin, saveDirection);
    if !(InWindow(t.x) && InWindow(t.y)) then CapturedScenery(flagged, false)
    else
      var moved := flagged.(x := t.x, y := t.y);
      var z := RelativeHeight(s.z * 8, origin.z);
      if !InWindow(z) then CapturedScenery(moved, false)
      else CapturedScenery(moved.(z := z), true)
  }

  /** A field turned back by `s` and then placed with rotation `s` reads as the original field. */
  lemma {:induction false} TurnedFieldRoundTrip(r: bv8, v: bv8, saveDirection: nat)
    requires saveDirection < 4
    requires ((r & 3) + saveDirection as bv8) & 3 == v & 3
    ensures (saveDirection + (r & 3) as nat) % 4 == (v & 3) as nat
  {
    var s := saveDirection as bv8;
    AddSmall(r & 3, s);
    Low2((r & 3) + s);
    Low2(v);
    assert ((v & 3) & 3) == v & 3;
    Low2(v & 3);
  }

  /** A captured wall's placed direction is its original one, and its tertiary colour bits are kept. */
  lemma {:induction false} WallFlagsRoundTrip(f: bv8, saveDirection: nat)
    requires saveDirection < 4
    ensures var r := CaptureWallFlags(f, saveDirection);
      PlacedDirection(saveDirection, r) == (f & 3) as nat && r >> 2 == f >> 2
  {
    var r := CaptureWallFlags(f, saveDirection);
    TurnedFieldRoundTrip(r, f, saveDirection);
    assert r >> 2 == (r & 0xFC) >> 2;
    assert f >> 2 == (f & 0xFC) >> 2;
  }

  /** A captured scenery object's placed direction and quadrant are its original ones. */
  lemma {:induction false} ObjectFlagsRoundTrip(f: bv8, saveDirection: nat)
    requires saveDirection < 4
    ensures var r := CaptureObjectFlags(f, saveDirection);
      && PlacedDirection(saveDirection, r) == (f & 3) as nat
      && PlacedQuadrant(saveDirection, r) == ((f >> 2) & 3) as nat
  {
    var r := CaptureObjectFlags(f, saveDirection);
    TurnedFieldRoundTrip(r, f, saveDirection);
    TurnedFieldRoundTrip(r >> 2, f >> 2, saveDirection);
  }

  /** The path byte placement builds from a captured path is the byte that was captured. */
  lemma {:induction false} PathFlagsRoundTrip(f: bv8, saveDirection: nat)
    requires saveDirection < 4
    ensures PlacedPathByte(CapturePathFlags(f, saveDirection), saveDirection) == f
  {
    var r := CapturePathFlags(f, saveDirection);
    var p := PlacedPathByte(r, saveDirection);
    EdgesRoundTrip(f, saveDirection);
    EdgesReadLowNibble(r, EdgesRotateRight(f, saveDirection), saveDirection);
    assert p & 0x0F == f & 0x0F;
    assert p & 0x90 == f & 0x90;
    assert (p >> 5) & 3 == (f >> 5) & 3 by {
      TurnedFieldRoundTrip(r >> 5, f >> 5, saveDirection);
      SameField(p >> 5, f >> 5);
    }
    PathByteParts(p, f);
  }

  /** The left edge rotation reads only the low nibble. */
  lemma EdgesReadLowNibble(a: bv8, b: bv8, rotation: nat)
    requires rotation < 4 && a & 0x0F == b & 0x0F
    ensures EdgesRotateLeft(a, rotation) == EdgesRotateLeft(b, rotation)
  {
  }

  /** Two-bit fields with the same value are equal. */
  lemma SameField(a: bv8, b: bv8)
    requires (a & 3) as nat == (b & 3) as nat
    ensures a & 3 == b & 3
  {
  }

  /** Two bytes that agree on the edge nibble, bits 4 and 7 and the slope field are equal. */
  lemma PathByteParts(p: bv8, f: bv8)
    requires p & 0x0F == f & 0x0F && p & 0x90 == f & 0x90 && (p >> 5) & 3 == (f >> 5) & 3
    ensures p == f
  {
  }

  /**
   * With a tile-aligned origin, a captured scenery element inside the window
   * is placed on the tile it was captured from.
   */
  lemma {:induction false} SceneryPositionRoundTrip(s: SceneryElement, origin: XYZ, saveDirection: nat)
    requires saveDirection < 4
    requires origin.x % 32 == 0 && origin.y % 32 == 0
    requires CaptureScenery(s, origin, saveDirection).ok
    ensures PlacedSceneryTile(CaptureScenery(s, origin, saveDirection).element, saveDirection, origin)
            == XY(Uint8(s.x), Uint8(s.y))
  {
    var tile := XY(Uint8(s.x), Uint8(s.y));
    var o := XY(origin.x / 32, origin.y / 32);
    assert Flat(origin) == ToCoords(o);
    var d := Sub(tile, o);
    assert Sub(ToCoords(tile), Flat(origin)) == ToCoords(d);
    RotateScale(d, 0 - saveDirection);
    var e := Rotate(d, 0 - saveDirection);
    ToTileToCoords(e);
    ToTileToCoords(o);
    assert SceneryOffset(s, origin, saveDirection) == e;
    var c := CaptureScenery(s, origin, saveDirection).element;
    assert XY(c.x, c.y) == e;
    assert PlacedSceneryTile(c, saveDirection, origin) == Add(o, Rotate(e, saveDirection));
    RotateInverse(d, saveDirection);
  }

  /** With an origin on a height step, a captured scenery element's height is placed back exactly. */
  lemma {:induction false} SceneryHeightRoundTrip(s: SceneryElement, origin: XYZ, saveDirection: nat)
    requires saveDirection < 4
    requires origin.z % 8 == 0
    requires CaptureScenery(s, origin, saveDirection).ok
    ensures PlacedSceneryZ(CaptureScenery(s, origin, saveDirection).element, origin.z) == s.z * 8
  {
    assert (s.z * 8 - origin.z) % 8 == 0 by {
      assert s.z * 8 - origin.z == 8 * (s.z - origin.z / 8);
    }
  }
}

/**
 * The per-element rewrites of `track_design_mirror_*`: each mirrors one
 * element of a design across the x axis. Mirroring twice restores every
 * element under the conditions the lemmas state.
 */
module Mirror {
  import opened Common
  import opened Geometry
  import opened Bits
  import opened Records
  import opened World

  // ---------------------------------------------------------------------
  // Track pieces and entrances (track_design_mirror_ride)

  /** A track piece becomes its descriptor's mirror piece; its flags are kept. */
  function MirrorTrackElement(descriptor: nat -> TrackDescriptor, t: TrackElement): (r: TrackElement)
    ensures r.flags == t.flags
  {
    t.(trackType := descriptor(t.trackType).mirrorElement)
  }

  /** Mirroring a piece twice restores it when the mirror table pairs pieces up. */
  lemma MirrorTrackElementInvolution(descriptor: nat -> TrackDescriptor, t: TrackElement)
    requires descriptor(descriptor(t.trackType).mirrorElement).mirrorElement == t.trackType
    ensures MirrorTrackElement(descriptor, MirrorTrackElement(descriptor, t)) == t
  {
  }

  /** `direction_reverse`. */
  function DirectionReverse(d: bv8): bv8 { d ^ 2 }

  /**
   * Entrance: y is negated (as a 16-bit value) and an odd direction, one
   * along the mirrored axis, is reversed; x, z and the kind are kept.
   */
  function MirrorEntrance(e: EntranceElement): (r: EntranceElement)
    ensures r.x == e.x && r.z == e.z && r.isExit == e.isExit
    ensures r.direction & 1 == e.direction & 1
    ensures e.direction & 1 == 0 ==> r.direction == e.direction
    ensures -0x8000 < e.y ==> r.y == -e.y
  {
    var d := if e.direction & 1 != 0 then DirectionReverse(e.direction) else e.direction;
    e.(y := Int16(-(e.y as int)), direction := d)
  }

  /** Mirroring an entrance twice restores it. */
  lemma {:induction false} MirrorEntranceInvolution(e: EntranceElement)
    ensures MirrorEntrance(MirrorEntrance(e)) == e
  {
    Int16NegateTwice(e.y);
  }

  /** An odd direction is reversed: the quarter turn it encodes goes to the opposite side. */
  lemma MirrorEntranceReversesOddDirection(e: EntranceElement)
    requires e.direction & 1 == 1
    ensures (MirrorEntrance(e).direction & 3) as int == ((e.direction & 3) as int + 2) % 4
  {
  }

  // ---------------------------------------------------------------------
  // Maze cells and markers (track_design_mirror_maze)

  /** The marker rule: bit 1 of the direction byte flips when bit 0 is set. */
  function MirrorMarkerEntry(w: Word16): (r: Word16)
    ensures r[8..] == w[8..]
    ensures forall i | 0 <= i < 16 && i != 1 :: r[i] == w[i]
  {
    if w[0] then w[1 := !w[1]] else w
  }

  /**
   * Maze element: y is negated (as a signed byte); a marker gets its
   * direction reversed when it is odd; a wall cell gets its wall mask mirrored.
   */
  function MirrorMazeElement(m: MazeElement): (r: MazeElement)
    ensures r.x == m.x
    ensures -128 < m.y ==> r.y == -m.y
    ensures m.IsMarker() ==> r.IsMarker() && r.Type() == m.Type()
    ensures !m.IsMarker() ==> r.entry == MirrorWord(m.entry)
  {
    var y := Int8(-(m.y as int));
    if m.IsMarker() then
      var e := MirrorMarkerEntry(m.entry);
      MazeElement(m.x, y, e)
    else
      MazeElement(m.x, y, MirrorWord(m.entry))
  }

  /** Mirroring a marker keeps the direction's parity and reverses an odd direction. */
  lemma {:induction false} MirrorMarkerDirection(m: MazeElement)
    requires m.IsMarker()
    ensures MirrorMazeElement(m).Direction() % 2 == m.Direction() % 2
    ensures m.Direction() % 2 == 1 ==> MirrorMazeElement(m).Direction() % 4 == (m.Direction() % 4 + 2) % 4
    ensures m.Direction() % 2 == 0 ==> MirrorMazeElement(m) .entry == m.entry
  {
    var r := MirrorMazeElement(m);
    ValueOfLowTwo(m.entry[..8]);
    ValueOfLowTwo(r.entry[..8]);
  }

  /**
   * Mirroring a maze element twice restores it, for a marker and for a wall
   * cell whose mirrored mask is not itself read as a marker.
   */
  lemma {:induction false} MirrorMazeElementInvolution(m: MazeElement)
    requires !m.IsMarker() ==> !MazeElement(m.x, m.y, MirrorWord(m.entry)).IsMarker()
    ensures MirrorMazeElement(MirrorMazeElement(m)) == m
  {
    Int8NegateTwice(m.y);
    if !m.IsMarker() {
      MirrorWordInvolution(m.entry);
      assert MirrorMazeElement(m).Type() == MazeElement(m.x, m.y, MirrorWord(m.entry)).Type();
    } else {
      var w := m.entry;
      assert MirrorMarkerEntry(MirrorMarkerEntry(w)) == w;
    }
  }

  /** The wall mask 0x4800: segments 11 and 14. */
  const WALLS_11_14: Word16 :=
    [false, false, false, false, false, false, false, false, false, false, false, true, false, false, true, false]

  /** The wall mask 0x8040: segments 6 and 15. */
  const WALLS_6_15: Word16 :=
    [false, false, false, false, false, false, true, false, false, false, false, false, false, false, false, true]

  lemma HighByteOfWalls11And14()
    ensures HighByte(WALLS_11_14) == 0x48
  {
    var h := WALLS_11_14[8..];
    assert h == [false, false, false, true, false, false, true, false];
    assert ValueOf(h[7..]) == 0;
    assert ValueOf(h[6..]) == 1 + 2 * ValueOf(h[7..]);
    assert ValueOf(h[5..]) == 2 * ValueOf(h[6..]);
    assert ValueOf(h[4..]) == 2 * ValueOf(h[5..]);
    assert ValueOf(h[3..]) == 1 + 2 * ValueOf(h[4..]);
    assert ValueOf(h[2..]) == 2 * ValueOf(h[3..]);
    assert ValueOf(h[1..]) == 2 * ValueOf(h[2..]);
    assert ValueOf(h) == 2 * ValueOf(h[1..]);
  }

  lemma HighByteOfWalls6And15()
    ensures HighByte(WALLS_6_15) == 0x80
  {
    var g := WALLS_6_15[8..];
    assert g == [false, false, false, false, false, false, false, true];
    assert ValueOf(g[7..]) == 1;
    assert ValueOf(g[6..]) == 2 * ValueOf(g[7..]);
    assert ValueOf(g[5..]) == 2 * ValueOf(g[6..]);
    assert ValueOf(g[4..]) == 2 * ValueOf(g[5..]);
    assert ValueOf(g[3..]) == 2 * ValueOf(g[4..]);
    assert ValueOf(g[2..]) == 2 * ValueOf(g[3..]);
    assert ValueOf(g[1..]) == 2 * ValueOf(g[2..]);
    assert ValueOf(g) == 2 * ValueOf(g[1..]);
  }

  lemma MirrorWalls11And14()
    ensures MirrorWord(WALLS_11_14) == WALLS_6_15
  {
    var r := MirrorWord(WALLS_11_14);
    forall q | 0 <= q < 16 ensures r[q] == WALLS_6_15[q] {
      assert r[q] == WALLS_11_14[SegmentMirrorMap[q]];
    }
  }

  /**
   * The wall mask 0x4800 (segments 11 and 14) is a wall cell, but its mirror
   * has type byte 0x80 and is read as an exit marker, so a second mirror
   * does not restore it.
   */
  lemma WallCellMirrorsToExit()
    ensures MirrorMazeElement(MazeElement(0, 0, WALLS_11_14)) == MazeElement(0, 0, WALLS_6_15)
  {
    HighByteOfWalls11And14();
    MirrorWalls11And14();
    assert Int8(-0) == 0;
  }

  lemma ExitCellMirrorsToItself()
    ensures MirrorMazeElement(MazeElement(0, 0, WALLS_6_15)) == MazeElement(0, 0, WALLS_6_15)
  {
    HighByteOfWalls6And15();
    assert !WALLS_6_15[0];
    assert Int8(-0) == 0;
  }

  lemma MirrorMazeWallBecomesExit()
    ensures var m := MazeElement(0, 0, WALLS_11_14);
      && !m.IsMarker()
      && MirrorMazeElement(m).Type() == MAZE_ELEMENT_TYPE_EXIT
      && MirrorMazeElement(MirrorMazeElement(m)) != m
  {
    HighByteOfWalls11And14();
    HighByteOfWalls6And15();
    WallCellMirrorsToExit();
    ExitCellMirrorsToItself();
    WallsDiffer();
  }

  lemma WallsDiffer()
    ensures WALLS_6_15 != WALLS_11_14
  {
    assert WALLS_6_15[11] != WALLS_11_14[11];
  }

  // ---------------------------------------------------------------------
  // Scenery (track_design_mirror_scenery)

  /** Large scenery: the least and greatest tile y offsets, each starting from 0. */
  function MinTileY(tiles: seq<XY>): (y1: int)
    ensures y1 <= 0
    ensures forall i | 0 <= i < |tiles| :: y1 <= tiles[i].y
  {
    if tiles == [] then 0 else var rest := MinTileY(tiles[1..]); if tiles[0].y < rest then tiles[0].y else rest
  }

  function MaxTileY(tiles: seq<XY>): (y2: int)
    ensures y2 >= 0
    ensures forall i | 0 <= i < |tiles| :: tiles[i].y <= y2
  {
    if tiles == [] then 0 else var rest := MaxTileY(tiles[1..]); if tiles[0].y > rest then tiles[0].y else rest
  }

  /**
   * Large scenery: the element's tile moves to the far side of the object's
   * footprint, which depends on its direction; a direction along the
   * mirrored axis is reversed.
   */
  function MirrorLargeScenery(s: SceneryElement, tiles: seq<XY>): (r: SceneryElement)
    ensures r.z == s.z && r.sceneryObject == s.sceneryObject
    ensures r.flags & 0xFD == s.flags & 0xFD
    ensures s.flags & 3 == 0 || s.flags & 3 == 2 ==> r.x == s.x && r.flags == s.flags
  {
    MoveLargeScenery(s, MinTileY(tiles), MaxTileY(tiles))
  }

  /** The move of a large scenery element whose footprint spans y offsets `y1` to `y2`. */
  function MoveLargeScenery(s: SceneryElement, y1: int, y2: int): (r: SceneryElement)
    ensures r.z == s.z && r.sceneryObject == s.sceneryObject
    ensures r.flags & 0xFD == s.flags & 0xFD
    ensures s.flags & 3 == 0 || s.flags & 3 == 2 ==> r.x == s.x && r.flags == s.flags
  {
    var x := s.x as int;
    var y := s.y as int;
    match s.flags & 3
    case 0 => s.(y := Int8(TDiv(-(y * 32 + y1) - y2, 32)))
    case 1 => s.(x := Int8(TDiv(x * 32 + y2 + y1, 32)), y := Int8(TDiv(-(y * 32), 32)), flags := s.flags ^ 2)
    case 2 => s.(y := Int8(TDiv(-(y * 32 - y2) + y1, 32)))
    case _ => s.(x := Int8(TDiv(x * 32 - y2 - y1, 32)), y := Int8(TDiv(-(y * 32), 32)), flags := s.flags ^ 2)
  }

  /** Truncating division of a whole number of tiles plus a whole-tile shift. */
  lemma TileShift(a: int, k: int)
    ensures TDiv(a * 32 + 32 * k, 32) == a + k
  {
    assert a * 32 + 32 * k == (a + k) * 32;
    TDivExact(a + k);
  }

  /** `v -> Int8(c - v)` is an involution on signed bytes. */
  lemma Int8ReflectTwice(v: Int8Value, c: int)
    ensures Int8(c - Int8(c - v as int)) == v
  {
    var w := Int8(c - v as int);
    assert ((c - v) - w) % 256 == 0;
    assert ((c - w) - v) == (c - v) - w;
    Int8Congruent(c - w, v);
  }

  /** `v -> Int8(v + c)` is undone by `v -> Int8(v - c)`. */
  lemma Int8ShiftBack(v: Int8Value, c: int)
    ensures Int8(Int8(v as int + c) - c) == v
  {
    var w := Int8(v as int + c);
    assert ((v + c) - w) % 256 == 0;
    assert (w - c) - v == -((v + c) - w);
    Int8Congruent(w - c, v);
  }

  /** Directions 0 and 2, one pass: only y moves, reflected about the footprint's centre line. */
  lemma LargeSceneryAlongOnce(s: SceneryElement, tiles: seq<XY>, k: int)
    requires MinTileY(tiles) + MaxTileY(tiles) == 32 * k
    requires s.flags & 3 == 0 || s.flags & 3 == 2
    ensures MirrorLargeScenery(s, tiles) == s.(y := Int8((if s.flags & 3 == 0 then -k else k) - s.y as int))
  {
    var y1 := MinTileY(tiles);
    var y2 := MaxTileY(tiles);
    var c := if s.flags & 3 == 0 then -k else k;
    var y := s.y as int;
    if s.flags & 3 == 0 {
      assert -(y * 32 + y1) - y2 == (-y) * 32 + 32 * c;
    } else {
      assert -(y * 32 - y2) + y1 == (-y) * 32 + 32 * c;
    }
    TileShift(-y, c);
  }

  lemma LargeSceneryAlongTwice(s: SceneryElement, tiles: seq<XY>, k: int)
    requires MinTileY(tiles) + MaxTileY(tiles) == 32 * k
    requires s.flags & 3 == 0 || s.flags & 3 == 2
    ensures MirrorLargeScenery(MirrorLargeScenery(s, tiles), tiles) == s
  {
    LargeSceneryAlongOnce(s, tiles, k);
    var r := MirrorLargeScenery(s, tiles);
    LargeSceneryAlongOnce(r, tiles, k);
    Int8ReflectTwice(s.y, if s.flags & 3 == 0 then -k else k);
  }

  /** Directions 1 and 3, one pass: x shifts by the footprint's extent, y is negated. */
  lemma LargeSceneryAcrossOnce(s: SceneryElement, tiles: seq<XY>, k: int)
    requires MinTileY(tiles) + MaxTileY(tiles) == 32 * k
    requires s.flags & 3 == 1 || s.flags & 3 == 3
    ensures MirrorLargeScenery(s, tiles)
      == s.(x := Int8(s.x as int + (if s.flags & 3 == 1 then k else -k)), y := Int8(-(s.y as int)), flags := s.flags ^ 2)
  {
    var y1 := MinTileY(tiles);
    var y2 := MaxTileY(tiles);
    var c := if s.flags & 3 == 1 then k else -k;
    var x := s.x as int;
    var y := s.y as int;
    if s.flags & 3 == 1 {
      assert x * 32 + y2 + y1 == x * 32 + 32 * c;
    } else {
      assert x * 32 - y2 - y1 == x * 32 + 32 * c;
    }
    assert -(y * 32) == (-y) * 32 + 32 * 0;
    TileShift(x, c);
    TileShift(-y, 0);
  }

  /** Toggling bit 1 of a direction across the mirrored axis swaps directions 1 and 3. */
  lemma FlipAcrossDirection(f: bv8)
    requires f & 3 == 1 || f & 3 == 3
    ensures (f ^ 2) & 3 == (if f & 3 == 1 then 3 else 1) && (f ^ 2) ^ 2 == f
  {
  }

  /** Shifting x by `c` and back, negating y twice and toggling bit 1 twice restores the element. */
  lemma AcrossRoundTrip(s: SceneryElement, r: SceneryElement, r2: SceneryElement, c: int)
    requires r == s.(x := Int8(s.x as int + c), y := Int8(-(s.y as int)), flags := s.flags ^ 2)
    requires r2 == r.(x := Int8(r.x as int + -c), y := Int8(-(r.y as int)), flags := r.flags ^ 2)
    requires (s.flags ^ 2) ^ 2 == s.flags
    ensures r2 == s
  {
    Int8ShiftBack(s.x, c);
    Int8ReflectTwice(s.y, 0);
  }

  /** Directions 1 and 3: the two passes shift x one way and back and swap the direction back. */
  lemma LargeSceneryAcrossTwice(s: SceneryElement, tiles: seq<XY>, k: int)
    requires MinTileY(tiles) + MaxTileY(tiles) == 32 * k
    requires s.flags & 3 == 1 || s.flags & 3 == 3
    ensures MirrorLargeScenery(MirrorLargeScenery(s, tiles), tiles) == s
  {
    var c := if s.flags & 3 == 1 then k else -k;
    LargeSceneryAcrossOnce(s, tiles, k);
    FlipAcrossDirection(s.flags);
    var r := MirrorLargeScenery(s, tiles);
    LargeSceneryAcrossOnce(r, tiles, k);
    AcrossRoundTrip(s, r, MirrorLargeScenery(r, tiles), c);
  }

  /** Mirroring a large scenery element twice restores it when its footprint spans whole tiles. */
  lemma {:induction false} MirrorLargeSceneryInvolution(s: SceneryElement, tiles: seq<XY>)
    requires (MinTileY(tiles) + MaxTileY(tiles)) % 32 == 0
    ensures MirrorLargeScenery(MirrorLargeScenery(s, tiles), tiles) == s
  {
    var k := (MinTileY(tiles) + MaxTileY(tiles)) / 32;
    if s.flags & 3 == 0 || s.flags & 3 == 2 {
      LargeSceneryAlongTwice(s, tiles, k);
    } else {
      LargeSceneryAcrossTwice(s, tiles, k);
    }
  }

  /**
   * Small scenery: y is negated; a diagonal object toggles bit 0 (and bit 2
   * unless it fills the tile); any other toggles bit 2 and, when bit 0 is
   * set, bit 1.
   */
  function MirrorSmallScenery(s: SceneryElement, diagonal: bool, fullTile: bool): (r: SceneryElement)
    ensures r.x == s.x && r.z == s.z && r.sceneryObject == s.sceneryObject
    ensures r.flags & 0xF8 == s.flags & 0xF8
    ensures -128 < s.y ==> r.y == -s.y
  {
    var y := Int8(-(s.y as int));
    if diagonal then
      var f := s.flags ^ 1;
      s.(y := y, flags := if !fullTile then f ^ 4 else f)
    else
      var f := if s.flags & 1 != 0 then s.flags ^ 2 else s.flags;
      s.(y := y, flags := f ^ 4)
  }

  lemma {:induction false} MirrorSmallSceneryInvolution(s: SceneryElement, diagonal: bool, fullTile: bool)
    ensures MirrorSmallScenery(MirrorSmallScenery(s, diagonal, fullTile), diagonal, fullTile) == s
  {
    Int8NegateTwice(s.y);
  }

  /** Walls: y is negated and bit 1 toggles when bit 0 is set. */
  function MirrorWall(s: SceneryElement): (r: SceneryElement)
    ensures r.x == s.x && r.z == s.z && r.sceneryObject == s.sceneryObject
    ensures r.flags & 0xFD == s.flags & 0xFD
    ensures (r.flags == s.flags) == (s.flags & 1 == 0)
    ensures -128 < s.y ==> r.y == -s.y
  {
    var f := if s.flags & 1 != 0 then s.flags ^ 2 else s.flags;
    s.(y := Int8(-(s.y as int)), flags := f)
  }

  lemma {:induction false} MirrorWallInvolution(s: SceneryElement)
    ensures MirrorWall(MirrorWall(s)) == s
  {
    Int8NegateTwice(s.y);
  }

  /**
   * Paths: y is negated, bit 6 toggles when bit 5 is set, and edge bits 1
   * and 3 swap; every other bit is kept.
   */
  function MirrorPath(s: SceneryElement): (r: SceneryElement)
    ensures r.x == s.x && r.z == s.z && r.sceneryObject == s.sceneryObject
    ensures r.flags & 0xB5 == s.flags & 0xB5
    ensures (r.flags & 2 != 0) == (s.flags & 8 != 0) && (r.flags & 8 != 0) == (s.flags & 2 != 0)
    ensures (r.flags & 0x40 != s.flags & 0x40) == (s.flags & 0x20 != 0)
    ensures -128 < s.y ==> r.y == -s.y
  {
    var f0 := if s.flags & 0x20 != 0 then s.flags ^ 0x40 else s.flags;
    var swapped := ((f0 & 8) >> 2) | ((f0 & 2) << 2);
    s.(y := Int8(-(s.y as int)), flags := (f0 & 0xF5) | swapped)
  }

  lemma {:induction false} MirrorPathInvolution(s: SceneryElement)
    ensures MirrorPath(MirrorPath(s)) == s
  {
    Int8NegateTwice(s.y);
  }

  /**
   * One scenery element, by the category of the object it resolves to; an
   * element whose object does not resolve is left as it is.
   */
  function MirrorScenery(s: SceneryElement, entry: Option<SceneryEntry>): (r: SceneryElement)
    ensures r.sceneryObject == s.sceneryObject && r.IsQueue() == s.IsQueue()
    ensures entry.None? ==> r == s
  {
    match entry
    case None => s
    case Some(e) =>
      match e.kind
      case LargeScenery => MirrorLargeScenery(s, e.largeTiles)
      case SmallScenery => MirrorSmallScenery(s, e.diagonal, e.fullTile)
      case Walls => MirrorWall(s)
      case Paths => MirrorPath(s)
      case FootpathSurface => MirrorPath(s)
      case _ => s
  }

  /**
   * Mirroring a scenery element twice restores it; the object and the queue
   * bit it is resolved by are kept, so both passes resolve it alike.
   */
  lemma {:induction false} MirrorSceneryInvolution(s: SceneryElement, entry: Option<SceneryEntry>)
    requires entry.Some? && entry.value.kind == LargeScenery ==>
      (MinTileY(entry.value.largeTiles) + MaxTileY(entry.value.largeTiles)) % 32 == 0
    ensures MirrorScenery(MirrorScenery(s, entry), entry) == s
  {
    match entry
    case None =>
    case Some(e) =>
      match e.kind
      case LargeScenery => MirrorLargeSceneryInvolution(s, e.largeTiles);
      case SmallScenery => MirrorSmallSceneryInvolution(s, e.diagonal, e.fullTile);
      case Walls => MirrorWallInvolution(s);
      case Paths => MirrorPathInvolution(s);
      case FootpathSurface => MirrorPathInvolution(s);
      case _ =>
  }

  // ---------------------------------------------------------------------
  // Whole sequences

  /** Every piece of a sequence mirrored. */
  function MirrorTrackSeq(descriptor: nat -> TrackDescriptor, s: seq<TrackElement>): (r: seq<TrackElement>)
    ensures |r| == |s|
    ensures forall i | 0 <= i < |s| :: r[i] == MirrorTrackElement(descriptor, s[i])
  {
    seq(|s|, i requires 0 <= i < |s| => MirrorTrackElement(descriptor, s[i]))
  }

  function MirrorEntranceSeq(s: seq<EntranceElement>): (r: seq<EntranceElement>)
    ensures |r| == |s|
    ensures forall i | 0 <= i < |s| :: r[i] == MirrorEntrance(s[i])
  {
    seq(|s|, i requires 0 <= i < |s| => MirrorEntrance(s[i]))
  }

  function MirrorMazeSeq(s: seq<MazeElement>): (r: seq<MazeElement>)
    ensures |r| == |s|
    ensures forall i | 0 <= i < |s| :: r[i] == MirrorMazeElement(s[i])
  {
    seq(|s|, i requires 0 <= i < |s| => MirrorMazeElement(s[i]))
  }

  /** Mirroring the ride part of a design twice restores its pieces and entrances. */
  lemma {:induction false} MirrorRideInvolution(
    descriptor: nat -> TrackDescriptor, track: seq<TrackElement>, entrances: seq<EntranceElement>)
    requires forall i | 0 <= i < |track| ::
      descriptor(descriptor(track[i].trackType).mirrorElement).mirrorElement == track[i].trackType
    ensures MirrorTrackSeq(descriptor, MirrorTrackSeq(descriptor, track)) == track
    ensures MirrorEntranceSeq(MirrorEntranceSeq(entrances)) == entrances
  {
    forall i | 0 <= i < |track| ensures MirrorTrackSeq(descriptor, MirrorTrackSeq(descriptor, track))[i] == track[i] {
      MirrorTrackElementInvolution(descriptor, track[i]);
    }
    forall i | 0 <= i < |entrances| ensures MirrorEntranceSeq(MirrorEntranceSeq(entrances))[i] == entrances[i] {
      MirrorEntranceInvolution(entrances[i]);
    }
  }

  /** Mirroring a maze twice restores it when no wall cell mirrors into a marker. */
  lemma {:induction false} MirrorMazeInvolution(maze: seq<MazeElement>)
    requires forall i | 0 <= i < |maze| ::
      !maze[i].IsMarker() ==> !MazeElement(maze[i].x, maze[i].y, MirrorWord(maze[i].entry)).IsMarker()
    ensures MirrorMazeSeq(MirrorMazeSeq(maze)) == maze
  {
    forall i | 0 <= i < |maze| ensures MirrorMazeSeq(MirrorMazeSeq(maze))[i] == maze[i] {
      MirrorMazeElementInvolution(maze[i]);
    }
  }
}

/**
 * The design object of `TrackDesign.cpp` (`TrackDesign`): capturing a built
 * ride into it (`CreateTrackDesign` and the routines it calls, then
 * `CreateTrackDesignScenery`) and mirroring it (`track_design_mirror`).
 * Each routine is a method that fills or rewrites the design's lists in
 * place, with the source's loops; each is proved to do exactly what the
 * corresponding function of `Layout` or `Mirror` says, and what those
 * functions guarantee is proved there.
 */
module Design {
  import opened Common
  import opened Geometry
  import opened Bits
  import opened Records
  import opened World
  import opened Placement
  import opened Capture
  import opened Mirror
  import opened Layout
  import Walker
  import Engine
  import Results

  /** Where capture draws the outline of the new design: `{ 4096, 4096, 0 }`. */
  const PREVIEW_ORIGIN: XYZ := XYZ(4096, 4096, 0)

  /** The map-selection flags capture clears once the outline is drawn. */
  const OUTLINE_FLAGS: set<Walker.SelectFlag> := {Walker.EnableConstruct, Walker.EnableArrow, Walker.Green}

  /** The statistics of a design nothing has been captured into. */
  const NO_STATS: DesignStats :=
    DesignStats(0, 0, [], [], 0, 0, 0, 0, 0, 0, 0, 0, 0, 0, 0, 0, 0, 0, 0, 0, 0, 0, 0, 0, 0, 0, 0)

  /**
   * The end of a successful capture: the outline placement at the preview
   * origin, the preview origin set back to the design's own origin, the
   * selection flags cleared, and the tiles the design spans along x and y.
   * Drawing the outline issues no game action, so capture leaves the map as
   * it was.
   */
  function Outline(w: World, st: Walker.PlaceState, direction: nat, sceneryToggle: bool, d: DesignRecord,
                   origin: XYZ, previewRideId: nat): (r: (Walker.PlaceState, int, int))
    requires direction < 4
    ensures r.0.log == st.log
    ensures r.0.operation == PTD_OPERATION_DRAW_OUTLINES && r.0.rideIndex == previewRideId
    ensures r.0.previewOrigin == origin && r.0.selectFlags !! OUTLINE_FLAGS
    ensures Contains(Walker.BoxOf(r.0), PREVIEW_ORIGIN)
    ensures r.1 >= 1 && (r.1 - 1) * 32 <= r.0.previewMax.x - r.0.previewMin.x < r.1 * 32
    ensures r.2 >= 1 && (r.2 - 1) * 32 <= r.0.previewMax.y - r.0.previewMin.y < r.2 * 32
  {
    Results.PlaceVirtualTrackPhase(w, st, direction, sceneryToggle, d, PTD_OPERATION_DRAW_OUTLINES, true,
                                   previewRideId, PREVIEW_ORIGIN);
    var placed := Walker.PlaceVirtualTrack(w, st, direction, sceneryToggle, d, PTD_OPERATION_DRAW_OUTLINES, true,
                                           previewRideId, PREVIEW_ORIGIN).0;
    (placed.(previewOrigin := origin, selectFlags := placed.selectFlags - OUTLINE_FLAGS),
     SpaceRequired(placed.previewMin.x, placed.previewMax.x),
     SpaceRequired(placed.previewMin.y, placed.previewMax.y))
  }

  // ---------------------------------------------------------------------
  // Searches

  /** The `do/while` over a tile's elements that stops at the first one wanted. */
  method FindFirst(elements: seq<TileElement>, wanted: Wanted) returns (r: Option<nat>)
    ensures r == FirstMatch(elements, wanted, 0)
  {
    var k := 0;
    while k < |elements| && !Matches(elements[k], wanted)
      invariant k <= |elements|
      invariant FirstMatch(elements, wanted, k) == FirstMatch(elements, wanted, 0)
      decreases |elements| - k
    {
      k := k + 1;
    }
    r := if k == |elements| then None else Some(k);
  }

  /** `MazeGetFirstElement`: the raster scan for the first track element of the ride. */
  method MazeGetFirstElement(w: World, log: seq<Issued>, rideId: nat) returns (r: Option<TileHit>)
    ensures r == FirstRideTile(w, log, rideId, 0, 0)
  {
    var y := 0;
    while y < MAP_TILES
      invariant y <= MAP_TILES
      invariant FirstRideTile(w, log, rideId, 0, y) == FirstRideTile(w, log, rideId, 0, 0)
      decreases MAP_TILES - y
    {
      var x := 0;
      while x < MAP_TILES
        invariant x <= MAP_TILES
        invariant FirstRideTile(w, log, rideId, x, y) == FirstRideTile(w, log, rideId, 0, 0)
        decreases MAP_TILES - x
      {
        var k := FindFirst(TileElements(w, log, x, y), RideTrack(rideId));
        if k.Some? {
          return Some(TileHit(x, y, k.value));
        }
        x := x + 1;
      }
      y := y + 1;
    }
    r := None;
  }

  // ---------------------------------------------------------------------
  // Mirroring helpers

  /** Large scenery: the tile loop finding the least and greatest y offset, each starting from 0. */
  method TileYBounds(tiles: seq<XY>) returns (y1: int, y2: int)
    ensures y1 == MinTileY(tiles) && y2 == MaxTileY(tiles)
  {
    y1, y2 := 0, 0;
    for i := 0 to |tiles|
      invariant y1 <= 0 <= y2
      invariant forall j | 0 <= j < i :: y1 <= tiles[j].y <= y2
      invariant y1 == 0 || exists j | 0 <= j < i :: y1 == tiles[j].y
      invariant y2 == 0 || exists j | 0 <= j < i :: y2 == tiles[j].y
    {
      if y1 > tiles[i].y {
        y1 := tiles[i].y;
      }
      if y2 < tiles[i].y {
        y2 := tiles[i].y;
      }
    }
    MinTileYAttained(tiles);
    MaxTileYAttained(tiles);
  }

  /** The least y offset is 0 or one of the offsets. */
  lemma {:induction false} MinTileYAttained(tiles: seq<XY>)
    ensures MinTileY(tiles) == 0 || exists j | 0 <= j < |tiles| :: MinTileY(tiles) == tiles[j].y
  {
    if tiles != [] && MinTileY(tiles) != tiles[0].y && MinTileY(tiles) != 0 {
      MinTileYAttained(tiles[1..]);
      var j :| 0 <= j < |tiles[1..]| && MinTileY(tiles[1..]) == tiles[1..][j].y;
      assert MinTileY(tiles) == tiles[j + 1].y;
    }
  }

  /** The greatest y offset is 0 or one of the offsets. */
  lemma {:induction false} MaxTileYAttained(tiles: seq<XY>)
    ensures MaxTileY(tiles) == 0 || exists j | 0 <= j < |tiles| :: MaxTileY(tiles) == tiles[j].y
  {
    if tiles != [] && MaxTileY(tiles) != tiles[0].y && MaxTileY(tiles) != 0 {
      MaxTileYAttained(tiles[1..]);
      var j :| 0 <= j < |tiles[1..]| && MaxTileY(tiles[1..]) == tiles[1..][j].y;
      assert MaxTileY(tiles) == tiles[j + 1].y;
    }
  }

  /** The large-scenery case of `track_design_mirror_scenery`: the footprint's y extent, then the move by direction. */
  method MirrorLargeSceneryElement(s: SceneryElement, tiles: seq<XY>) returns (r: SceneryElement)
    ensures r == MirrorLargeScenery(s, tiles)
  {
    var y1, y2 := TileYBounds(tiles);
    r := MoveLargeScenery(s, y1, y2);
  }

  /** The body of the scenery loop of `track_design_mirror_scenery` for one element. */
  method MirrorSceneryElement(s: SceneryElement, entry: Option<SceneryEntry>) returns (r: SceneryElement)
    ensures r == MirrorScenery(s, entry)
  {
    if entry.None? {
      return s;
    }
    match entry.value.kind
    case LargeScenery => r := MirrorLargeSceneryElement(s, entry.value.largeTiles);
    case SmallScenery => r := MirrorSmallScenery(s, entry.value.diagonal, entry.value.fullTile);
    case Walls => r := MirrorWall(s);
    case Paths => r := MirrorPath(s);
    case FootpathSurface => r := MirrorPath(s);
    case _ => r := s;
  }

  // ---------------------------------------------------------------------
  // The design

  class TrackDesign {
    var rideType: nat
    var vehicleObject: Option<ObjectDescriptor>
    var stats: DesignStats
    var flags: nat
    var flags2: nat
    var trackElements: seq<TrackElement>
    var entranceElements: seq<EntranceElement>
    var mazeElements: seq<MazeElement>
    var sceneryElements: seq<SceneryElement>
    var spaceRequiredX: int
    var spaceRequiredY: int
    /** `_saveDirection`: the direction capture measures every other direction from. */
    var saveDirection: Engine.Direction

    /** The parts of the design placement reads. */
    function Record(): DesignRecord
      reads this
    {
      DesignRecord(rideType, trackElements, entranceElements, mazeElements, sceneryElements)
    }

    /** The parts of the design the ride capture writes. */
    function LayoutOf(): Layout
      reads this
    {
      Layout(trackElements, entranceElements, mazeElements, saveDirection)
    }

    /** An empty design. */
    constructor()
      ensures Record() == DesignRecord(0, [], [], [], []) && saveDirection == 0
      ensures vehicleObject == None && stats == NO_STATS && flags == 0 && flags2 == 0
      ensures spaceRequiredX == 0 && spaceRequiredY == 0
    {
      rideType, vehicleObject, stats, flags, flags2 := 0, None, NO_STATS, 0, 0;
      trackElements, entranceElements, mazeElements, sceneryElements := [], [], [], [];
      spaceRequiredX, spaceRequiredY, saveDirection := 0, 0, 0;
    }

    /**
     * What a capture of the ride leaves: the layout `c` describes, and on
     * success the outline drawn from the engine state `st` with the
     * design's origin, or else the engine with only the preview origin set
     * (if capture got that far) and the space required untouched.
     */
    predicate AfterCapture(engine: Engine.TrackDesignState, st: Walker.PlaceState, c: LayoutCapture, status: Status,
                       previewRideId: nat, space: (int, int))
      reads this, engine
    {
      var st1 := if c.origin.Some? then st.(previewOrigin := c.origin.value) else st;
      && LayoutOf() == c.layout && status == c.status
      && if status == Ok && c.origin.Some? then
           (engine.View(), spaceRequiredX, spaceRequiredY)
           == Outline(engine.world, st1, engine.currentTrackPieceDirection, engine.sceneryToggle, Record(),
                      c.origin.value, previewRideId)
         else engine.View() == st1 && (spaceRequiredX, spaceRequiredY) == space
    }

    // -------------------------------------------------------------------
    // Track capture

    /** The `do/while` walk of `CreateTrackDesignTrack` from `start` back to it or to the end of the track. */
    method WalkTrack(w: World, ride: Ride, start: TrackCursor) returns (ok: bool)
      modifies this`trackElements
      ensures (trackElements, ok) == TrackWalk(w, ride, start, start.element, old(trackElements))
    {
      var g := ride.track;
      var cur := start;
      while true
        invariant TrackWalk(w, ride, cur, start.element, trackElements)
                  == TrackWalk(w, ride, start, start.element, old(trackElements))
        decreases TD6_MAX_TRACK_ELEMENTS - |trackElements|
      {
        trackElements := trackElements + [PieceRecord(w, ride, g.piece(cur.element))];
        var n := g.next(cur);
        if n.None? {
          return true;
        }
        var found := g.originOf(n.value);
        if found.None? {
          return true;
        }
        cur := TrackCursor(found.value.0.x, found.value.0.y, found.value.1);
        if |trackElements| > TD6_MAX_TRACK_ELEMENTS {
          return false;
        }
        if cur.element == start.element {
          return true;
        }
      }
    }

    /** The entrance (or exit) of one station, measured from `origin` and the saved direction. */
    method StationEntranceOf(w: World, log: seq<Issued>, ride: Ride, origin: XYZ, station: nat, isExit: bool)
      returns (c: EntranceCapture)
      ensures c == StationEntrance(w, log, ride, origin, saveDirection, station, isExit)
    {
      if station >= |ride.stations| {
        return Skipped;
      }
      var s := ride.stations[station];
      var location := if isExit then s.exit else s.entrance;
      if location.None? {
        return Skipped;
      }
      var elements := w.elementsAt(log, ToCoords(location.value));
      var k := FindFirst(elements, EntranceAtHeight(s.baseZ));
      if k.None? {
        return Skipped;
      }
      var e := CaptureEntrance(location.value, elements[k.value].direction, s.baseZ, origin, saveDirection, isExit);
      c := if e.None? then OutOfWindow else Captured(e.value);
    }

    /** The two entrance loops of `CreateTrackDesignTrack`: first the entrances, then the exits. */
    method CaptureEntrances(w: World, log: seq<Issued>, ride: Ride, origin: XYZ) returns (ok: bool)
      modifies this`entranceElements
      ensures (entranceElements, ok)
              == EntrancesFrom(Slots(w, log, ride, origin, saveDirection), 0, old(entranceElements))
    {
      ghost var slots := Slots(w, log, ride, origin, saveDirection);
      for i := 0 to 2
        invariant EntrancesFrom(slots, RCT12_MAX_STATIONS_PER_RIDE * i, entranceElements)
                  == EntrancesFrom(slots, 0, old(entranceElements))
      {
        for station := 0 to RCT12_MAX_STATIONS_PER_RIDE
          invariant EntrancesFrom(slots, RCT12_MAX_STATIONS_PER_RIDE * i + station, entranceElements)
                    == EntrancesFrom(slots, 0, old(entranceElements))
        {
          var c := StationEntranceOf(w, log, ride, origin, station, i == 1);
          assert c == slots[RCT12_MAX_STATIONS_PER_RIDE * i + station];
          match c
          case Skipped =>
          case OutOfWindow =>
            return false;
          case Captured(e) =>
            entranceElements := entranceElements + [e];
        }
      }
      ok := true;
    }

    /** `CreateTrackDesignTrack` up to the outline placement. */
    method CaptureTrackLayout(engine: Engine.TrackDesignState, ride: Ride) returns (status: Status, origin: Option<XYZ>)
      modifies this`trackElements, this`entranceElements, this`saveDirection, engine`previewOrigin
      ensures LayoutCapture(LayoutOf(), status, origin) == TrackLayout(engine.world, engine.log, ride, old(LayoutOf()))
      ensures engine.View() == if origin.Some? then old(engine.View()).(previewOrigin := origin.value)
                               else old(engine.View())
    {
      var w := engine.world;
      var g := ride.track;
      if g.originElement.None? {
        return TooLargeOrTooMuchScenery, None;
      }
      var c := g.startOfTrack(g.originElement.value);
      saveDirection := g.piece(c.element).direction % 4;
      var found := g.originOf(c);
      if found.None? {
        return TooLargeOrTooMuchScenery, None;
      }
      var (pos, element) := found.value;
      var ted := w.descriptor(g.piece(element).trackType);
      var startPos := XYZ(pos.x, pos.y, pos.z + ted.coordinates.zBegin - ted.firstBlock.z);
      engine.previewOrigin := startPos;
      origin := Some(startPos);
      var ok := WalkTrack(w, ride, TrackCursor(pos.x, pos.y, element));
      if !ok {
        status := TooLargeOrTooMuchScenery;
        return;
      }
      ok := CaptureEntrances(w, engine.log, ride, startPos);
      status := if ok then Ok else TooLargeOrTooMuchScenery;
    }

    // -------------------------------------------------------------------
    // Maze capture

    /** The `do/while` over one tile's elements in `CreateTrackDesignMaze`. */
    method CaptureTileCells(elements: seq<TileElement>, rideId: nat, at: XY, start: XY) returns (ok: bool)
      modifies this`mazeElements, this`saveDirection
      ensures (mazeElements, saveDirection as nat, ok)
              == TileCells(elements, rideId, at, start, 0, old(mazeElements), old(saveDirection))
    {
      for k := 0 to |elements|
        invariant TileCells(elements, rideId, at, start, k, mazeElements, saveDirection)
                  == TileCells(elements, rideId, at, start, 0, old(mazeElements), old(saveDirection))
      {
        var e := elements[k];
        if Matches(e, RideTrack(rideId)) {
          mazeElements := mazeElements + [CaptureMazeCell(at, start, e.mazeEntry)];
          saveDirection := e.direction % 4;
          if |mazeElements| >= MAZE_ELEMENT_LIMIT {
            return false;
          }
        }
      }
      ok := true;
    }

    /** The raster scan of `CreateTrackDesignMaze`, from the first tile of the ride to the end of the map. */
    method ScanMaze(w: World, log: seq<Issued>, rideId: nat, start: XY, first: TileHit) returns (ok: bool)
      requires first.x <= MAP_TILES && first.y <= MAP_TILES
      modifies this`mazeElements, this`saveDirection
      ensures (mazeElements, saveDirection as nat, ok)
              == MazeScan(w, log, rideId, start, first.x, first.y, old(mazeElements), old(saveDirection))
    {
      var x: nat, y: nat := first.x, first.y;
      while y < MAP_TILES
        invariant x <= MAP_TILES && y <= MAP_TILES
        invariant MazeScan(w, log, rideId, start, x, y, mazeElements, saveDirection)
                  == MazeScan(w, log, rideId, start, first.x, first.y, old(mazeElements), old(saveDirection))
        decreases MAP_TILES - y
      {
        while x < MAP_TILES
          invariant x <= MAP_TILES
          invariant MazeScan(w, log, rideId, start, x, y, mazeElements, saveDirection)
                    == MazeScan(w, log, rideId, start, first.x, first.y, old(mazeElements), old(saveDirection))
          decreases MAP_TILES - x
        {
          ok := CaptureTileCells(TileElements(w, log, x, y), rideId, XY(x * COORDS_XY_STEP, y * COORDS_XY_STEP), start);
          if !ok {
            return;
          }
          x := x + 1;
        }
        x := 0;
        y := y + 1;
      }
      ok := true;
    }

    /** The entrance (or exit) marker search of `CreateTrackDesignMaze`. */
    method FindMazeMarker(w: World, log: seq<Issued>, ride: Ride, start: XY, isExit: bool)
      returns (m: Option<MazeElement>)
      ensures m == MazeMarkerOf(w, log, ride, start, isExit)
    {
      if |ride.stations| == 0 {
        return None;
      }
      var location := if isExit then ride.stations[0].exit else ride.stations[0].entrance;
      if location.None? {
        return None;
      }
      var at := ToCoords(location.value);
      var elements := w.elementsAt(log, at);
      var k := FindFirst(elements, MazeMarker(if isExit then RideExit else RideEntrance, ride.id));
      if k.None? {
        return None;
      }
      m := Some(CaptureMazeMarker(at, start, elements[k.value].direction % 4, isExit));
    }

    /** `CreateTrackDesignMaze` up to the outline placement. */
    method CaptureMazeLayout(engine: Engine.TrackDesignState, ride: Ride) returns (status: Status, origin: Option<XYZ>)
      modifies this`mazeElements, this`saveDirection, engine`previewOrigin
      ensures LayoutCapture(LayoutOf(), status, origin) == MazeLayout(engine.world, engine.log, ride, old(LayoutOf()))
      ensures engine.View() == if origin.Some? then old(engine.View()).(previewOrigin := origin.value)
                               else old(engine.View())
    {
      var w, log := engine.world, engine.log;
      var first := MazeGetFirstElement(w, log, ride.id);
      if first.None? {
        return TooLargeOrTooMuchScenery, None;
      }
      var hit := first.value;
      var start := XY(hit.x * COORDS_XY_STEP, hit.y * COORDS_XY_STEP);
      origin := Some(WithZ(start, TileElements(w, log, hit.x, hit.y)[hit.element].BaseZ()));
      engine.previewOrigin := origin.value;
      status := CaptureMazeCells(w, log, ride, start, hit);
    }

    /** `CreateTrackDesignMaze` from the first tile on: the scan, then the entrance and the exit. */
    method CaptureMazeCells(w: World, log: seq<Issued>, ride: Ride, start: XY, hit: TileHit) returns (status: Status)
      requires hit.x <= MAP_TILES && hit.y <= MAP_TILES
      modifies this`mazeElements, this`saveDirection
      ensures (LayoutOf(), status) == MazeCells(w, log, ride, start, hit, old(LayoutOf()))
    {
      var ok := ScanMaze(w, log, ride.id, start, hit);
      if !ok {
        return TooLargeOrTooMuchScenery;
      }
      status := CaptureMazeMarkers(w, log, ride, start);
    }

    /** The entrance and exit search at the end of `CreateTrackDesignMaze`. */
    method CaptureMazeMarkers(w: World, log: seq<Issued>, ride: Ride, start: XY) returns (status: Status)
      modifies this`mazeElements
      ensures (LayoutOf(), status) == MazeMarkers(w, log, ride, start, old(LayoutOf()))
    {
      status := TooLargeOrTooMuchScenery;
      var entrance := FindMazeMarker(w, log, ride, start, false);
      if entrance.None? {
        return;
      }
      var exit := FindMazeMarker(w, log, ride, start, true);
      if exit.None? {
        mazeElements := mazeElements + [entrance.value];
        return;
      }
      mazeElements := mazeElements + [entrance.value, exit.value];
      status := Ok;
    }

    // -------------------------------------------------------------------
    // Finishing a capture

    /** The tail shared by both captures: on success, draw the outline and measure the design. */
    method FinishCapture(engine: Engine.TrackDesignState, status: Status, origin: Option<XYZ>, previewRideId: nat)
      modifies this`spaceRequiredX, this`spaceRequiredY, engine
      ensures if status == Ok && origin.Some? then
                (engine.View(), spaceRequiredX, spaceRequiredY)
                == Outline(engine.world, old(engine.View()), engine.currentTrackPieceDirection, engine.sceneryToggle,
                           Record(), origin.value, previewRideId)
              else engine.View() == old(engine.View())
                   && spaceRequiredX == old(spaceRequiredX) && spaceRequiredY == old(spaceRequiredY)
    {
      if status != Ok || origin.None? {
        return;
      }
      DrawOutline(engine, origin.value, previewRideId);
      spaceRequiredX := SpaceRequired(engine.previewMin.x, engine.previewMax.x);
      spaceRequiredY := SpaceRequired(engine.previewMin.y, engine.previewMax.y);
    }

    /** The outline placement at the preview origin, then the origin and the selection flags reset. */
    method DrawOutline(engine: Engine.TrackDesignState, origin: XYZ, previewRideId: nat)
      modifies engine
      ensures engine.View() == Outline(engine.world, old(engine.View()), engine.currentTrackPieceDirection,
                                       engine.sceneryToggle, Record(), origin, previewRideId).0
    {
      var outlineCost := engine.PlaceVirtualTrack(Record(), PTD_OPERATION_DRAW_OUTLINES, true, previewRideId,
                                                  PREVIEW_ORIGIN);
      engine.previewOrigin := origin;
      engine.selectFlags := engine.selectFlags - OUTLINE_FLAGS;
    }

    /** `CreateTrackDesignTrack`. */
    method CreateTrackDesignTrack(engine: Engine.TrackDesignState, ride: Ride, previewRideId: nat)
      returns (status: Status)
      modifies this`trackElements, this`entranceElements, this`saveDirection, this`spaceRequiredX,
               this`spaceRequiredY, engine
      ensures AfterCapture(engine, old(engine.View()), TrackLayout(engine.world, old(engine.log), ride, old(LayoutOf())),
                       status, previewRideId, (old(spaceRequiredX), old(spaceRequiredY)))
    {
      var origin;
      status, origin := CaptureTrackLayout(engine, ride);
      FinishCapture(engine, status, origin, previewRideId);
    }

    /** `CreateTrackDesignMaze`. */
    method CreateTrackDesignMaze(engine: Engine.TrackDesignState, ride: Ride, previewRideId: nat)
      returns (status: Status)
      modifies this`mazeElements, this`saveDirection, this`spaceRequiredX, this`spaceRequiredY, engine
      ensures AfterCapture(engine, old(engine.View()), MazeLayout(engine.world, old(engine.log), ride, old(LayoutOf())),
                       status, previewRideId, (old(spaceRequiredX), old(spaceRequiredY)))
    {
      var origin;
      status, origin := CaptureMazeLayout(engine, ride);
      FinishCapture(engine, status, origin, previewRideId);
    }

    /**
     * `CreateTrackDesign`: a ride whose vehicle object is a JSON-only object is
     * refused with only the ride type recorded; otherwise the vehicle object
     * (when there is one) and the statistics are recorded, both flag words
     * cleared, and the maze or the track captured.
     */
    method CreateTrackDesign(engine: Engine.TrackDesignState, ride: Ride, previewRideId: nat) returns (status: Status)
      requires ride.stats.totalAirTime < 0x1_0000
      modifies this`rideType, this`vehicleObject, this`stats, this`flags, this`flags2, this`trackElements,
               this`entranceElements, this`mazeElements, this`saveDirection, this`spaceRequiredX, this`spaceRequiredY,
               engine
      ensures rideType == ride.rideType
      ensures ride.vehicleObject.JsonOnlyObject? ==>
                status == UnknownObjectType
                && unchanged(this`vehicleObject, this`stats, this`flags, this`flags2, this`trackElements,
                             this`entranceElements, this`mazeElements, this`saveDirection, this`spaceRequiredX,
                             this`spaceRequiredY, engine)
      ensures !ride.vehicleObject.JsonOnlyObject? ==>
                && vehicleObject == (if ride.vehicleObject.LegacyObject? then Some(ride.vehicleObject.descriptor)
                                     else old(vehicleObject))
                && stats == CaptureStatistics(ride.stats) && flags == 0 && flags2 == 0
                && AfterCapture(engine, old(engine.View()), RideLayout(engine.world, old(engine.View()).log, ride, old(LayoutOf())),
                            status, previewRideId, (old(spaceRequiredX), old(spaceRequiredY)))
    {
      rideType := ride.rideType;
      if ride.vehicleObject.JsonOnlyObject? {
        return UnknownObjectType;
      }
      ghost var layout, st, space := LayoutOf(), engine.View(), (spaceRequiredX, spaceRequiredY);
      RecordAttributes(ride);
      status := CaptureRide(engine, ride, previewRideId, st, layout, space);
    }

    /** The vehicle object and the statistics `CreateTrackDesign` copies before capturing the layout. */
    method RecordAttributes(ride: Ride)
      requires ride.stats.totalAirTime < 0x1_0000
      modifies this`vehicleObject, this`stats, this`flags, this`flags2
      ensures vehicleObject == if ride.vehicleObject.LegacyObject? then Some(ride.vehicleObject.descriptor)
                               else old(vehicleObject)
      ensures stats == CaptureStatistics(ride.stats) && flags == 0 && flags2 == 0
    {
      if ride.vehicleObject.LegacyObject? {
        vehicleObject := Some(ride.vehicleObject.descriptor);
      }
      stats := CaptureStatistics(ride.stats);
      flags, flags2 := 0, 0;
    }

    /** The dispatch at the end of `CreateTrackDesign`. */
    method CaptureRide(engine: Engine.TrackDesignState, ride: Ride, previewRideId: nat,
                       ghost st: Walker.PlaceState, ghost layout: Layout, ghost space: (int, int)) returns (status: Status)
      requires rideType == ride.rideType
      requires engine.View() == st && LayoutOf() == layout && (spaceRequiredX, spaceRequiredY) == space
      modifies this`trackElements, this`entranceElements, this`mazeElements, this`saveDirection,
               this`spaceRequiredX, this`spaceRequiredY, engine
      ensures AfterCapture(engine, st, RideLayout(engine.world, st.log, ride, layout), status, previewRideId, space)
    {
      if rideType == RIDE_TYPE_MAZE {
        status := CreateTrackDesignMaze(engine, ride, previewRideId);
      } else {
        status := CreateTrackDesignTrack(engine, ride, previewRideId);
      }
    }

    /**
     * `CreateTrackDesignScenery`: the saved scenery list taken over and
     * rewritten in place, element by element, relative to the preview
     * origin and the saved direction; the first element outside the window
     * ends it with an error.
     */
    method CreateTrackDesignScenery(engine: Engine.TrackDesignState, saved: seq<SceneryElement>)
      returns (status: Status)
      modifies this`sceneryElements
      ensures (sceneryElements, status == Ok) == SceneryFrom(saved, engine.previewOrigin, saveDirection, 0)
      ensures status == Ok || status == TooLargeOrTooMuchScenery
    {
      var origin := engine.previewOrigin;
      sceneryElements := saved;
      for i := 0 to |saved|
        invariant |sceneryElements| == |saved|
        invariant SceneryFrom(sceneryElements, origin, saveDirection, i) == SceneryFrom(saved, origin, saveDirection, 0)
      {
        var c := CaptureScenery(sceneryElements[i], origin, saveDirection);
        sceneryElements := sceneryElements[i := c.element];
        if !c.ok {
          return TooLargeOrTooMuchScenery;
        }
      }
      status := Ok;
    }

    // -------------------------------------------------------------------
    // Mirroring

    /** `track_design_mirror_maze`. */
    method MirrorMaze()
      modifies this`mazeElements
      ensures mazeElements == MirrorMazeSeq(old(mazeElements))
    {
      for i := 0 to |mazeElements|
        invariant |mazeElements| == |old(mazeElements)|
        invariant forall j | 0 <= j < i :: mazeElements[j] == MirrorMazeElement(old(mazeElements)[j])
        invariant forall j | i <= j < |mazeElements| :: mazeElements[j] == old(mazeElements)[j]
      {
        var m := mazeElements[i];
        var y := Int8(-(m.y as int));
        var entry;
        if m.IsMarker() {
          entry := MirrorMarkerEntry(m.entry);
        } else {
          entry := MirrorWalls(m.entry);
        }
        mazeElements := mazeElements[i := MazeElement(m.x, y, entry)];
      }
    }

    /** `track_design_mirror_ride`: every piece, then every entrance. */
    method MirrorRide(descriptor: nat -> TrackDescriptor)
      modifies this`trackElements, this`entranceElements
      ensures trackElements == MirrorTrackSeq(descriptor, old(trackElements))
      ensures entranceElements == MirrorEntranceSeq(old(entranceElements))
    {
      for i := 0 to |trackElements|
        invariant |trackElements| == |old(trackElements)|
        invariant forall j | 0 <= j < i :: trackElements[j] == MirrorTrackElement(descriptor, old(trackElements)[j])
        invariant forall j | i <= j < |trackElements| :: trackElements[j] == old(trackElements)[j]
        invariant entranceElements == old(entranceElements)
      {
        trackElements := trackElements[i := trackElements[i].(trackType := descriptor(trackElements[i].trackType).mirrorElement)];
      }
      for i := 0 to |entranceElements|
        invariant |entranceElements| == |old(entranceElements)|
        invariant forall j | 0 <= j < i :: entranceElements[j] == MirrorEntrance(old(entranceElements)[j])
        invariant forall j | i <= j < |entranceElements| :: entranceElements[j] == old(entranceElements)[j]
        invariant trackElements == MirrorTrackSeq(descriptor, old(trackElements))
      {
        var e := entranceElements[i];
        var direction := if e.direction & 1 != 0 then DirectionReverse(e.direction) else e.direction;
        entranceElements := entranceElements[i := e.(y := Int16(-(e.y as int)), direction := direction)];
      }
    }

    /** `track_design_mirror_scenery`: every element by the object it resolves to; an unresolved one is skipped. */
    method MirrorSceneryElements(resolve: (ObjectDescriptor, bool) -> Option<SceneryEntry>)
      modifies this`sceneryElements
      ensures sceneryElements == MirrorScenerySeq(resolve, old(sceneryElements))
    {
      for i := 0 to |sceneryElements|
        invariant |sceneryElements| == |old(sceneryElements)|
        invariant forall j | 0 <= j < i ::
          sceneryElements[j] == MirrorScenery(old(sceneryElements)[j], resolve(old(sceneryElements)[j].sceneryObject,
                                                                                old(sceneryElements)[j].IsQueue()))
        invariant forall j | i <= j < |sceneryElements| :: sceneryElements[j] == old(sceneryElements)[j]
      {
        var s := sceneryElements[i];
        var entry := resolve(s.sceneryObject, s.IsQueue());
        if entry.None? {
          continue;
        }
        var r := MirrorSceneryElement(s, entry);
        sceneryElements := sceneryElements[i := r];
      }
    }

    /** `track_design_mirror`: the maze or the ride, then the scenery. */
    method Mirror(w: World)
      modifies this`trackElements, this`entranceElements, this`mazeElements, this`sceneryElements
      ensures Record() == MirrorRecord(w, old(Record()))
      ensures saveDirection == old(saveDirection)
    {
      if rideType == RIDE_TYPE_MAZE {
        MirrorMaze();
      } else {
        MirrorRide(w.descriptor);
      }
      MirrorSceneryElements(w.resolve);
    }
  }
}

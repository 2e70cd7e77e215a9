/**
 * What capturing a built ride into a design record produces, as functions
 * of the ride and the map: the track walk with its element cap, the
 * station entrances and exits, the raster scan of a maze with its cell
 * cap and its entrance and exit markers, and the scenery pass; and what
 * mirroring a whole record does. The methods of `Design` are proved to do
 * exactly what these say; the lemmas here say what that means.
 */
module Layout {
  import opened Common
  import opened Geometry
  import opened Bits
  import opened Records
  import opened World
  import opened Capture
  import opened Mirror

  /** The string ids the capture functions return. */
  datatype Status = Ok | TooLargeOrTooMuchScenery | UnknownObjectType

  /** The capture cap on a maze: `maze_elements.size() >= 2000` fails. */
  const MAZE_ELEMENT_LIMIT: nat := 2000

  /** Tiles per map side: `MAXIMUM_MAP_SIZE_BIG / COORDS_XY_STEP`. */
  const MAP_TILES: nat := 256

  // ---------------------------------------------------------------------
  // Searching a tile's elements

  /** The elements scanned for on a tile. */
  datatype Wanted =
    | RideTrack(rideId: nat)
    | EntranceAtHeight(z: int)
    | MazeMarker(kind: EntranceType, rideId: nat)

  predicate Matches(e: TileElement, w: Wanted)
  {
    match w
    case RideTrack(id) => e.TrackTile? && e.rideIndex == id
    case EntranceAtHeight(z) => e.EntranceTile? && e.BaseZ() == z
    case MazeMarker(kind, id) => e.EntranceTile? && e.entranceType == kind && e.rideIndex == id
  }

  /** The first element at or after `k` that is wanted. */
  function FirstMatch(elements: seq<TileElement>, wanted: Wanted, k: nat): (r: Option<nat>)
    requires k <= |elements|
    ensures r.Some? ==> k <= r.value < |elements| && Matches(elements[r.value], wanted)
    ensures forall j | k <= j < |elements| && (r.None? || j < r.value) :: !Matches(elements[j], wanted)
    decreases |elements| - k
  {
    if k == |elements| then None
    else if Matches(elements[k], wanted) then Some(k)
    else FirstMatch(elements, wanted, k + 1)
  }

  // ---------------------------------------------------------------------
  // Track

  /** The record of one track piece: its type and its packed flag byte. */
  function PieceRecord(w: World, ride: Ride, p: TrackPiece): (t: TrackElement)
    ensures t.trackType == p.trackType
  {
    TrackElement(p.trackType,
                 PackTrackFlags(w.descriptor(p.trackType).hasSpeedSetting, p.brakeBoosterSpeed, p.seatRotation,
                                p.hasChain, p.colourScheme, ride.hasAlternativeTrackType && p.inverted))
  }

  /**
   * Placement reads back from a piece record what capture packed: the colour
   * scheme, an even brake speed below 32 or a seat rotation below 16, the
   * chain lift, and the inverted state when the ride has an alternative track type.
   */
  lemma PieceRecordRoundTrip(w: World, ride: Ride, p: TrackPiece)
    requires p.colourScheme < 4
    requires w.descriptor(p.trackType).hasSpeedSetting ==> p.brakeBoosterSpeed < 32
    requires !w.descriptor(p.trackType).hasSpeedSetting ==> p.seatRotation < 16
    ensures var f := PieceRecord(w, ride, p).flags;
            && TrackColourOf(f) == p.colourScheme as nat
            && (w.descriptor(p.trackType).hasSpeedSetting && p.brakeBoosterSpeed & 1 == 0 ==>
                  BrakeSpeedOf(f) == p.brakeBoosterSpeed as nat)
            && (!w.descriptor(p.trackType).hasSpeedSetting ==> SeatRotationOf(f) == p.seatRotation as nat)
            && LiftHillAndAlternativeOf(f)
               == (if p.hasChain then 1 else 0) + (if ride.hasAlternativeTrackType && p.inverted then 2 else 0)
  {
    TrackFlagsRoundTrip(w.descriptor(p.trackType).hasSpeedSetting, p.brakeBoosterSpeed, p.seatRotation, p.hasChain,
                        p.colourScheme, ride.hasAlternativeTrackType && p.inverted);
  }

  /** Where the track walk of `CreateTrackDesignTrack` starts. */
  datatype TrackStart =
    | NoOrigin
      /** The start of the track was found, but not its origin; the direction was already saved. */
    | NoStart(saveDirection: nat)
    | Start(cursor: TrackCursor, saveDirection: nat, startPos: XYZ)

  function TrackStartOf(w: World, ride: Ride): TrackStart
  {
    var g := ride.track;
    match g.originElement
    case None => NoOrigin
    case Some(o) =>
      var c := g.startOfTrack(o);
      var saveDirection := g.piece(c.element).direction % 4;
      match g.originOf(c)
      case None => NoStart(saveDirection)
      case Some(found) =>
        var (pos, element) := found;
        var ted := w.descriptor(g.piece(element).trackType);
        Start(TrackCursor(pos.x, pos.y, element), saveDirection,
              XYZ(pos.x, pos.y, pos.z + ted.coordinates.zBegin - ted.firstBlock.z))
  }

  /**
   * The do/while of `CreateTrackDesignTrack` from the piece at `cur`: record
   * the piece, then stop at the end of an open track or back at `initial`,
   * and fail once more than `TD6MaxTrackElements` pieces are recorded and
   * the walk goes on.
   */
  function TrackWalk(w: World, ride: Ride, cur: TrackCursor, initial: nat, acc: seq<TrackElement>)
    : (seq<TrackElement>, bool)
    decreases TD6_MAX_TRACK_ELEMENTS - |acc|
  {
    var g := ride.track;
    var acc' := acc + [PieceRecord(w, ride, g.piece(cur.element))];
    match g.next(cur)
    case None => (acc', true)
    case Some(n) =>
      match g.originOf(n)
      case None => (acc', true)
      case Some(found) =>
        if |acc'| > TD6_MAX_TRACK_ELEMENTS then (acc', false)
        else if found.1 == initial then (acc', true)
        else TrackWalk(w, ride, TrackCursor(found.0.x, found.0.y, found.1), initial, acc')
  }

  /**
   * The walk appends the pieces it passes, starting with the one it starts
   * on; it fails only with one piece more than `TD6MaxTrackElements`
   * recorded, and never records more. A walk that ends right after that
   * piece is not failed: the cap is checked only when the walk goes on.
   */
  lemma {:induction false} TrackWalkBound(w: World, ride: Ride, cur: TrackCursor, initial: nat,
                                          acc: seq<TrackElement>)
    requires |acc| <= TD6_MAX_TRACK_ELEMENTS
    ensures var (r, ok) := TrackWalk(w, ride, cur, initial, acc);
            |acc| < |r| <= TD6_MAX_TRACK_ELEMENTS + 1 && r[..|acc|] == acc
            && r[|acc|] == PieceRecord(w, ride, ride.track.piece(cur.element))
            && (!ok ==> |r| == TD6_MAX_TRACK_ELEMENTS + 1)
    decreases TD6_MAX_TRACK_ELEMENTS - |acc|
  {
    var g := ride.track;
    var acc' := acc + [PieceRecord(w, ride, g.piece(cur.element))];
    match g.next(cur)
    case None =>
    case Some(n) =>
      match g.originOf(n)
      case None =>
      case Some(found) =>
        if |acc'| <= TD6_MAX_TRACK_ELEMENTS && found.1 != initial {
          TrackWalkBound(w, ride, TrackCursor(found.0.x, found.0.y, found.1), initial, acc');
          var r := TrackWalk(w, ride, cur, initial, acc).0;
          assert r[..|acc'|] == acc';
          assert r[..|acc|] == acc'[..|acc|];
        }
  }

  // ---------------------------------------------------------------------
  // Station entrances and exits

  datatype EntranceCapture = Skipped | OutOfWindow | Captured(e: EntranceElement)

  /**
   * The entrance (or exit) of one station: none when the station has no such
   * location or no entrance element at the station's height is on its tile,
   * an error when its relative height leaves the signed window.
   */
  function StationEntrance(w: World, log: seq<Issued>, ride: Ride, origin: XYZ, saveDirection: nat,
                           station: nat, isExit: bool): EntranceCapture
  {
    if station >= |ride.stations| then Skipped
    else
      var s := ride.stations[station];
      var location := if isExit then s.exit else s.entrance;
      if location.None? then Skipped
      else
        var elements := w.elementsAt(log, ToCoords(location.value));
        match FirstMatch(elements, EntranceAtHeight(s.baseZ), 0)
        case None => Skipped
        case Some(k) =>
          match CaptureEntrance(location.value, elements[k].direction, s.baseZ, origin, saveDirection, isExit)
          case None => OutOfWindow
          case Some(e) => Captured(e)
  }

  const RCT12_MAX_STATIONS_PER_RIDE: nat := 4

  /** The number of slots the two entrance loops visit: the entrances of the stations, then their exits. */
  const ENTRANCE_SLOTS: nat := 2 * RCT12_MAX_STATIONS_PER_RIDE

  /** Slot `k` of the entrance loops: station `k % 4`, its exit from slot 4 on. */
  function SlotEntrance(w: World, log: seq<Issued>, ride: Ride, origin: XYZ, saveDirection: nat, k: nat)
    : EntranceCapture
  {
    StationEntrance(w, log, ride, origin, saveDirection, k % RCT12_MAX_STATIONS_PER_RIDE,
                    k >= RCT12_MAX_STATIONS_PER_RIDE)
  }

  /** What every slot finds. */
  function Slots(w: World, log: seq<Issued>, ride: Ride, origin: XYZ, saveDirection: nat)
    : (r: seq<EntranceCapture>)
    ensures |r| == ENTRANCE_SLOTS
    ensures forall k | 0 <= k < ENTRANCE_SLOTS :: r[k] == SlotEntrance(w, log, ride, origin, saveDirection, k)
  {
    seq(ENTRANCE_SLOTS, k requires 0 <= k < ENTRANCE_SLOTS => SlotEntrance(w, log, ride, origin, saveDirection, k))
  }

  /** Every captured slot is inside the height window, an entrance before slot 4 and an exit from there on. */
  predicate WellFormedSlots(slots: seq<EntranceCapture>)
  {
    forall k | 0 <= k < |slots| :: slots[k].Captured? ==>
      InWindow(slots[k].e.z) && slots[k].e.isExit == (k >= RCT12_MAX_STATIONS_PER_RIDE)
  }

  lemma SlotsWellFormed(w: World, log: seq<Issued>, ride: Ride, origin: XYZ, saveDirection: nat)
    ensures WellFormedSlots(Slots(w, log, ride, origin, saveDirection))
  {
  }

  /** The two entrance loops of `CreateTrackDesignTrack`, from slot `k` on: skip, fail, or append. */
  function EntrancesFrom(slots: seq<EntranceCapture>, k: nat, acc: seq<EntranceElement>): (seq<EntranceElement>, bool)
    requires k <= |slots|
    decreases |slots| - k
  {
    if k == |slots| then (acc, true)
    else match slots[k]
      case Skipped => EntrancesFrom(slots, k + 1, acc)
      case OutOfWindow => (acc, false)
      case Captured(e) => EntrancesFrom(slots, k + 1, acc + [e])
  }

  /**
   * The entrance loops append at most one record per remaining slot, every
   * one inside the signed height window, and only exits once the loop is
   * past the entrances.
   */
  lemma {:induction false} EntrancesCaptured(slots: seq<EntranceCapture>, k: nat, acc: seq<EntranceElement>)
    requires k <= |slots| && WellFormedSlots(slots)
    ensures var (r, _) := EntrancesFrom(slots, k, acc);
            acc <= r && |r| <= |acc| + |slots| - k
            && (forall j | |acc| <= j < |r| :: InWindow(r[j].z))
            && (k >= RCT12_MAX_STATIONS_PER_RIDE ==> forall j | |acc| <= j < |r| :: r[j].isExit)
    decreases |slots| - k
  {
    if k < |slots| {
      match slots[k]
      case Skipped => EntrancesCaptured(slots, k + 1, acc);
      case OutOfWindow =>
      case Captured(e) => EntrancesCaptured(slots, k + 1, acc + [e]);
    }
  }

  /** The records the entrance loops append are all the entrances first, then all the exits. */
  lemma {:induction false} EntrancesBeforeExits(slots: seq<EntranceCapture>, k: nat, acc: seq<EntranceElement>)
    requires k <= |slots| && WellFormedSlots(slots)
    ensures var (r, _) := EntrancesFrom(slots, k, acc);
            forall i, j | |acc| <= i < j < |r| :: r[i].isExit ==> r[j].isExit
    decreases |slots| - k
  {
    if k >= RCT12_MAX_STATIONS_PER_RIDE {
      EntrancesCaptured(slots, k, acc);
    } else if k < |slots| {
      match slots[k]
      case Skipped =>
        EntrancesBeforeExits(slots, k + 1, acc);
        assert EntrancesFrom(slots, k, acc) == EntrancesFrom(slots, k + 1, acc);
      case OutOfWindow =>
      case Captured(e) =>
        EntrancesBeforeExits(slots, k + 1, acc + [e]);
        EntrancesCaptured(slots, k + 1, acc + [e]);
        assert EntrancesFrom(slots, k, acc).0[|acc|] == e;
    }
  }

  /** The entrance loops fail exactly when some remaining slot's relative height leaves the window. */
  lemma {:induction false} EntrancesFail(slots: seq<EntranceCapture>, k: nat, acc: seq<EntranceElement>)
    requires k <= |slots|
    ensures EntrancesFrom(slots, k, acc).1 <==> forall m | k <= m < |slots| :: !slots[m].OutOfWindow?
    decreases |slots| - k
  {
    if k < |slots| {
      match slots[k]
      case Skipped => EntrancesFail(slots, k + 1, acc);
      case OutOfWindow =>
      case Captured(e) => EntrancesFail(slots, k + 1, acc + [e]);
    }
  }

  // ---------------------------------------------------------------------
  // Maze

  /** The elements of the tile in column `x` and row `y`. */
  function TileElements(w: World, log: seq<Issued>, x: nat, y: nat): seq<TileElement>
  {
    w.elementsAt(log, XY(x * COORDS_XY_STEP, y * COORDS_XY_STEP))
  }

  /** Tile (`x`, `y`) comes before tile (`x2`, `y2`) in the raster order: rows first. */
  predicate Before(x: nat, y: nat, x2: nat, y2: nat)
  {
    y < y2 || (y == y2 && x < x2)
  }

  /** A tile, and the element on it, that a scan found. */
  datatype TileHit = TileHit(x: nat, y: nat, element: nat)

  /**
   * `MazeGetFirstElement` from tile (`x`, `y`) on: the first tile in raster
   * order holding a track element of the ride, and the first such element there.
   */
  function FirstRideTile(w: World, log: seq<Issued>, rideId: nat, x: nat, y: nat): (r: Option<TileHit>)
    requires x <= MAP_TILES && y <= MAP_TILES
    ensures r.Some? ==>
              r.value.x < MAP_TILES && r.value.y < MAP_TILES && !Before(r.value.x, r.value.y, x, y)
              && FirstMatch(TileElements(w, log, r.value.x, r.value.y), RideTrack(rideId), 0) == Some(r.value.element)
    ensures forall x1: nat, y1: nat | x1 < MAP_TILES && y1 < MAP_TILES && !Before(x1, y1, x, y)
                            && (r.None? || Before(x1, y1, r.value.x, r.value.y)) ::
              FirstMatch(TileElements(w, log, x1, y1), RideTrack(rideId), 0).None?
    decreases MAP_TILES - y, MAP_TILES - x
  {
    if y == MAP_TILES then None
    else if x == MAP_TILES then FirstRideTile(w, log, rideId, 0, y + 1)
    else match FirstMatch(TileElements(w, log, x, y), RideTrack(rideId), 0)
      case Some(k) => Some(TileHit(x, y, k))
      case None => FirstRideTile(w, log, rideId, x + 1, y)
  }

  /**
   * The cells one tile adds to a maze capture (`do/while` over its
   * elements): every track element of the ride becomes a cell relative to
   * `start`, and its direction becomes the saved direction; the capture
   * fails as soon as the list holds 2000 elements.
   */
  function TileCells(elements: seq<TileElement>, rideId: nat, at: XY, start: XY, k: nat,
                     acc: seq<MazeElement>, saveDirection: nat): (seq<MazeElement>, nat, bool)
    requires k <= |elements|
    decreases |elements| - k
  {
    if k == |elements| then (acc, saveDirection, true)
    else
      var e := elements[k];
      if Matches(e, RideTrack(rideId)) then
        var acc' := acc + [CaptureMazeCell(at, start, e.mazeEntry)];
        if |acc'| >= MAZE_ELEMENT_LIMIT then (acc', e.direction % 4, false)
        else TileCells(elements, rideId, at, start, k + 1, acc', e.direction % 4)
      else TileCells(elements, rideId, at, start, k + 1, acc, saveDirection)
  }

  /** The raster scan of `CreateTrackDesignMaze` from tile (`x`, `y`) on. */
  function MazeScan(w: World, log: seq<Issued>, rideId: nat, start: XY, x: nat, y: nat,
                    acc: seq<MazeElement>, saveDirection: nat): (seq<MazeElement>, nat, bool)
    requires x <= MAP_TILES && y <= MAP_TILES
    decreases MAP_TILES - y, MAP_TILES - x
  {
    if y == MAP_TILES then (acc, saveDirection, true)
    else if x == MAP_TILES then MazeScan(w, log, rideId, start, 0, y + 1, acc, saveDirection)
    else
      var at := XY(x * COORDS_XY_STEP, y * COORDS_XY_STEP);
      var (acc', saveDirection', ok) := TileCells(TileElements(w, log, x, y), rideId, at, start, 0, acc, saveDirection);
      if !ok then (acc', saveDirection', false)
      else MazeScan(w, log, rideId, start, x + 1, y, acc', saveDirection')
  }

  /** A tile's cells are appended to the list; the cap fails the capture at exactly 2000 elements. */
  lemma {:induction false} TileCellsBound(elements: seq<TileElement>, rideId: nat, at: XY, start: XY, k: nat,
                                          acc: seq<MazeElement>, saveDirection: nat)
    requires k <= |elements| && |acc| < MAZE_ELEMENT_LIMIT
    ensures var (r, _, ok) := TileCells(elements, rideId, at, start, k, acc, saveDirection);
            acc <= r && (ok <==> |r| < MAZE_ELEMENT_LIMIT) && |r| <= MAZE_ELEMENT_LIMIT
            && forall j | |acc| <= j < |r| :: r[j] == CaptureMazeCell(at, start, r[j].entry)
    decreases |elements| - k
  {
    if k < |elements| {
      var e := elements[k];
      if Matches(e, RideTrack(rideId)) {
        var acc' := acc + [CaptureMazeCell(at, start, e.mazeEntry)];
        if |acc'| < MAZE_ELEMENT_LIMIT {
          TileCellsBound(elements, rideId, at, start, k + 1, acc', e.direction % 4);
        }
      } else {
        TileCellsBound(elements, rideId, at, start, k + 1, acc, saveDirection);
      }
    }
  }

  /**
   * The maze scan appends the cells it finds; it fails exactly when the
   * list reaches 2000 elements, and it never goes past that.
   */
  lemma {:induction false} MazeScanBound(w: World, log: seq<Issued>, rideId: nat, start: XY, x: nat, y: nat,
                                         acc: seq<MazeElement>, saveDirection: nat)
    requires x <= MAP_TILES && y <= MAP_TILES && |acc| < MAZE_ELEMENT_LIMIT
    ensures var (r, _, ok) := MazeScan(w, log, rideId, start, x, y, acc, saveDirection);
            acc <= r && (ok <==> |r| < MAZE_ELEMENT_LIMIT) && |r| <= MAZE_ELEMENT_LIMIT
    decreases MAP_TILES - y, MAP_TILES - x
  {
    if y < MAP_TILES {
      if x == MAP_TILES {
        MazeScanBound(w, log, rideId, start, 0, y + 1, acc, saveDirection);
      } else {
        var at := XY(x * COORDS_XY_STEP, y * COORDS_XY_STEP);
        TileCellsBound(TileElements(w, log, x, y), rideId, at, start, 0, acc, saveDirection);
        var (acc', saveDirection', ok) := TileCells(TileElements(w, log, x, y), rideId, at, start, 0, acc, saveDirection);
        if ok {
          MazeScanBound(w, log, rideId, start, x + 1, y, acc', saveDirection');
        }
      }
    }
  }

  /**
   * The entrance (or exit) marker of a maze: station 0's location, the
   * first ride entrance (exit) element of the ride on that tile, and its
   * direction; none when the location or the element is missing.
   */
  function MazeMarkerOf(w: World, log: seq<Issued>, ride: Ride, start: XY, isExit: bool): (r: Option<MazeElement>)
    ensures r.Some? ==> r.value.IsMarker()
                        && r.value.Type() == if isExit then MAZE_ELEMENT_TYPE_EXIT else MAZE_ELEMENT_TYPE_ENTRANCE
  {
    if |ride.stations| == 0 then None
    else
      var location := if isExit then ride.stations[0].exit else ride.stations[0].entrance;
      if location.None? then None
      else
        var at := ToCoords(location.value);
        var elements := w.elementsAt(log, at);
        match FirstMatch(elements, MazeMarker(if isExit then RideExit else RideEntrance, ride.id), 0)
        case None => None
        case Some(k) => Some(CaptureMazeMarker(at, start, elements[k].direction % 4, isExit))
  }

  // ---------------------------------------------------------------------
  // Whole layouts

  /** The parts of a design that capture writes, and the saved direction. */
  datatype Layout = Layout(track: seq<TrackElement>, entrances: seq<EntranceElement>, maze: seq<MazeElement>,
                           saveDirection: nat)

  /**
   * The outcome of capturing a layout: the new layout, the string id, and
   * the preview origin capture set, if it got that far; on success the
   * outline placement then runs at that origin.
   */
  datatype LayoutCapture = LayoutCapture(layout: Layout, status: Status, origin: Option<XYZ>)

  /** `CreateTrackDesignTrack` up to the outline placement. */
  function TrackLayout(w: World, log: seq<Issued>, ride: Ride, l: Layout): (c: LayoutCapture)
  {
    match TrackStartOf(w, ride)
    case NoOrigin => LayoutCapture(l, TooLargeOrTooMuchScenery, None)
    case NoStart(saveDirection) => LayoutCapture(l.(saveDirection := saveDirection), TooLargeOrTooMuchScenery, None)
    case Start(cur, saveDirection, startPos) =>
      var (pieces, ok) := TrackWalk(w, ride, cur, cur.element, l.track);
      var l1 := l.(track := pieces, saveDirection := saveDirection);
      if !ok then LayoutCapture(l1, TooLargeOrTooMuchScenery, Some(startPos))
      else
        var (entrances, ok2) := EntrancesFrom(Slots(w, log, ride, startPos, saveDirection), 0, l.entrances);
        LayoutCapture(l1.(entrances := entrances), if ok2 then Ok else TooLargeOrTooMuchScenery, Some(startPos))
  }

  /** `CreateTrackDesignMaze` up to the outline placement. */
  function MazeLayout(w: World, log: seq<Issued>, ride: Ride, l: Layout): (c: LayoutCapture)
  {
    match FirstRideTile(w, log, ride.id, 0, 0)
    case None => LayoutCapture(l, TooLargeOrTooMuchScenery, None)
    case Some(hit) =>
      var start := XY(hit.x * COORDS_XY_STEP, hit.y * COORDS_XY_STEP);
      var origin := WithZ(start, TileElements(w, log, hit.x, hit.y)[hit.element].BaseZ());
      var (l1, status) := MazeCells(w, log, ride, start, hit, l);
      LayoutCapture(l1, status, Some(origin))
  }

  /**
   * The maze capture from its first tile on: the scan, then the entrance
   * marker and the exit marker, each appended once found.
   */
  function MazeCells(w: World, log: seq<Issued>, ride: Ride, start: XY, hit: TileHit, l: Layout): (Layout, Status)
    requires hit.x <= MAP_TILES && hit.y <= MAP_TILES
  {
    var (cells, saveDirection, ok) := MazeScan(w, log, ride.id, start, hit.x, hit.y, l.maze, l.saveDirection);
    var l1 := l.(maze := cells, saveDirection := saveDirection);
    if !ok then (l1, TooLargeOrTooMuchScenery) else MazeMarkers(w, log, ride, start, l1)
  }

  /** The entrance marker, then the exit marker, appended to a scanned maze; a missing one ends the capture. */
  function MazeMarkers(w: World, log: seq<Issued>, ride: Ride, start: XY, l: Layout): (Layout, Status)
  {
    match MazeMarkerOf(w, log, ride, start, false)
    case None => (l, TooLargeOrTooMuchScenery)
    case Some(entrance) =>
      match MazeMarkerOf(w, log, ride, start, true)
      case None => (l.(maze := l.maze + [entrance]), TooLargeOrTooMuchScenery)
      case Some(exit) => (l.(maze := l.maze + [entrance, exit]), Ok)
  }

  /** `CreateTrackDesign`'s dispatch: a maze is captured cell by cell, any other ride piece by piece. */
  function RideLayout(w: World, log: seq<Issued>, ride: Ride, l: Layout): (c: LayoutCapture)
    ensures ride.rideType == RIDE_TYPE_MAZE ==> c.layout.track == l.track && c.layout.entrances == l.entrances
    ensures ride.rideType != RIDE_TYPE_MAZE ==> c.layout.maze == l.maze
  {
    if ride.rideType == RIDE_TYPE_MAZE then MazeLayout(w, log, ride, l) else TrackLayout(w, log, ride, l)
  }

  /**
   * A track capture that succeeds has found an origin, appended between one
   * and `TD6MaxTrackElements + 1` pieces starting with the one at the start
   * of the track, and then at most one entrance or exit record per slot:
   * every one inside the signed height window, entrances before exits.
   * A ride without a track origin is refused before anything is written.
   */
  lemma TrackLayoutShape(w: World, log: seq<Issued>, ride: Ride, l: Layout)
    requires |l.track| <= TD6_MAX_TRACK_ELEMENTS
    ensures var c := TrackLayout(w, log, ride, l);
            var t := c.layout.track;
            var e := c.layout.entrances;
            && c.layout.maze == l.maze
            && (ride.track.originElement.None? ==> c.layout == l && c.status != Ok && c.origin.None?)
            && (c.status == Ok ==>
                  && c.origin.Some? && TrackStartOf(w, ride).Start?
                  && |l.track| < |t| <= TD6_MAX_TRACK_ELEMENTS + 1 && t[..|l.track|] == l.track
                  && t[|l.track|] == PieceRecord(w, ride, ride.track.piece(TrackStartOf(w, ride).cursor.element))
                  && l.entrances <= e && |e| <= |l.entrances| + ENTRANCE_SLOTS
                  && (forall j | |l.entrances| <= j < |e| :: InWindow(e[j].z))
                  && (forall i, j | |l.entrances| <= i < j < |e| :: e[i].isExit ==> e[j].isExit))
  {
    match TrackStartOf(w, ride)
    case NoOrigin =>
    case NoStart(_) =>
    case Start(cur, saveDirection, startPos) =>
      TrackWalkBound(w, ride, cur, cur.element, l.track);
      var slots := Slots(w, log, ride, startPos, saveDirection);
      SlotsWellFormed(w, log, ride, startPos, saveDirection);
      EntrancesCaptured(slots, 0, l.entrances);
      EntrancesBeforeExits(slots, 0, l.entrances);
  }

  /**
   * A maze captured into an empty list either is refused or ends with its
   * entrance marker and then its exit marker, after fewer than 2000 cells;
   * its cells lie relative to the first tile of the ride in raster order.
   */
  lemma MazeLayoutShape(w: World, log: seq<Issued>, ride: Ride, l: Layout)
    requires l.maze == []
    ensures var c := MazeLayout(w, log, ride, l);
            var m := c.layout.maze;
            (c.status == Ok ==>
               c.origin.Some? && 2 <= |m| <= MAZE_ELEMENT_LIMIT + 1
               && m[|m| - 2].IsMarker() && m[|m| - 2].Type() == MAZE_ELEMENT_TYPE_ENTRANCE
               && m[|m| - 1].IsMarker() && m[|m| - 1].Type() == MAZE_ELEMENT_TYPE_EXIT)
            && (FirstRideTile(w, log, ride.id, 0, 0).None? ==> c.status != Ok && c.origin.None?)
  {
    match FirstRideTile(w, log, ride.id, 0, 0)
    case None =>
    case Some(hit) =>
      var start := XY(hit.x * COORDS_XY_STEP, hit.y * COORDS_XY_STEP);
      MazeScanBound(w, log, ride.id, start, hit.x, hit.y, l.maze, l.saveDirection);
  }

  // ---------------------------------------------------------------------
  // Scenery

  /**
   * `CreateTrackDesignScenery` from element `i` on, rewriting the list in
   * place: an element outside the window is left half rewritten and ends the pass.
   */
  function SceneryFrom(list: seq<SceneryElement>, origin: XYZ, saveDirection: nat, i: nat): (seq<SceneryElement>, bool)
    requires saveDirection < 4 && i <= |list|
    decreases |list| - i
  {
    if i == |list| then (list, true)
    else
      var c := CaptureScenery(list[i], origin, saveDirection);
      var list' := list[i := c.element];
      if !c.ok then (list', false) else SceneryFrom(list', origin, saveDirection, i + 1)
  }

  /**
   * The scenery pass succeeds exactly when every element from `i` on fits
   * the window; then each of them is its captured form and those before are kept.
   */
  lemma {:induction false} SceneryCaptured(list: seq<SceneryElement>, origin: XYZ, saveDirection: nat, i: nat)
    requires saveDirection < 4 && i <= |list|
    ensures var (r, ok) := SceneryFrom(list, origin, saveDirection, i);
            |r| == |list| && r[..i] == list[..i]
            && (ok <==> forall j | i <= j < |list| :: CaptureScenery(list[j], origin, saveDirection).ok)
            && (ok ==> forall j | i <= j < |list| :: r[j] == CaptureScenery(list[j], origin, saveDirection).element)
    decreases |list| - i
  {
    if i < |list| {
      var c := CaptureScenery(list[i], origin, saveDirection);
      var list' := list[i := c.element];
      if c.ok {
        SceneryCaptured(list', origin, saveDirection, i + 1);
        var r := SceneryFrom(list', origin, saveDirection, i + 1).0;
        assert r[..i] == r[..i + 1][..i];
        forall j | i + 1 <= j < |list| ensures list'[j] == list[j] { }
      }
    }
  }

  // ---------------------------------------------------------------------
  // Mirror (track_design_mirror)

  /** `track_design_mirror_scenery`: each element by the object it resolves to. */
  function MirrorScenerySeq(resolve: (ObjectDescriptor, bool) -> Option<SceneryEntry>, s: seq<SceneryElement>)
    : (r: seq<SceneryElement>)
    ensures |r| == |s|
    ensures forall i | 0 <= i < |s| :: r[i] == MirrorScenery(s[i], resolve(s[i].sceneryObject, s[i].IsQueue()))
  {
    seq(|s|, i requires 0 <= i < |s| => MirrorScenery(s[i], resolve(s[i].sceneryObject, s[i].IsQueue())))
  }

  /** `track_design_mirror`: the maze or the ride, then the scenery. */
  function MirrorRecord(w: World, d: DesignRecord): (r: DesignRecord)
    ensures r.rideType == d.rideType
    ensures d.rideType == RIDE_TYPE_MAZE ==> r.trackElements == d.trackElements && r.entranceElements == d.entranceElements
    ensures d.rideType != RIDE_TYPE_MAZE ==> r.mazeElements == d.mazeElements
  {
    var d1 :=
      if d.rideType == RIDE_TYPE_MAZE then d.(mazeElements := MirrorMazeSeq(d.mazeElements))
      else d.(trackElements := MirrorTrackSeq(w.descriptor, d.trackElements),
              entranceElements := MirrorEntranceSeq(d.entranceElements));
    d1.(sceneryElements := MirrorScenerySeq(w.resolve, d.sceneryElements))
  }

  /** What mirroring twice needs of a large scenery object: its tile rows are centred on a tile. */
  predicate MirrorsBack(w: World, s: SceneryElement)
  {
    var entry := w.resolve(s.sceneryObject, s.IsQueue());
    entry.Some? && entry.value.kind == LargeScenery ==>
      (MinTileY(entry.value.largeTiles) + MaxTileY(entry.value.largeTiles)) % 32 == 0
  }

  /**
   * Mirroring a design twice restores it, when the piece table pairs up
   * mirror pieces, no maze wall cell mirrors into a marker, and every large
   * scenery object is centred as `MirrorsBack` says.
   */
  lemma MirrorRecordInvolution(w: World, d: DesignRecord)
    requires d.rideType != RIDE_TYPE_MAZE ==>
      forall i | 0 <= i < |d.trackElements| ::
        w.descriptor(w.descriptor(d.trackElements[i].trackType).mirrorElement).mirrorElement
        == d.trackElements[i].trackType
    requires d.rideType == RIDE_TYPE_MAZE ==>
      forall i | 0 <= i < |d.mazeElements| ::
        !d.mazeElements[i].IsMarker() ==> !MazeElement(d.mazeElements[i].x, d.mazeElements[i].y,
                                                       MirrorWord(d.mazeElements[i].entry)).IsMarker()
    requires forall i | 0 <= i < |d.sceneryElements| :: MirrorsBack(w, d.sceneryElements[i])
    ensures MirrorRecord(w, MirrorRecord(w, d)) == d
  {
    if d.rideType == RIDE_TYPE_MAZE {
      MirrorMazeInvolution(d.mazeElements);
    } else {
      MirrorRideInvolution(w.descriptor, d.trackElements, d.entranceElements);
    }
    var s := d.sceneryElements;
    var once := MirrorScenerySeq(w.resolve, s);
    forall i | 0 <= i < |s| ensures MirrorScenerySeq(w.resolve, once)[i] == s[i] {
      var entry := w.resolve(s[i].sceneryObject, s[i].IsQueue());
      MirrorSceneryInvolution(s[i], entry);
    }
    assert MirrorScenerySeq(w.resolve, once) == s;
  }
}

/**
 * The placement walker as functions of a state value: what
 * `place_virtual_track` and the routines it dispatches to do to the engine's
 * file-static state, to the map-selection globals and to the log of issued
 * game actions, and what they return. The stateful engine is proved to
 * follow these functions step for step; the lemmas about placement are
 * stated about them.
 */
module Walker {
  import opened Common
  import opened Geometry
  import opened Bits
  import opened Records
  import opened World
  import opened Placement

  /** `MAP_SELECT_FLAG_*` bits the walker sets or clears. */
  datatype SelectFlag = EnableConstruct | EnableArrow | Green

  /**
   * The engine's file-static state (`_trackPreview*`, `_trackDesignPlace*`),
   * the map-selection globals it writes, and the actions issued so far.
   */
  datatype PlaceState = PlaceState(
    previewMin: XYZ, previewMax: XYZ, previewOrigin: XYZ,
    operation: nat, placeZ: int, sceneryZ: int,
    entranceExitPlaced: bool, sceneryUnavailable: bool, hasScenery: bool, placeScenery: bool, isReplay: bool,
    rideIndex: nat, selectionTiles: seq<XY>, arrowPosition: XYZ, arrowDirection: nat,
    selectFlags: set<SelectFlag>, log: seq<Issued>)

  /** The outcome of one placement step: go on with a running total, or stop with a failure. */
  datatype Outcome = Continue(st: PlaceState, total: int) | Stop(st: PlaceState)

  const MONEY32_MAX: int := 0x7FFF_FFFF

  function BoxOf(st: PlaceState): Box
  {
    Box(st.previewMin, st.previewMax)
  }

  // ---------------------------------------------------------------------
  // Primitive effects

  /** `track_design_update_max_min_coordinates`. */
  function UpdateMaxMin(st: PlaceState, c: XYZ): PlaceState
  {
    var b := Extend(BoxOf(st), c);
    st.(previewMin := b.min, previewMax := b.max)
  }

  /** `track_design_add_selection_tile`. */
  function AddSelectionTile(st: PlaceState, t: XY): PlaceState
  {
    st.(selectionTiles := WithTile(st.selectionTiles, t))
  }

  /** Issue one action: it is appended to the log and answered by the oracle. */
  function Issue(w: World, st: PlaceState, a: GameAction, flags: CommandFlags, execute: bool): (PlaceState, ActionResult)
  {
    var i := Issued(a, flags, execute);
    (st.(log := st.log + [i]), w.respond(st.log, i))
  }

  /** `flags & GAME_COMMAND_FLAG_APPLY ? ExecuteNested : QueryNested`. */
  function IssueByFlags(w: World, st: PlaceState, a: GameAction, flags: CommandFlags): (PlaceState, ActionResult)
  {
    Issue(w, st, a, flags, Apply in flags)
  }

  /** `TrackDesignPlaceSceneryElementGetEntry`: a missing object marks the scenery unavailable. */
  function GetEntry(w: World, st: PlaceState, s: SceneryElement): (PlaceState, Option<SceneryEntry>)
  {
    var e := w.resolve(s.sceneryObject, s.IsQueue());
    (if e.None? then st.(sceneryUnavailable := true) else st, e)
  }

  /** `res->Error == Ok ? res->Cost : MONEY32_UNDEFINED`. */
  function CostOrUndefined(r: ActionResult): int
  {
    if r.ok then r.cost else MONEY32_UNDEFINED
  }

  /** `res->Error == Ok ? res->Cost : 0`: a failure that is ignored. */
  function CostOrZero(r: ActionResult): int
  {
    if r.ok then r.cost else 0
  }

  /** `add_clamp_money32`: the sum saturated to the 32-bit range. */
  function AddClampMoney32(a: int, b: int): (r: int)
    ensures MONEY32_UNDEFINED <= r <= MONEY32_MAX
    ensures MONEY32_UNDEFINED <= a + b <= MONEY32_MAX ==> r == a + b
    ensures a + b > MONEY32_MAX ==> r == MONEY32_MAX
    ensures a + b < MONEY32_UNDEFINED ==> r == MONEY32_UNDEFINED
  {
    if a + b > MONEY32_MAX then MONEY32_MAX
    else if a + b < MONEY32_UNDEFINED then MONEY32_UNDEFINED
    else a + b
  }

  // ---------------------------------------------------------------------
  // One scenery element

  /** `TrackDesignPlaceSceneryElementRemoveGhost`: remove the ghost of one placed scenery element. */
  function RemoveGhostScenery(w: World, st: PlaceState, direction: nat, mapCoord: XY, s: SceneryElement,
                              rotation: nat, originZ: int): PlaceState
  {
    var (st1, entry) := GetEntry(w, st, s);
    if entry.None? || st1.sceneryUnavailable then st1
    else
      var e := entry.value;
      var loc := WithZ(mapCoord, PlacedSceneryZ(s, originZ));
      var facing := PlacedDirection(rotation, s.flags);
      match e.kind
      case SmallScenery =>
        var quadrant :=
          if !(!e.fullTile && e.diagonal) && (e.diagonal || e.halfSpace || e.threeQuarters) then 0
          else PlacedQuadrant(direction, s.flags);
        Issue(w, st1, SmallSceneryRemove(loc, quadrant, e.index), GHOST_REMOVE_FLAGS, true).0
      case LargeScenery => Issue(w, st1, LargeSceneryRemove(loc, facing), GHOST_REMOVE_FLAGS, true).0
      case Walls => Issue(w, st1, WallRemove(loc, facing), GHOST_REMOVE_FLAGS, true).0
      case Paths => Issue(w, st1, FootpathRemove(loc), GHOST_REMOVE_FLAGS, true).0
      case FootpathSurface => Issue(w, st1, FootpathRemove(loc), GHOST_REMOVE_FLAGS, true).0
      case _ => st1
  }

  /** `TrackDesignPlaceSceneryElementGetPlaceZ`: the lowest scenery height relative to the placement height. */
  function SceneryPlaceZ(w: World, st: PlaceState, s: SceneryElement): PlaceState
  {
    var z := s.z * COORDS_Z_STEP + st.placeZ;
    var st1 := if z < st.sceneryZ then st.(sceneryZ := z) else st;
    GetEntry(w, st1, s).0
  }

  /**
   * The cost tail of `TrackDesignPlaceSceneryElement`: the clamped cost, an
   * undefined cost turned into failure except when really placing.
   */
  function SceneryCost(op: nat, cost: int): (r: Option<int>)
    ensures r.None? <==> op != PTD_OPERATION_PLACE && AddClampMoney32(0, cost) == MONEY32_UNDEFINED
    ensures r.Some? ==> r.value == AddClampMoney32(0, cost)
  {
    var total := AddClampMoney32(0, cost);
    var total' := if op != PTD_OPERATION_PLACE && cost == MONEY32_UNDEFINED then MONEY32_UNDEFINED else total;
    if total' != MONEY32_UNDEFINED then Some(total')
    else if op == PTD_OPERATION_PLACE then Some(total')
    else None
  }

  /** The footpath a path element puts down at height `z` (in height units). */
  function PathAction(mapCoord: XY, s: SceneryElement, rotation: nat, z: int, e: SceneryEntry): GameAction
    requires rotation < 4
  {
    var bh := PlacedPathByte(s.flags, rotation);
    FootpathPlaceFromTrack(WithZ(mapCoord, z * COORDS_Z_STEP), PathSlope(bh), e.index, e.secondaryIndex, bh & 0x0F,
                           s.IsQueue(), e.kind == Paths)
  }

  /** A footpath element: placed in the first pass, reconnected to its neighbours in the second. */
  function PlacePath(w: World, st: PlaceState, mapCoord: XY, mode: nat, s: SceneryElement, rotation: nat,
                     originZ: int, e: SceneryEntry): (PlaceState, Option<int>)
    requires rotation < 4
  {
    var op := st.operation;
    var z := TDiv(s.z * COORDS_Z_STEP + originZ, COORDS_Z_STEP);
    if mode == 0 then
      var (st1, res) := IssueByFlags(w, st, PathAction(mapCoord, s, rotation, z, e), StandardFlags(op, st.isReplay));
      (st1, SceneryCost(op, CostOrZero(res)))
    else if op == PTD_OPERATION_PLACE_QUERY then (st, Some(0))
    else if !w.hasPathAt(st.log, WithZ(ToTile(mapCoord), z)) then (st, Some(0))
    else (Issue(w, st, FootpathReconnect(mapCoord, z), StandardFlags(op, st.isReplay), true).0, Some(0))
  }

  /** A small scenery object, placed in the first pass; a failure costs nothing. */
  function PlaceSmallScenery(w: World, st: PlaceState, direction: nat, loc: XYZ, s: SceneryElement, rotation: nat,
                             e: SceneryEntry): (PlaceState, Option<int>)
  {
    var action := SmallSceneryPlace(loc, PlacedDirection(rotation, s.flags), PlacedQuadrant(direction, s.flags),
                                    e.index, s.primaryColour, s.secondaryColour);
    var (st1, res) := IssueByFlags(w, st, action, SceneryObjectFlags(st.operation, st.isReplay));
    (st1, SceneryCost(st.operation, CostOrZero(res)))
  }

  /** A large scenery object, placed in the first pass; its cost is taken as reported. */
  function PlaceLargeScenery(w: World, st: PlaceState, loc: XYZ, s: SceneryElement, rotation: nat, e: SceneryEntry)
    : (PlaceState, Option<int>)
  {
    var action := LargeSceneryPlace(loc, PlacedDirection(rotation, s.flags), e.index, s.primaryColour,
                                    s.secondaryColour);
    var (st1, res) := IssueByFlags(w, st, action, SceneryObjectFlags(st.operation, st.isReplay));
    (st1, SceneryCost(st.operation, res.cost))
  }

  /** A wall, placed in the first pass; the upper six flag bits carry its tertiary colour. */
  function PlaceWall(w: World, st: PlaceState, loc: XYZ, s: SceneryElement, rotation: nat, e: SceneryEntry)
    : (PlaceState, Option<int>)
  {
    var action := WallPlace(e.index, loc, PlacedDirection(rotation, s.flags), s.primaryColour, s.secondaryColour,
                            ((s.flags & 0xFC) >> 2) as nat);
    var (st1, res) := IssueByFlags(w, st, action, WallFlags(st.operation, st.isReplay));
    (st1, SceneryCost(st.operation, res.cost))
  }

  /** The placing branch of `TrackDesignPlaceSceneryElement` for a resolved object. */
  function PlaceSceneryObject(w: World, st: PlaceState, direction: nat, mapCoord: XY, mode: nat, s: SceneryElement,
                              rotation: nat, originZ: int, e: SceneryEntry): (PlaceState, Option<int>)
    requires rotation < 4
  {
    var loc := WithZ(mapCoord, PlacedSceneryZ(s, originZ));
    match e.kind
    case SmallScenery => if mode != 0 then (st, Some(0)) else PlaceSmallScenery(w, st, direction, loc, s, rotation, e)
    case LargeScenery => if mode != 0 then (st, Some(0)) else PlaceLargeScenery(w, st, loc, s, rotation, e)
    case Walls => if mode != 0 then (st, Some(0)) else PlaceWall(w, st, loc, s, rotation, e)
    case Paths => PlacePath(w, st, mapCoord, mode, s, rotation, originZ, e)
    case FootpathSurface => PlacePath(w, st, mapCoord, mode, s, rotation, originZ, e)
    case _ => (st.(sceneryUnavailable := true), Some(0))
  }

  /** `TrackDesignPlaceSceneryElement`: one scenery element in one pass (`mode` 0 or 1). */
  function PlaceSceneryElement(w: World, st: PlaceState, direction: nat, mapCoord: XY, mode: nat,
                               s: SceneryElement, rotation: nat, originZ: int): (PlaceState, Option<int>)
    requires rotation < 4
  {
    var op := st.operation;
    if op == PTD_OPERATION_DRAW_OUTLINES && mode == 0 then (AddSelectionTile(st, mapCoord), Some(0))
    else if op == PTD_OPERATION_REMOVE_GHOST && mode == 0 then
      (RemoveGhostScenery(w, st, direction, mapCoord, s, rotation, originZ), Some(0))
    else if op == PTD_OPERATION_GET_PLACE_Z then (SceneryPlaceZ(w, st, s), Some(0))
    else if !IsPlacing(op) then (st, Some(0))
    else
      var (st1, entry) := GetEntry(w, st, s);
      if entry.None? then (st1, Some(0))
      else PlaceSceneryObject(w, st1, direction, mapCoord, mode, s, rotation, originZ, entry.value)
  }

  // ---------------------------------------------------------------------
  // All scenery

  /** Where the scenery pass places an element: its tile in world units, at the origin's height. */
  function SceneryMapCoord(s: SceneryElement, direction: nat, origin: XYZ): XYZ
  {
    WithZ(ToCoords(PlacedSceneryTile(s, direction, origin)), origin.z)
  }

  /** One iteration of the inner loop of `track_design_place_all_scenery`. */
  function SceneryStep(w: World, st: PlaceState, direction: nat, s: SceneryElement, origin: XYZ, mode: nat,
                       cost: int): Outcome
    requires direction < 4
  {
    var c := SceneryMapCoord(s, direction, origin);
    var (st1, r) := PlaceSceneryElement(w, UpdateMaxMin(st, c), direction, Flat(c), mode, s, direction, origin.z);
    if r.None? || r.value == MONEY32_UNDEFINED then Stop(st1) else Continue(st1, cost + r.value)
  }

  /** The inner loop of `track_design_place_all_scenery`, from element `i` on with `cost` so far. */
  function SceneryElementsFrom(w: World, st: PlaceState, direction: nat, list: seq<SceneryElement>, origin: XYZ,
                               mode: nat, i: nat, cost: int): (PlaceState, Option<int>)
    requires direction < 4 && i <= |list|
    decreases |list| - i
  {
    if i == |list| then (st, Some(cost))
    else match SceneryStep(w, st, direction, list[i], origin, mode, cost)
      case Stop(st1) => (st1, None)
      case Continue(st1, t1) => SceneryElementsFrom(w, st1, direction, list, origin, mode, i + 1, t1)
  }

  /** The start of one pass: note that there is scenery, and skip the pass when scenery is not placed. */
  function SceneryPassStart(st: PlaceState, list: seq<SceneryElement>): PlaceState
  {
    if |list| > 0 then st.(hasScenery := true) else st
  }

  /** The outer loop of `track_design_place_all_scenery`, from pass `mode` on. */
  function SceneryModesFrom(w: World, st: PlaceState, direction: nat, list: seq<SceneryElement>, origin: XYZ,
                            mode: nat, cost: int): (PlaceState, Option<int>)
    requires direction < 4
    decreases 2 - mode
  {
    if mode > 1 then (st, Some(cost))
    else
      var st1 := SceneryPassStart(st, list);
      if !st1.placeScenery then SceneryModesFrom(w, st1, direction, list, origin, mode + 1, cost)
      else
        var (st2, r) := SceneryElementsFrom(w, st1, direction, list, origin, mode, 0, cost);
        if r.None? then (st2, None)
        else SceneryModesFrom(w, st2, direction, list, origin, mode + 1, r.value)
  }

  /** `track_design_place_all_scenery`. */
  function PlaceAllScenery(w: World, st: PlaceState, direction: nat, list: seq<SceneryElement>, origin: XYZ)
    : (PlaceState, Option<int>)
    requires direction < 4
  {
    SceneryModesFrom(w, st, direction, list, origin, 0, 0)
  }

  // ---------------------------------------------------------------------
  // Maze

  /** The placing branch for one maze element: an entrance or exit marker, or a cell. */
  function PlaceMazeUnit(w: World, st: PlaceState, rotation: nat, m: MazeElement, mapCoord: XY, coords: XYZ,
                         rideId: nat): (PlaceState, int)
    requires rotation < 4
  {
    var op := st.operation;
    if m.Type() == MAZE_ELEMENT_TYPE_ENTRANCE || m.Type() == MAZE_ELEMENT_TYPE_EXIT then
      var isExit := m.Type() == MAZE_ELEMENT_TYPE_EXIT;
      var facing := (rotation + m.Direction()) % 4;
      var (st1, res) :=
        if op == PTD_OPERATION_PLACE_QUERY then
          Issue(w, st, EntranceExitPlaceQuery(WithZ(mapCoord, coords.z), isExit), {}, false)
        else
          Issue(w, st, RideEntranceExitPlace(mapCoord, facing, rideId, 0, isExit), StandardFlags(op, st.isReplay), true);
      var cost := CostOrUndefined(res);
      (if cost != MONEY32_UNDEFINED then st1.(entranceExitPlaced := true) else st1, cost)
    else
      var action := MazePlaceTrack(WithZ(mapCoord, coords.z), rideId, Rol16(m.entry, rotation * 4));
      var (st1, res) := IssueByFlags(w, st, action, StandardFlags(op, st.isReplay));
      (st1, CostOrUndefined(res))
  }

  /** One iteration of the element loop of `track_design_place_maze`. */
  function PlaceMazeElement(w: World, st: PlaceState, direction: nat, m: MazeElement, coords: XYZ, rideId: nat,
                            total: int): Outcome
  {
    var rotation := direction % 4;
    var mapCoord := PlacedMazeXY(m, rotation, coords);
    var st1 := UpdateMaxMin(st, WithZ(mapCoord, coords.z));
    var st2 := if st1.operation == PTD_OPERATION_DRAW_OUTLINES then AddSelectionTile(st1, mapCoord) else st1;
    if IsPlacing(st2.operation) then
      var (st3, cost) := PlaceMazeUnit(w, st2, rotation, m, mapCoord, coords, rideId);
      if cost == MONEY32_UNDEFINED then Stop(st3) else Continue(st3, total + cost)
    else if st2.operation == PTD_OPERATION_GET_PLACE_Z && IsLocationValid(mapCoord) then
      match w.surfaceAt(st2.log, mapCoord)
      case None => Continue(st2, total)
      case Some(surface) => Continue(st2.(placeZ := Raise(st2.placeZ, coords.z, SurfaceZ(surface))), total)
    else Continue(st2, total)
  }

  /** The element loop of `track_design_place_maze`, from element `i` on. */
  function MazeFrom(w: World, st: PlaceState, direction: nat, maze: seq<MazeElement>, coords: XYZ, rideId: nat,
                    i: nat, total: int): (PlaceState, Option<int>)
    requires i <= |maze|
    decreases |maze| - i
  {
    if i == |maze| then (st, Some(total))
    else match PlaceMazeElement(w, st, direction, maze[i], coords, rideId, total)
      case Stop(st1) => (st1, None)
      case Continue(st1, t1) => MazeFrom(w, st1, direction, maze, coords, rideId, i + 1, t1)
  }

  /**
   * The set-up shared by the maze and the ride: in DRAW_OUTLINES clear the
   * selection and point the arrow; then reset the placement height.
   */
  function BeginTrack(w: World, st: PlaceState, direction: nat, at: XY): PlaceState
  {
    var st1 :=
      if st.operation == PTD_OPERATION_DRAW_OUTLINES then
        st.(selectionTiles := [], arrowPosition := WithZ(at, w.heightAt(st.log, at)), arrowDirection := direction)
      else st;
    st1.(placeZ := 0)
  }

  /** The end of `track_design_place_maze`: demolish the ghost ride, remember the origin. */
  function FinishMaze(w: World, st: PlaceState, coords: XYZ, rideId: nat): PlaceState
  {
    var st1 :=
      if st.operation == PTD_OPERATION_REMOVE_GHOST then Issue(w, st, RideDemolish(rideId), GHOST_REMOVE_FLAGS, true).0
      else st;
    st1.(previewOrigin := coords)
  }

  /** `track_design_place_maze`. */
  function PlaceMaze(w: World, st: PlaceState, direction: nat, maze: seq<MazeElement>, coords: XYZ, rideId: nat)
    : (PlaceState, Option<int>)
  {
    var st1 := BeginTrack(w, st, direction, Flat(coords));
    var (st2, r) := MazeFrom(w, st1, direction, maze, coords, rideId, 0, 0);
    if r.None? then (st2, None) else (FinishMaze(w, st2, coords, rideId), r)
  }

  // ---------------------------------------------------------------------
  // Ride: track pieces

  /** The tile of a piece's block, for a piece at `cur`. */
  function BlockTile(cur: Cursor, b: TrackBlock): XY
  {
    Add(Flat(cur.pos), Rotate(XY(b.x, b.y), cur.rotation))
  }

  /** The DRAW_OUTLINES block loop: every block tile extends the box and joins the selection. */
  function OutlineBlocks(st: PlaceState, blocks: seq<TrackBlock>, i: nat, cur: Cursor): PlaceState
    requires i <= |blocks|
    decreases |blocks| - i
  {
    if i == |blocks| then st
    else
      var tile := BlockTile(cur, blocks[i]);
      OutlineBlocks(AddSelectionTile(UpdateMaxMin(st, WithZ(tile, cur.pos.z)), tile), blocks, i + 1, cur)
  }

  /**
   * The GET_PLACE_Z block loop: raise the placement height until each block
   * on a valid tile clears the surface; a valid tile without a surface fails.
   */
  function ClearBlocks(w: World, st: PlaceState, blocks: seq<TrackBlock>, i: nat, cur: Cursor, tempZ: int)
    : (PlaceState, bool)
    requires i <= |blocks|
    decreases |blocks| - i
  {
    if i == |blocks| then (st, true)
    else
      var tile := BlockTile(cur, blocks[i]);
      if !IsLocationValid(tile) then ClearBlocks(w, st, blocks, i + 1, cur, tempZ)
      else match w.surfaceAt(st.log, tile)
        case None => (st, false)
        case Some(surface) =>
          var st1 := st.(placeZ := Raise(st.placeZ, tempZ + blocks[i].z, SurfaceZ(surface)));
          ClearBlocks(w, st1, blocks, i + 1, cur, tempZ)
  }

  /** The `TrackPlaceAction` for a piece at `cur`, its attributes decoded from the flag byte. */
  function TrackPlacement(rideIndex: nat, t: TrackElement, cur: Cursor, zBegin: int): GameAction
  {
    TrackPlace(rideIndex, t.trackType, WithZ(Flat(cur.pos), cur.pos.z - zBegin), cur.rotation,
               BrakeSpeedOf(t.flags), TrackColourOf(t.flags), SeatRotationOf(t.flags),
               LiftHillAndAlternativeOf(t.flags))
  }

  /** One iteration of the track loop of `track_design_place_ride`, for the piece at `cur`. */
  function PlaceTrackPiece(w: World, st: PlaceState, t: TrackElement, cur: Cursor, total: int): Outcome
  {
    var ted := w.descriptor(t.trackType);
    var st1 := UpdateMaxMin(st, cur.pos);
    var op := st1.operation;
    if op == PTD_OPERATION_DRAW_OUTLINES then Continue(OutlineBlocks(st1, ted.Blocks(), 0, cur), total)
    else if op == PTD_OPERATION_REMOVE_GHOST then
      var tempZ := cur.pos.z - ted.coordinates.zBegin + ted.firstBlock.z;
      var action := TrackRemove(t.trackType, 0, WithZ(Flat(cur.pos), tempZ), cur.rotation % 4);
      Continue(Issue(w, st1, action, TRACK_REMOVE_FLAGS, true).0, total)
    else if IsPlacing(op) then
      var action := TrackPlacement(st1.rideIndex, t, cur, ted.coordinates.zBegin);
      var (st2, res) := IssueByFlags(w, st1, action, TrackPlaceFlags(op, st1.isReplay));
      var cost := CostOrUndefined(res);
      if cost == MONEY32_UNDEFINED then Stop(st2) else Continue(st2, total + cost)
    else if op == PTD_OPERATION_GET_PLACE_Z then
      var (st2, ok) := ClearBlocks(w, st1, ted.Blocks(), 0, cur, cur.pos.z - ted.coordinates.zBegin);
      if ok then Continue(st2, total) else Stop(st2)
    else Continue(st1, total)
  }

  /** The track loop, from piece `i` on; it also returns the cursor where it ended. */
  function TrackFrom(w: World, st: PlaceState, track: seq<TrackElement>, i: nat, cur: Cursor, total: int)
    : (PlaceState, Option<int>, Cursor)
    requires i <= |track|
    decreases |track| - i
  {
    if i == |track| then (st, Some(total), cur)
    else match PlaceTrackPiece(w, st, track[i], cur, total)
      case Stop(st1) => (st1, None, cur)
      case Continue(st1, t1) =>
        TrackFrom(w, st1, track, i + 1, Advance(cur, w.descriptor(track[i].trackType).coordinates), t1)
  }

  // ---------------------------------------------------------------------
  // Ride: entrances

  /** The index of the first track element at base height `height` on a tile, if any. */
  function FirstTrackAt(elements: seq<TileElement>, height: int, from: nat): (r: Option<nat>)
    requires from <= |elements|
    ensures r.Some? ==> from <= r.value < |elements| && elements[r.value].TrackTile?
                        && elements[r.value].baseHeight == height
    ensures r.Some? ==> forall k :: from <= k < r.value ==>
                          !(elements[k].TrackTile? && elements[k].baseHeight == height)
    ensures r.None? ==> forall k :: from <= k < |elements| ==>
                          !(elements[k].TrackTile? && elements[k].baseHeight == height)
    decreases |elements| - from
  {
    if from == |elements| then None
    else if elements[from].TrackTile? && elements[from].baseHeight == height then Some(from)
    else FirstTrackAt(elements, height, from + 1)
  }

  /**
   * An entrance or exit placed for real: it joins the station of the first
   * track element at its height on the tile it faces. Returns that height,
   * which the next entrance starts from.
   */
  function PlaceEntranceAtTrack(w: World, st: PlaceState, rideId: nat, e: EntranceElement, at: XY, facing: nat,
                                total: int): (Outcome, int)
    requires facing < 4
  {
    var height := PlacedEntranceHeight(e, st.previewOrigin.z);
    var elements := w.elementsAt(st.log, Add(at, DirectionDelta(facing)));
    if |elements| == 0 then (Stop(st), height)
    else match FirstTrackAt(elements, height, 0)
      case None => (Continue(st, total), height)
      case Some(k) =>
        var action := RideEntranceExitPlace(at, facing, rideId, elements[k].station, e.isExit);
        var (st1, res) := IssueByFlags(w, st, action, StandardFlags(st.operation, st.isReplay));
        if !res.ok then (Stop(st1), height)
        else (Continue(st1.(entranceExitPlaced := true), total + res.cost), height)
  }

  /** An entrance or exit in PLACE_QUERY: only asked about, always as an entrance. */
  function QueryEntrance(w: World, st: PlaceState, e: EntranceElement, at: XY, total: int): (Outcome, int)
  {
    var qz := PlacedEntranceQueryZ(e, st.previewOrigin.z);
    var (st1, res) := Issue(w, st, EntranceExitPlaceQuery(WithZ(at, qz), false), {}, false);
    if !res.ok then (Stop(st1), qz)
    else (Continue(st1.(entranceExitPlaced := true), total + res.cost), qz)
  }

  /**
   * One iteration of the entrance loop of `track_design_place_ride`: the
   * entrance at its rotated offset from the origin, at the height `z` the
   * previous step left. Returns the height it leaves for the next step.
   */
  function PlaceEntrance(w: World, st: PlaceState, direction: nat, rideId: nat, e: EntranceElement, z: int,
                         total: int): (Outcome, int)
  {
    var rotation := direction % 4;
    var at := PlacedEntranceXY(e, rotation, st.previewOrigin);
    EntranceByOperation(w, UpdateMaxMin(st, WithZ(at, z)), rideId, e, at, (rotation + e.direction as nat) % 4,
                        z, total)
  }

  /** What an entrance step does, once the preview box is extended, under each operation. */
  function EntranceByOperation(w: World, st: PlaceState, rideId: nat, e: EntranceElement, at: XY, facing: nat,
                               z: int, total: int): (Outcome, int)
    requires facing < 4
  {
    var op := st.operation;
    if op == PTD_OPERATION_DRAW_OUTLINES then (Continue(AddSelectionTile(st, at), total), z)
    else if !IsPlacing(op) then (Continue(st, total), z)
    else if op != PTD_OPERATION_PLACE_QUERY then PlaceEntranceAtTrack(w, st, rideId, e, at, facing, total)
    else QueryEntrance(w, st, e, at, total)
  }

  /** The entrance loop, from entrance `i` on. */
  function EntrancesFrom(w: World, st: PlaceState, direction: nat, rideId: nat, entrances: seq<EntranceElement>,
                         i: nat, z: int, total: int): (PlaceState, Option<int>)
    requires i <= |entrances|
    decreases |entrances| - i
  {
    if i == |entrances| then (st, Some(total))
    else match PlaceEntrance(w, st, direction, rideId, entrances[i], z, total)
      case (Stop(st1), _) => (st1, None)
      case (Continue(st1, t1), z1) => EntrancesFrom(w, st1, direction, rideId, entrances, i + 1, z1, t1)
  }

  /** The end of `track_design_place_ride`: delete the ghost ride. */
  function FinishRide(w: World, st: PlaceState, rideId: nat): PlaceState
  {
    if st.operation == PTD_OPERATION_REMOVE_GHOST then Issue(w, st, RideDelete(rideId), {}, true).0 else st
  }

  /** `track_design_place_ride`. */
  function PlaceRide(w: World, st: PlaceState, direction: nat, td: DesignRecord, origin: XYZ, rideId: nat)
    : (PlaceState, Option<int>)
  {
    var st1 := BeginTrack(w, st.(previewOrigin := origin), direction, Flat(origin));
    var (st2, r, cur) := TrackFrom(w, st1, td.trackElements, 0, Cursor(origin, direction), 0);
    if r.None? then (st2, None)
    else
      var (st3, r2) := EntrancesFrom(w, st2, direction, rideId, td.entranceElements, 0, cur.pos.z, r.value);
      if r2.None? then (st3, None) else (FinishRide(w, st3, rideId), r2)
  }

  // ---------------------------------------------------------------------
  // place_virtual_track

  /** The state `place_virtual_track` sets up before dispatching. */
  function StartPlacement(st: PlaceState, sceneryToggle: bool, ptdOperation: nat, placeScenery: bool, rideId: nat,
                          coords: XYZ): PlaceState
    requires ptdOperation < 256
  {
    var split := SplitOperation(ptdOperation);
    st.(placeScenery := placeScenery && !sceneryToggle, entranceExitPlaced := false,
        sceneryUnavailable := false, hasScenery := false, isReplay := split.1, operation := split.0,
        rideIndex := rideId, previewMin := coords, previewMax := coords, sceneryZ := 0)
  }

  /** The end of `place_virtual_track`: outline flags, then the height or the cost. */
  function FinishPlacement(st: PlaceState, cost: Option<int>): (PlaceState, int)
  {
    var st1 :=
      if st.operation == PTD_OPERATION_DRAW_OUTLINES then
        st.(selectFlags := st.selectFlags + {EnableConstruct, EnableArrow} - {Green})
      else st;
    if st1.operation == PTD_OPERATION_GET_PLACE_Z then (st1, st1.placeZ - st1.sceneryZ)
    else (st1, if cost.Some? then cost.value else MONEY32_UNDEFINED)
  }

  /** The track half of `place_virtual_track`: a maze or any other ride. */
  function PlaceTrack(w: World, st: PlaceState, direction: nat, td: DesignRecord, coords: XYZ, rideId: nat)
    : (PlaceState, Option<int>)
  {
    if td.rideType == RIDE_TYPE_MAZE then PlaceMaze(w, st, direction, td.mazeElements, coords, rideId)
    else PlaceRide(w, st, direction, td, coords, rideId)
  }

  /**
   * The rest of `place_virtual_track` once the track is placed: the scenery
   * when the track succeeded, a scenery failure returning at once, then the report.
   */
  function CompletePlacement(w: World, st: PlaceState, direction: nat, td: DesignRecord, trackCost: Option<int>)
    : (PlaceState, int)
    requires direction < 4
  {
    if trackCost.None? then FinishPlacement(st, None)
    else
      var (st1, sceneryCost) := PlaceAllScenery(w, st, direction, td.sceneryElements, st.previewOrigin);
      if sceneryCost.None? then (st1, MONEY32_UNDEFINED)
      else FinishPlacement(st1, Some(trackCost.value + sceneryCost.value))
  }

  /** `place_virtual_track`. */
  function PlaceVirtualTrack(w: World, st: PlaceState, direction: nat, sceneryToggle: bool, td: DesignRecord,
                             ptdOperation: nat, placeScenery: bool, rideId: nat, coords: XYZ): (PlaceState, int)
    requires direction < 4 && ptdOperation < 256
  {
    var st1 := StartPlacement(st, sceneryToggle, ptdOperation, placeScenery, rideId, coords);
    var (st2, trackCost) := PlaceTrack(w, st1, direction, td, coords, rideId);
    CompletePlacement(w, st2, direction, td, trackCost)
  }
}

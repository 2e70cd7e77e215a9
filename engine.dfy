/**
 * The placement engine as the source runs it: the file-static placement
 * state as the fields of one object, each routine a method that updates
 * those fields in place, the loops as loops. Every method is proved to do
 * exactly what the corresponding function of `Walker` says.
 */
module Engine {
  import opened Common
  import opened Geometry
  import opened Bits
  import opened Records
  import opened World
  import opened Placement
  import Walker

  type Direction = d: nat | d < 4

  class TrackDesignState {
    var previewMin: XYZ
    var previewMax: XYZ
    var previewOrigin: XYZ
    var operation: nat
    var placeZ: int
    var sceneryZ: int
    var entranceExitPlaced: bool
    var sceneryUnavailable: bool
    var hasScenery: bool
    var placeScenery: bool
    var isReplay: bool
    var rideIndex: nat
    var selectionTiles: seq<XY>
    var arrowPosition: XYZ
    var arrowDirection: nat
    var selectFlags: set<Walker.SelectFlag>
    var log: seq<Issued>

    /** The game the engine runs in. */
    const world: World
    /** `_currentTrackPieceDirection`, set by the caller before placing. */
    const currentTrackPieceDirection: Direction
    /** `gTrackDesignSceneryToggle`. */
    const sceneryToggle: bool

    function View(): Walker.PlaceState
      reads this
    {
      Walker.PlaceState(previewMin, previewMax, previewOrigin, operation, placeZ, sceneryZ,
                        entranceExitPlaced, sceneryUnavailable, hasScenery, placeScenery, isReplay,
                        rideIndex, selectionTiles, arrowPosition, arrowDirection, selectFlags, log)
    }

    constructor(w: World, direction: Direction, toggle: bool, st: Walker.PlaceState)
      ensures View() == st
      ensures world == w && currentTrackPieceDirection == direction && sceneryToggle == toggle
    {
      world := w;
      currentTrackPieceDirection := direction;
      sceneryToggle := toggle;
      previewMin, previewMax, previewOrigin := st.previewMin, st.previewMax, st.previewOrigin;
      operation, placeZ, sceneryZ := st.operation, st.placeZ, st.sceneryZ;
      entranceExitPlaced, sceneryUnavailable := st.entranceExitPlaced, st.sceneryUnavailable;
      hasScenery, placeScenery, isReplay := st.hasScenery, st.placeScenery, st.isReplay;
      rideIndex, selectionTiles := st.rideIndex, st.selectionTiles;
      arrowPosition, arrowDirection, selectFlags := st.arrowPosition, st.arrowDirection, st.selectFlags;
      log := st.log;
    }

    // -------------------------------------------------------------------
    // Primitive effects

    /** `track_design_update_max_min_coordinates`. */
    method UpdateMaxMin(c: XYZ)
      modifies this
      ensures View() == Walker.UpdateMaxMin(old(View()), c)
    {
      previewMin := XYZ(Min(previewMin.x, c.x), Min(previewMin.y, c.y), Min(previewMin.z, c.z));
      previewMax := XYZ(Max(previewMax.x, c.x), Max(previewMax.y, c.y), Max(previewMax.z, c.z));
    }

    /** `track_design_add_selection_tile`: a linear search, then an append when the tile is new. */
    method AddSelectionTile(t: XY)
      modifies this
      ensures View() == Walker.AddSelectionTile(old(View()), t)
    {
      var i := 0;
      while i < |selectionTiles| && selectionTiles[i] != t
        invariant 0 <= i <= |selectionTiles|
        invariant forall k :: 0 <= k < i ==> selectionTiles[k] != t
      {
        i := i + 1;
      }
      if i == |selectionTiles| {
        selectionTiles := selectionTiles + [t];
      }
    }

    /** Issue a game action: ask the oracle, then record it. */
    method Issue(a: GameAction, flags: CommandFlags, execute: bool) returns (res: ActionResult)
      modifies this
      ensures (View(), res) == Walker.Issue(world, old(View()), a, flags, execute)
    {
      var i := Issued(a, flags, execute);
      res := world.respond(log, i);
      log := log + [i];
    }

    method IssueByFlags(a: GameAction, flags: CommandFlags) returns (res: ActionResult)
      modifies this
      ensures (View(), res) == Walker.IssueByFlags(world, old(View()), a, flags)
    {
      res := Issue(a, flags, Apply in flags);
    }

    /** `TrackDesignPlaceSceneryElementGetEntry`. */
    method GetEntry(s: SceneryElement) returns (e: Option<SceneryEntry>)
      modifies this
      ensures (View(), e) == Walker.GetEntry(world, old(View()), s)
    {
      e := world.resolve(s.sceneryObject, s.IsQueue());
      if e.None? {
        sceneryUnavailable := true;
      }
    }

    // -------------------------------------------------------------------
    // One scenery element

    /** `TrackDesignPlaceSceneryElementRemoveGhost`. */
    method RemoveGhostScenery(mapCoord: XY, s: SceneryElement, rotation: nat, originZ: int)
      modifies this
      ensures View() == Walker.RemoveGhostScenery(world, old(View()), currentTrackPieceDirection, mapCoord, s,
                                                  rotation, originZ)
    {
      var entry := GetEntry(s);
      if entry.None? || sceneryUnavailable {
        return;
      }
      var e := entry.value;
      var loc := WithZ(mapCoord, PlacedSceneryZ(s, originZ));
      var facing := PlacedDirection(rotation, s.flags);
      match e.kind {
        case SmallScenery =>
          var quadrant := PlacedQuadrant(currentTrackPieceDirection, s.flags);
          if !(!e.fullTile && e.diagonal) && (e.diagonal || e.halfSpace || e.threeQuarters) {
            quadrant := 0;
          }
          var _ := Issue(SmallSceneryRemove(loc, quadrant, e.index), GHOST_REMOVE_FLAGS, true);
        case LargeScenery =>
          var _ := Issue(LargeSceneryRemove(loc, facing), GHOST_REMOVE_FLAGS, true);
        case Walls =>
          var _ := Issue(WallRemove(loc, facing), GHOST_REMOVE_FLAGS, true);
        case Paths =>
          var _ := Issue(FootpathRemove(loc), GHOST_REMOVE_FLAGS, true);
        case FootpathSurface =>
          var _ := Issue(FootpathRemove(loc), GHOST_REMOVE_FLAGS, true);
        case _ =>
      }
    }

    /** `TrackDesignPlaceSceneryElementGetPlaceZ`. */
    method SceneryPlaceZ(s: SceneryElement)
      modifies this
      ensures View() == Walker.SceneryPlaceZ(world, old(View()), s)
    {
      var z := s.z * COORDS_Z_STEP + placeZ;
      if z < sceneryZ {
        sceneryZ := z;
      }
      var _ := GetEntry(s);
    }

    /** The footpath branch of `TrackDesignPlaceSceneryElement`. */
    method PlacePath(mapCoord: XY, mode: nat, s: SceneryElement, rotation: nat, originZ: int, e: SceneryEntry)
      returns (r: Option<int>)
      requires rotation < 4
      modifies this
      ensures (View(), r) == Walker.PlacePath(world, old(View()), mapCoord, mode, s, rotation, originZ, e)
    {
      var z := TDiv(s.z * COORDS_Z_STEP + originZ, COORDS_Z_STEP);
      if mode == 0 {
        var res := IssueByFlags(Walker.PathAction(mapCoord, s, rotation, z, e), StandardFlags(operation, isReplay));
        r := Walker.SceneryCost(operation, Walker.CostOrZero(res));
      } else if operation == PTD_OPERATION_PLACE_QUERY {
        r := Some(0);
      } else if !world.hasPathAt(log, WithZ(ToTile(mapCoord), z)) {
        r := Some(0);
      } else {
        var _ := Issue(FootpathReconnect(mapCoord, z), StandardFlags(operation, isReplay), true);
        r := Some(0);
      }
    }

    method PlaceSmallScenery(loc: XYZ, s: SceneryElement, rotation: nat, e: SceneryEntry) returns (r: Option<int>)
      modifies this
      ensures (View(), r) == Walker.PlaceSmallScenery(world, old(View()), currentTrackPieceDirection, loc, s,
                                                      rotation, e)
    {
      var action := SmallSceneryPlace(loc, PlacedDirection(rotation, s.flags),
                                      PlacedQuadrant(currentTrackPieceDirection, s.flags), e.index,
                                      s.primaryColour, s.secondaryColour);
      var res := IssueByFlags(action, SceneryObjectFlags(operation, isReplay));
      r := Walker.SceneryCost(operation, Walker.CostOrZero(res));
    }

    method PlaceLargeScenery(loc: XYZ, s: SceneryElement, rotation: nat, e: SceneryEntry) returns (r: Option<int>)
      modifies this
      ensures (View(), r) == Walker.PlaceLargeScenery(world, old(View()), loc, s, rotation, e)
    {
      var action := LargeSceneryPlace(loc, PlacedDirection(rotation, s.flags), e.index, s.primaryColour,
                                      s.secondaryColour);
      var res := IssueByFlags(action, SceneryObjectFlags(operation, isReplay));
      r := Walker.SceneryCost(operation, res.cost);
    }

    method PlaceWall(loc: XYZ, s: SceneryElement, rotation: nat, e: SceneryEntry) returns (r: Option<int>)
      modifies this
      ensures (View(), r) == Walker.PlaceWall(world, old(View()), loc, s, rotation, e)
    {
      var action := WallPlace(e.index, loc, PlacedDirection(rotation, s.flags), s.primaryColour, s.secondaryColour,
                              ((s.flags & 0xFC) >> 2) as nat);
      var res := IssueByFlags(action, WallFlags(operation, isReplay));
      r := Walker.SceneryCost(operation, res.cost);
    }

    /** The placing branch of `TrackDesignPlaceSceneryElement`, once the object is resolved. */
    method PlaceSceneryObject(mapCoord: XY, mode: nat, s: SceneryElement, rotation: nat, originZ: int,
                              e: SceneryEntry) returns (r: Option<int>)
      requires rotation < 4
      modifies this
      ensures (View(), r) == Walker.PlaceSceneryObject(world, old(View()), currentTrackPieceDirection, mapCoord,
                                                       mode, s, rotation, originZ, e)
    {
      var loc := WithZ(mapCoord, PlacedSceneryZ(s, originZ));
      match e.kind {
        case SmallScenery =>
          r := Some(0);
          if mode == 0 {
            r := PlaceSmallScenery(loc, s, rotation, e);
          }
        case LargeScenery =>
          r := Some(0);
          if mode == 0 {
            r := PlaceLargeScenery(loc, s, rotation, e);
          }
        case Walls =>
          r := Some(0);
          if mode == 0 {
            r := PlaceWall(loc, s, rotation, e);
          }
        case Paths =>
          r := PlacePath(mapCoord, mode, s, rotation, originZ, e);
        case FootpathSurface =>
          r := PlacePath(mapCoord, mode, s, rotation, originZ, e);
        case _ =>
          sceneryUnavailable := true;
          r := Some(0);
      }
    }

    /** `TrackDesignPlaceSceneryElement`. */
    method PlaceSceneryElement(mapCoord: XY, mode: nat, s: SceneryElement, rotation: nat, originZ: int)
      returns (r: Option<int>)
      requires rotation < 4
      modifies this
      ensures (View(), r) == Walker.PlaceSceneryElement(world, old(View()), currentTrackPieceDirection, mapCoord,
                                                        mode, s, rotation, originZ)
    {
      if operation == PTD_OPERATION_DRAW_OUTLINES && mode == 0 {
        AddSelectionTile(mapCoord);
        return Some(0);
      }
      if operation == PTD_OPERATION_REMOVE_GHOST && mode == 0 {
        RemoveGhostScenery(mapCoord, s, rotation, originZ);
        return Some(0);
      }
      if operation == PTD_OPERATION_GET_PLACE_Z {
        SceneryPlaceZ(s);
        return Some(0);
      }
      if !IsPlacing(operation) {
        return Some(0);
      }
      var entry := GetEntry(s);
      if entry.None? {
        return Some(0);
      }
      r := PlaceSceneryObject(mapCoord, mode, s, rotation, originZ, entry.value);
    }

    // -------------------------------------------------------------------
    // All scenery

    /** One iteration of the inner loop of `track_design_place_all_scenery`. */
    method SceneryStep(s: SceneryElement, origin: XYZ, mode: nat, cost: int) returns (stop: bool, cost': int)
      modifies this
      ensures Walker.SceneryStep(world, old(View()), currentTrackPieceDirection, s, origin, mode, cost)
              == if stop then Walker.Stop(View()) else Walker.Continue(View(), cost')
    {
      var c := Walker.SceneryMapCoord(s, currentTrackPieceDirection, origin);
      UpdateMaxMin(c);
      var placed := PlaceSceneryElement(Flat(c), mode, s, currentTrackPieceDirection, origin.z);
      if placed.None? || placed.value == MONEY32_UNDEFINED {
        return true, cost;
      }
      return false, cost + placed.value;
    }

    /** The same iteration, as a step of the fold over the list. */
    method PlaceSceneryAt(list: seq<SceneryElement>, origin: XYZ, mode: nat, i: nat, cost: int)
      returns (stop: bool, cost': int)
      requires i < |list|
      modifies this
      ensures Walker.SceneryElementsFrom(world, old(View()), currentTrackPieceDirection, list, origin, mode, i, cost)
              == if stop then (View(), None)
                 else Walker.SceneryElementsFrom(world, View(), currentTrackPieceDirection, list, origin, mode, i + 1, cost')
    {
      stop, cost' := SceneryStep(list[i], origin, mode, cost);
    }

    /** One pass of `track_design_place_all_scenery` over the scenery list. */
    method SceneryPass(list: seq<SceneryElement>, origin: XYZ, mode: nat, cost: int) returns (r: Option<int>)
      modifies this
      ensures (View(), r) == Walker.SceneryElementsFrom(world, old(View()), currentTrackPieceDirection, list, origin,
                                                        mode, 0, cost)
    {
      ghost var s0 := View();
      var total := cost;
      var i := 0;
      while i < |list|
        invariant i <= |list|
        invariant Walker.SceneryElementsFrom(world, View(), currentTrackPieceDirection, list, origin, mode, i, total)
                  == Walker.SceneryElementsFrom(world, s0, currentTrackPieceDirection, list, origin, mode, 0, cost)
      {
        var stop;
        stop, total := PlaceSceneryAt(list, origin, mode, i, total);
        if stop {
          return None;
        }
        i := i + 1;
      }
      r := Some(total);
    }

    /** `track_design_place_all_scenery`: two passes over the scenery list. */
    method PlaceAllScenery(list: seq<SceneryElement>, origin: XYZ) returns (r: Option<int>)
      modifies this
      ensures (View(), r) == Walker.PlaceAllScenery(world, old(View()), currentTrackPieceDirection, list, origin)
    {
      ghost var s0 := View();
      var cost := 0;
      var mode := 0;
      while mode <= 1
        invariant mode <= 2
        invariant Walker.SceneryModesFrom(world, View(), currentTrackPieceDirection, list, origin, mode, cost)
                  == Walker.SceneryModesFrom(world, s0, currentTrackPieceDirection, list, origin, 0, 0)
        decreases 2 - mode
      {
        if |list| > 0 {
          hasScenery := true;
        }
        if placeScenery {
          var passCost := SceneryPass(list, origin, mode, cost);
          if passCost.None? {
            return None;
          }
          cost := passCost.value;
        }
        mode := mode + 1;
      }
      r := Some(cost);
    }

    // -------------------------------------------------------------------
    // Maze

    /** The set-up shared by the maze and the ride. */
    method BeginTrack(at: XY)
      modifies this
      ensures View() == Walker.BeginTrack(world, old(View()), currentTrackPieceDirection, at)
    {
      if operation == PTD_OPERATION_DRAW_OUTLINES {
        selectionTiles := [];
        arrowPosition := WithZ(at, world.heightAt(log, at));
        arrowDirection := currentTrackPieceDirection;
      }
      placeZ := 0;
    }

    /** The placing branch for one maze element. */
    method PlaceMazeUnit(rotation: nat, m: MazeElement, mapCoord: XY, coords: XYZ, rideId: nat)
      returns (cost: int)
      requires rotation < 4
      modifies this
      ensures (View(), cost) == Walker.PlaceMazeUnit(world, old(View()), rotation, m, mapCoord, coords, rideId)
    {
      if m.Type() == MAZE_ELEMENT_TYPE_ENTRANCE || m.Type() == MAZE_ELEMENT_TYPE_EXIT {
        var isExit := m.Type() == MAZE_ELEMENT_TYPE_EXIT;
        var facing := (rotation + m.Direction()) % 4;
        var res;
        if operation == PTD_OPERATION_PLACE_QUERY {
          res := Issue(EntranceExitPlaceQuery(WithZ(mapCoord, coords.z), isExit), {}, false);
        } else {
          res := Issue(RideEntranceExitPlace(mapCoord, facing, rideId, 0, isExit),
                       StandardFlags(operation, isReplay), true);
        }
        cost := Walker.CostOrUndefined(res);
        if cost != MONEY32_UNDEFINED {
          entranceExitPlaced := true;
        }
      } else {
        var action := MazePlaceTrack(WithZ(mapCoord, coords.z), rideId, Rol16(m.entry, rotation * 4));
        var res := IssueByFlags(action, StandardFlags(operation, isReplay));
        cost := Walker.CostOrUndefined(res);
      }
    }

    /** One iteration of the element loop of `track_design_place_maze`. */
    method PlaceMazeElement(m: MazeElement, coords: XYZ, rideId: nat, total: int)
      returns (stop: bool, total': int)
      modifies this
      ensures Walker.PlaceMazeElement(world, old(View()), currentTrackPieceDirection, m, coords, rideId, total)
              == if stop then Walker.Stop(View()) else Walker.Continue(View(), total')
    {
      var rotation := currentTrackPieceDirection % 4;
      var mapCoord := PlacedMazeXY(m, rotation, coords);
      UpdateMaxMin(WithZ(mapCoord, coords.z));
      if operation == PTD_OPERATION_DRAW_OUTLINES {
        AddSelectionTile(mapCoord);
      }
      stop, total' := false, total;
      if IsPlacing(operation) {
        var cost := PlaceMazeUnit(rotation, m, mapCoord, coords, rideId);
        if cost == MONEY32_UNDEFINED {
          return true, total;
        }
        total' := total + cost;
      } else if operation == PTD_OPERATION_GET_PLACE_Z && IsLocationValid(mapCoord) {
        var surface := world.surfaceAt(log, mapCoord);
        if surface.Some? {
          placeZ := Raise(placeZ, coords.z, SurfaceZ(surface.value));
        }
      }
    }

    /** One iteration of the element loop of `track_design_place_maze`, as a step of the fold. */
    method MazeStep(maze: seq<MazeElement>, coords: XYZ, rideId: nat, i: nat, total: int)
      returns (stop: bool, total': int)
      requires i < |maze|
      modifies this
      ensures Walker.MazeFrom(world, old(View()), currentTrackPieceDirection, maze, coords, rideId, i, total)
              == if stop then (View(), None)
                 else Walker.MazeFrom(world, View(), currentTrackPieceDirection, maze, coords, rideId, i + 1, total')
    {
      stop, total' := PlaceMazeElement(maze[i], coords, rideId, total);
    }

    /** The element loop of `track_design_place_maze`. */
    method PlaceMazeElements(maze: seq<MazeElement>, coords: XYZ, rideId: nat) returns (r: Option<int>)
      modifies this
      ensures (View(), r) == Walker.MazeFrom(world, old(View()), currentTrackPieceDirection, maze, coords, rideId, 0, 0)
    {
      ghost var s0 := View();
      var total := 0;
      var i := 0;
      while i < |maze|
        invariant i <= |maze|
        invariant Walker.MazeFrom(world, View(), currentTrackPieceDirection, maze, coords, rideId, i, total)
                  == Walker.MazeFrom(world, s0, currentTrackPieceDirection, maze, coords, rideId, 0, 0)
      {
        var stop;
        stop, total := MazeStep(maze, coords, rideId, i, total);
        if stop {
          return None;
        }
        i := i + 1;
      }
      r := Some(total);
    }

    /** The end of `track_design_place_maze`. */
    method FinishMaze(coords: XYZ, rideId: nat)
      modifies this
      ensures View() == Walker.FinishMaze(world, old(View()), coords, rideId)
    {
      if operation == PTD_OPERATION_REMOVE_GHOST {
        var _ := Issue(RideDemolish(rideId), GHOST_REMOVE_FLAGS, true);
      }
      previewOrigin := coords;
    }

    /** `track_design_place_maze`. */
    method PlaceMaze(maze: seq<MazeElement>, coords: XYZ, rideId: nat) returns (r: Option<int>)
      modifies this
      ensures (View(), r) == Walker.PlaceMaze(world, old(View()), currentTrackPieceDirection, maze, coords, rideId)
    {
      BeginTrack(Flat(coords));
      r := PlaceMazeElements(maze, coords, rideId);
      if r.Some? {
        FinishMaze(coords, rideId);
      }
    }

    // -------------------------------------------------------------------
    // Ride: track pieces

    /** The DRAW_OUTLINES block loop of one track piece. */
    method OutlineBlocks(blocks: seq<TrackBlock>, cur: Cursor)
      modifies this
      ensures View() == Walker.OutlineBlocks(old(View()), blocks, 0, cur)
    {
      ghost var s0 := View();
      var i := 0;
      while i < |blocks|
        invariant i <= |blocks|
        invariant Walker.OutlineBlocks(View(), blocks, i, cur) == Walker.OutlineBlocks(s0, blocks, 0, cur)
      {
        var tile := Walker.BlockTile(cur, blocks[i]);
        UpdateMaxMin(WithZ(tile, cur.pos.z));
        AddSelectionTile(tile);
        i := i + 1;
      }
    }

    /** The GET_PLACE_Z block loop of one track piece. */
    method ClearBlocks(blocks: seq<TrackBlock>, cur: Cursor, tempZ: int) returns (ok: bool)
      modifies this
      ensures (View(), ok) == Walker.ClearBlocks(world, old(View()), blocks, 0, cur, tempZ)
    {
      ghost var s0 := View();
      var i := 0;
      while i < |blocks|
        invariant i <= |blocks|
        invariant Walker.ClearBlocks(world, View(), blocks, i, cur, tempZ)
                  == Walker.ClearBlocks(world, s0, blocks, 0, cur, tempZ)
      {
        var tile := Walker.BlockTile(cur, blocks[i]);
        if IsLocationValid(tile) {
          var surface := world.surfaceAt(log, tile);
          if surface.None? {
            return false;
          }
          placeZ := Raise(placeZ, tempZ + blocks[i].z, SurfaceZ(surface.value));
        }
        i := i + 1;
      }
      ok := true;
    }

    /** One iteration of the track loop of `track_design_place_ride`. */
    method PlaceTrackPiece(t: TrackElement, cur: Cursor, total: int) returns (stop: bool, total': int)
      modifies this
      ensures Walker.PlaceTrackPiece(world, old(View()), t, cur, total)
              == if stop then Walker.Stop(View()) else Walker.Continue(View(), total')
    {
      var ted := world.descriptor(t.trackType);
      UpdateMaxMin(cur.pos);
      stop, total' := false, total;
      if operation == PTD_OPERATION_DRAW_OUTLINES {
        OutlineBlocks(ted.Blocks(), cur);
      } else if operation == PTD_OPERATION_REMOVE_GHOST {
        var tempZ := cur.pos.z - ted.coordinates.zBegin + ted.firstBlock.z;
        var _ := Issue(TrackRemove(t.trackType, 0, WithZ(Flat(cur.pos), tempZ), cur.rotation % 4),
                       TRACK_REMOVE_FLAGS, true);
      } else if IsPlacing(operation) {
        var action := Walker.TrackPlacement(rideIndex, t, cur, ted.coordinates.zBegin);
        var res := IssueByFlags(action, TrackPlaceFlags(operation, isReplay));
        var cost := Walker.CostOrUndefined(res);
        if cost == MONEY32_UNDEFINED {
          return true, total;
        }
        total' := total + cost;
      } else if operation == PTD_OPERATION_GET_PLACE_Z {
        var ok := ClearBlocks(ted.Blocks(), cur, cur.pos.z - ted.coordinates.zBegin);
        stop := !ok;
      }
    }

    /** One iteration of the track loop, as a step of the fold: place the piece, then move the cursor on. */
    method TrackStep(track: seq<TrackElement>, i: nat, cur: Cursor, total: int) returns (stop: bool, total': int)
      requires i < |track|
      modifies this
      ensures Walker.TrackFrom(world, old(View()), track, i, cur, total)
              == if stop then (View(), None, cur)
                 else Walker.TrackFrom(world, View(), track, i + 1,
                                       Advance(cur, world.descriptor(track[i].trackType).coordinates), total')
    {
      stop, total' := PlaceTrackPiece(track[i], cur, total);
    }

    // -------------------------------------------------------------------
    // Ride: entrances

    /** The tile-element walk of the entrance loop: the first track element at `height`. */
    method FindTrackAt(elements: seq<TileElement>, height: int) returns (r: Option<nat>)
      ensures r == Walker.FirstTrackAt(elements, height, 0)
    {
      var i := 0;
      while i < |elements|
        invariant i <= |elements|
        invariant Walker.FirstTrackAt(elements, height, i) == Walker.FirstTrackAt(elements, height, 0)
      {
        if elements[i].TrackTile? && elements[i].baseHeight == height {
          return Some(i);
        }
        i := i + 1;
      }
      r := None;
    }

    /** An entrance or exit placed for real, joined to the station of the track it faces. */
    method PlaceEntranceAtTrack(rideId: nat, e: EntranceElement, at: XY, facing: nat, total: int)
      returns (stop: bool, z': int, total': int)
      requires facing < 4
      modifies this
      ensures Walker.PlaceEntranceAtTrack(world, old(View()), rideId, e, at, facing, total)
              == (if stop then Walker.Stop(View()) else Walker.Continue(View(), total'), z')
    {
      z' := PlacedEntranceHeight(e, previewOrigin.z);
      var elements := world.elementsAt(log, Add(at, DirectionDelta(facing)));
      if |elements| == 0 {
        return true, z', total;
      }
      stop, total' := false, total;
      var k := FindTrackAt(elements, z');
      if k.Some? {
        var action := RideEntranceExitPlace(at, facing, rideId, elements[k.value].station, e.isExit);
        var res := IssueByFlags(action, StandardFlags(operation, isReplay));
        if !res.ok {
          return true, z', total;
        }
        entranceExitPlaced := true;
        total' := total + res.cost;
      }
    }

    /** An entrance or exit in PLACE_QUERY. */
    method QueryEntrance(e: EntranceElement, at: XY, total: int) returns (stop: bool, z': int, total': int)
      modifies this
      ensures Walker.QueryEntrance(world, old(View()), e, at, total)
              == (if stop then Walker.Stop(View()) else Walker.Continue(View(), total'), z')
    {
      z' := PlacedEntranceQueryZ(e, previewOrigin.z);
      var res := Issue(EntranceExitPlaceQuery(WithZ(at, z'), false), {}, false);
      if !res.ok {
        return true, z', total;
      }
      entranceExitPlaced := true;
      stop, total' := false, total + res.cost;
    }

    /** An entrance step after the preview box is extended, under each operation. */
    method EntranceByOperation(rideId: nat, e: EntranceElement, at: XY, facing: nat, z: int, total: int)
      returns (stop: bool, z': int, total': int)
      requires facing < 4
      modifies this
      ensures Walker.EntranceByOperation(world, old(View()), rideId, e, at, facing, z, total)
              == (if stop then Walker.Stop(View()) else Walker.Continue(View(), total'), z')
    {
      stop, z', total' := false, z, total;
      if operation == PTD_OPERATION_DRAW_OUTLINES {
        AddSelectionTile(at);
      } else if IsPlacing(operation) {
        if operation != PTD_OPERATION_PLACE_QUERY {
          stop, z', total' := PlaceEntranceAtTrack(rideId, e, at, facing, total);
        } else {
          stop, z', total' := QueryEntrance(e, at, total);
        }
      }
    }

    /** One iteration of the entrance loop of `track_design_place_ride`. */
    method PlaceEntrance(rideId: nat, e: EntranceElement, z: int, total: int)
      returns (stop: bool, z': int, total': int)
      modifies this
      ensures Walker.PlaceEntrance(world, old(View()), currentTrackPieceDirection, rideId, e, z, total)
              == (if stop then Walker.Stop(View()) else Walker.Continue(View(), total'), z')
    {
      var rotation := currentTrackPieceDirection % 4;
      var at := PlacedEntranceXY(e, rotation, previewOrigin);
      UpdateMaxMin(WithZ(at, z));
      stop, z', total' := EntranceByOperation(rideId, e, at, (rotation + e.direction as nat) % 4, z, total);
    }

    /** One iteration of the entrance loop, as a step of the fold. */
    method EntranceStep(rideId: nat, entrances: seq<EntranceElement>, i: nat, z: int, total: int)
      returns (stop: bool, z': int, total': int)
      requires i < |entrances|
      modifies this
      ensures Walker.EntrancesFrom(world, old(View()), currentTrackPieceDirection, rideId, entrances, i, z, total)
              == if stop then (View(), None)
                 else Walker.EntrancesFrom(world, View(), currentTrackPieceDirection, rideId, entrances, i + 1, z', total')
    {
      stop, z', total' := PlaceEntrance(rideId, entrances[i], z, total);
    }

    /** The track loop of `track_design_place_ride`; it also returns where the walk ended. */
    method PlaceTrackElements(track: seq<TrackElement>, origin: XYZ) returns (r: Option<int>, cur: Cursor)
      modifies this
      ensures (View(), r, cur) == Walker.TrackFrom(world, old(View()), track, 0,
                                                   Cursor(origin, currentTrackPieceDirection), 0)
    {
      ghost var s0 := View();
      var total := 0;
      cur := Cursor(origin, currentTrackPieceDirection);
      var i := 0;
      while i < |track|
        invariant i <= |track|
        invariant Walker.TrackFrom(world, View(), track, i, cur, total)
                  == Walker.TrackFrom(world, s0, track, 0, Cursor(origin, currentTrackPieceDirection), 0)
      {
        var stop;
        stop, total := TrackStep(track, i, cur, total);
        if stop {
          return None, cur;
        }
        cur := Advance(cur, world.descriptor(track[i].trackType).coordinates);
        i := i + 1;
      }
      r := Some(total);
    }

    /** The entrance loop of `track_design_place_ride`, starting at height `z` with `total` so far. */
    method PlaceEntrances(rideId: nat, entrances: seq<EntranceElement>, z: int, total: int) returns (r: Option<int>)
      modifies this
      ensures (View(), r) == Walker.EntrancesFrom(world, old(View()), currentTrackPieceDirection, rideId, entrances,
                                                  0, z, total)
    {
      ghost var s0 := View();
      var height := z;
      var sum := total;
      var i := 0;
      while i < |entrances|
        invariant i <= |entrances|
        invariant Walker.EntrancesFrom(world, View(), currentTrackPieceDirection, rideId, entrances, i, height, sum)
                  == Walker.EntrancesFrom(world, s0, currentTrackPieceDirection, rideId, entrances, 0, z, total)
      {
        var stop;
        stop, height, sum := EntranceStep(rideId, entrances, i, height, sum);
        if stop {
          return None;
        }
        i := i + 1;
      }
      r := Some(sum);
    }

    /** The end of `track_design_place_ride`. */
    method FinishRide(rideId: nat)
      modifies this
      ensures View() == Walker.FinishRide(world, old(View()), rideId)
    {
      if operation == PTD_OPERATION_REMOVE_GHOST {
        var _ := Issue(RideDelete(rideId), {}, true);
      }
    }

    /** `track_design_place_ride`: the track loop, then the entrance loop. */
    method PlaceRide(td: DesignRecord, origin: XYZ, rideId: nat) returns (r: Option<int>)
      modifies this
      ensures (View(), r) == Walker.PlaceRide(world, old(View()), currentTrackPieceDirection, td, origin, rideId)
    {
      previewOrigin := origin;
      BeginTrack(Flat(origin));
      var trackCost, cur := PlaceTrackElements(td.trackElements, origin);
      if trackCost.None? {
        return None;
      }
      r := PlaceEntrances(rideId, td.entranceElements, cur.pos.z, trackCost.value);
      if r.Some? {
        FinishRide(rideId);
      }
    }

    // -------------------------------------------------------------------
    // place_virtual_track

    /** The scenery flags `place_virtual_track` resets before placing. */
    method ResetSceneryFlags(placeScenery: bool)
      modifies this
      ensures View() == old(View()).(placeScenery := placeScenery && !sceneryToggle, entranceExitPlaced := false,
                                     sceneryUnavailable := false, hasScenery := false)
    {
      this.placeScenery := placeScenery;
      entranceExitPlaced := false;
      sceneryUnavailable := false;
      hasScenery := false;
      if sceneryToggle {
        this.placeScenery := false;
      }
    }

    /** The set-up of `place_virtual_track`. */
    method StartPlacement(ptdOperation: nat, placeScenery: bool, rideId: nat, coords: XYZ)
      requires ptdOperation < 256
      modifies this
      ensures View() == Walker.StartPlacement(old(View()), sceneryToggle, ptdOperation, placeScenery, rideId, coords)
    {
      ResetSceneryFlags(placeScenery);
      var split := SplitOperation(ptdOperation);
      isReplay := split.1;
      operation := split.0;
      rideIndex := rideId;
      previewMin := coords;
      previewMax := coords;
      sceneryZ := 0;
    }

    /** The track half of `place_virtual_track`. */
    method PlaceTrack(td: DesignRecord, coords: XYZ, rideId: nat) returns (r: Option<int>)
      modifies this
      ensures (View(), r) == Walker.PlaceTrack(world, old(View()), currentTrackPieceDirection, td, coords, rideId)
    {
      if td.rideType == RIDE_TYPE_MAZE {
        r := PlaceMaze(td.mazeElements, coords, rideId);
      } else {
        r := PlaceRide(td, coords, rideId);
      }
    }

    /** The end of `place_virtual_track`. */
    method FinishPlacement(cost: Option<int>) returns (result: int)
      modifies this
      ensures (View(), result) == Walker.FinishPlacement(old(View()), cost)
    {
      if operation == PTD_OPERATION_DRAW_OUTLINES {
        selectFlags := selectFlags + {Walker.EnableConstruct, Walker.EnableArrow} - {Walker.Green};
      }
      if operation == PTD_OPERATION_GET_PLACE_Z {
        return placeZ - sceneryZ;
      }
      result := if cost.Some? then cost.value else MONEY32_UNDEFINED;
    }

    /** The rest of `place_virtual_track` once the track is placed. */
    method CompletePlacement(td: DesignRecord, trackCost: Option<int>) returns (result: int)
      modifies this
      ensures (View(), result) == Walker.CompletePlacement(world, old(View()), currentTrackPieceDirection, td, trackCost)
    {
      var cost := trackCost;
      if cost.Some? {
        var sceneryCost := PlaceAllScenery(td.sceneryElements, previewOrigin);
        if sceneryCost.None? {
          return MONEY32_UNDEFINED;
        }
        cost := Some(cost.value + sceneryCost.value);
      }
      result := FinishPlacement(cost);
    }

    /** `place_virtual_track`: set up, place the track, then the scenery, then report. */
    method PlaceVirtualTrack(td: DesignRecord, ptdOperation: nat, placeScenery: bool, rideId: nat, coords: XYZ)
      returns (result: int)
      requires ptdOperation < 256
      modifies this
      ensures (View(), result) == Walker.PlaceVirtualTrack(world, old(View()), currentTrackPieceDirection,
                                                           sceneryToggle, td, ptdOperation, placeScenery, rideId, coords)
    {
      StartPlacement(ptdOperation, placeScenery, rideId, coords);
      var trackCost := PlaceTrack(td, coords, rideId);
      result := CompletePlacement(td, trackCost);
    }
  }
}

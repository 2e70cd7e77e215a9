/**
 * What placement guarantees, as lemmas about the walker functions: the
 * preview box only grows and holds everything visited, the selection stays
 * free of duplicates, outline drawing and height finding issue no game
 * action, the height found clears the terrain under every piece and no more
 * than needed, and a successful placement costs exactly what the issued
 * actions cost.
 */
module Properties {
  import opened Common
  import opened Geometry
  import opened Bits
  import opened Records
  import opened World
  import opened Placement
  import opened Walker

  // ---------------------------------------------------------------------
  // How a walk step relates the state before to the state after

  /** The modes that only look at the map: outline drawing and height finding. */
  predicate Passive(op: nat)
  {
    op == PTD_OPERATION_DRAW_OUTLINES || op == PTD_OPERATION_GET_PLACE_Z
  }

  /** What no loop of the walker changes. */
  predicate Keeps(a: PlaceState, b: PlaceState)
  {
    b.operation == a.operation && b.isReplay == a.isReplay && b.rideIndex == a.rideIndex
    && b.placeScenery == a.placeScenery && b.previewOrigin == a.previewOrigin
  }

  /**
   * How every step of every loop moves the state on: the box grows, the
   * selection and the log are only appended to (the log not at all in a
   * passive mode), duplicates never appear, the placement height only rises
   * and the scenery height only falls.
   */
  predicate Grows(a: PlaceState, b: PlaceState)
  {
    Keeps(a, b) && Within(BoxOf(a), BoxOf(b))
    && a.selectionTiles <= b.selectionTiles
    && (NoDuplicates(a.selectionTiles) ==> NoDuplicates(b.selectionTiles))
    && a.log <= b.log && (Passive(a.operation) ==> b.log == a.log)
    && a.placeZ <= b.placeZ && b.sceneryZ <= a.sceneryZ
  }

  lemma GrowsRefl(a: PlaceState)
    ensures Grows(a, a)
  {
  }

  lemma GrowsTrans(a: PlaceState, b: PlaceState, c: PlaceState)
    requires Grows(a, b) && Grows(b, c)
    ensures Grows(a, c)
  {
  }

  lemma UpdateMaxMinGrows(st: PlaceState, c: XYZ)
    ensures Grows(st, UpdateMaxMin(st, c))
    ensures Contains(BoxOf(UpdateMaxMin(st, c)), c)
  {
  }

  lemma AddSelectionTileGrows(st: PlaceState, t: XY)
    ensures Grows(st, AddSelectionTile(st, t))
    ensures t in AddSelectionTile(st, t).selectionTiles
  {
  }

  /** Issuing appends one entry to the log and touches nothing else. */
  lemma IssueGrows(w: World, st: PlaceState, a: GameAction, flags: CommandFlags, execute: bool)
    requires !Passive(st.operation)
    ensures Grows(st, Issue(w, st, a, flags, execute).0)
    ensures Issue(w, st, a, flags, execute).0.log == st.log + [Issued(a, flags, execute)]
  {
  }

  // ---------------------------------------------------------------------
  // One step of each loop

  lemma GetEntryGrows(w: World, st: PlaceState, s: SceneryElement)
    ensures Grows(st, GetEntry(w, st, s).0)
  {
  }

  lemma RemoveGhostGrows(w: World, st: PlaceState, direction: nat, mapCoord: XY, s: SceneryElement,
                         rotation: nat, originZ: int)
    requires st.operation == PTD_OPERATION_REMOVE_GHOST
    ensures Grows(st, RemoveGhostScenery(w, st, direction, mapCoord, s, rotation, originZ))
  {
    var (st1, entry) := GetEntry(w, st, s);
    GetEntryGrows(w, st, s);
    if entry.Some? && !st1.sceneryUnavailable {
      var st2 := RemoveGhostScenery(w, st, direction, mapCoord, s, rotation, originZ);
      assert st2 == st1 || exists a :: st2 == Issue(w, st1, a, GHOST_REMOVE_FLAGS, true).0;
      if st2 != st1 {
        var a :| st2 == Issue(w, st1, a, GHOST_REMOVE_FLAGS, true).0;
        IssueGrows(w, st1, a, GHOST_REMOVE_FLAGS, true);
        GrowsTrans(st, st1, st2);
      }
    }
  }

  lemma SceneryPlaceZGrows(w: World, st: PlaceState, s: SceneryElement)
    ensures Grows(st, SceneryPlaceZ(w, st, s))
  {
    var z := s.z * COORDS_Z_STEP + st.placeZ;
    var st1 := if z < st.sceneryZ then st.(sceneryZ := z) else st;
    GetEntryGrows(w, st1, s);
  }

  /** Issuing one action by its flags, then reading its cost. */
  lemma IssueByFlagsGrows(w: World, st: PlaceState, a: GameAction, flags: CommandFlags)
    requires !Passive(st.operation)
    ensures Grows(st, IssueByFlags(w, st, a, flags).0)
  {
    IssueGrows(w, st, a, flags, Apply in flags);
  }

  /** The first pass of a path element issues one action by its flags. */
  lemma PlacePathFirstPass(w: World, st: PlaceState, mapCoord: XY, s: SceneryElement, rotation: nat, originZ: int,
                           e: SceneryEntry)
    requires rotation < 4
    ensures PlacePath(w, st, mapCoord, 0, s, rotation, originZ, e).0
         == IssueByFlags(w, st, PathAction(mapCoord, s, rotation, TDiv(s.z * COORDS_Z_STEP + originZ, COORDS_Z_STEP), e),
                         StandardFlags(st.operation, st.isReplay)).0
  {
  }

  /** The second pass of a path element reconnects it when a path is there, except in PLACE_QUERY. */
  lemma PlacePathSecondPass(w: World, st: PlaceState, mapCoord: XY, mode: nat, s: SceneryElement, rotation: nat,
                            originZ: int, e: SceneryEntry)
    requires rotation < 4 && mode != 0
    ensures var z := TDiv(s.z * COORDS_Z_STEP + originZ, COORDS_Z_STEP);
            PlacePath(w, st, mapCoord, mode, s, rotation, originZ, e).0
            == if st.operation != PTD_OPERATION_PLACE_QUERY && w.hasPathAt(st.log, WithZ(ToTile(mapCoord), z))
               then Issue(w, st, FootpathReconnect(mapCoord, z), StandardFlags(st.operation, st.isReplay), true).0
               else st
  {
  }

  lemma PlacePathGrows(w: World, st: PlaceState, mapCoord: XY, mode: nat, s: SceneryElement, rotation: nat,
                       originZ: int, e: SceneryEntry)
    requires rotation < 4 && IsPlacing(st.operation)
    ensures Grows(st, PlacePath(w, st, mapCoord, mode, s, rotation, originZ, e).0)
  {
    var z := TDiv(s.z * COORDS_Z_STEP + originZ, COORDS_Z_STEP);
    if mode == 0 {
      PlacePathFirstPass(w, st, mapCoord, s, rotation, originZ, e);
      IssueByFlagsGrows(w, st, PathAction(mapCoord, s, rotation, z, e), StandardFlags(st.operation, st.isReplay));
    } else {
      PlacePathSecondPass(w, st, mapCoord, mode, s, rotation, originZ, e);
      IssueGrows(w, st, FootpathReconnect(mapCoord, z), StandardFlags(st.operation, st.isReplay), true);
      GrowsRefl(st);
    }
  }

  lemma SmallSceneryGrows(w: World, st: PlaceState, direction: nat, loc: XYZ, s: SceneryElement, rotation: nat,
                          e: SceneryEntry)
    requires IsPlacing(st.operation)
    ensures Grows(st, PlaceSmallScenery(w, st, direction, loc, s, rotation, e).0)
  {
    var action := SmallSceneryPlace(loc, PlacedDirection(rotation, s.flags), PlacedQuadrant(direction, s.flags),
                                    e.index, s.primaryColour, s.secondaryColour);
    IssueByFlagsGrows(w, st, action, SceneryObjectFlags(st.operation, st.isReplay));
  }

  lemma LargeSceneryGrows(w: World, st: PlaceState, loc: XYZ, s: SceneryElement, rotation: nat, e: SceneryEntry)
    requires IsPlacing(st.operation)
    ensures Grows(st, PlaceLargeScenery(w, st, loc, s, rotation, e).0)
  {
    var action := LargeSceneryPlace(loc, PlacedDirection(rotation, s.flags), e.index, s.primaryColour,
                                    s.secondaryColour);
    IssueByFlagsGrows(w, st, action, SceneryObjectFlags(st.operation, st.isReplay));
  }

  lemma WallGrows(w: World, st: PlaceState, loc: XYZ, s: SceneryElement, rotation: nat, e: SceneryEntry)
    requires IsPlacing(st.operation)
    ensures Grows(st, PlaceWall(w, st, loc, s, rotation, e).0)
  {
    var action := WallPlace(e.index, loc, PlacedDirection(rotation, s.flags), s.primaryColour, s.secondaryColour,
                            ((s.flags & 0xFC) >> 2) as nat);
    IssueByFlagsGrows(w, st, action, WallFlags(st.operation, st.isReplay));
  }

  lemma PlaceSceneryObjectGrows(w: World, st: PlaceState, direction: nat, mapCoord: XY, mode: nat,
                                s: SceneryElement, rotation: nat, originZ: int, e: SceneryEntry)
    requires rotation < 4 && IsPlacing(st.operation)
    ensures Grows(st, PlaceSceneryObject(w, st, direction, mapCoord, mode, s, rotation, originZ, e).0)
  {
    if e.kind.Paths? || e.kind.FootpathSurface? {
      PlacePathGrows(w, st, mapCoord, mode, s, rotation, originZ, e);
    } else {
      PlaceObjectGrows(w, st, direction, mapCoord, mode, s, rotation, originZ, e);
    }
  }

  lemma PlaceObjectGrows(w: World, st: PlaceState, direction: nat, mapCoord: XY, mode: nat,
                         s: SceneryElement, rotation: nat, originZ: int, e: SceneryEntry)
    requires rotation < 4 && IsPlacing(st.operation) && !e.kind.Paths? && !e.kind.FootpathSurface?
    ensures Grows(st, PlaceSceneryObject(w, st, direction, mapCoord, mode, s, rotation, originZ, e).0)
  {
    var loc := WithZ(mapCoord, PlacedSceneryZ(s, originZ));
    if mode != 0 {
      GrowsRefl(st);
    } else if e.kind.SmallScenery? {
      SmallSceneryGrows(w, st, direction, loc, s, rotation, e);
    } else if e.kind.LargeScenery? {
      LargeSceneryGrows(w, st, loc, s, rotation, e);
    } else if e.kind.Walls? {
      WallGrows(w, st, loc, s, rotation, e);
    }
  }

  lemma SceneryElementGrows(w: World, st: PlaceState, direction: nat, mapCoord: XY, mode: nat, s: SceneryElement,
                            rotation: nat, originZ: int)
    requires rotation < 4
    ensures Grows(st, PlaceSceneryElement(w, st, direction, mapCoord, mode, s, rotation, originZ).0)
  {
    var op := st.operation;
    if op == PTD_OPERATION_DRAW_OUTLINES && mode == 0 {
      AddSelectionTileGrows(st, mapCoord);
    } else if op == PTD_OPERATION_REMOVE_GHOST && mode == 0 {
      RemoveGhostGrows(w, st, direction, mapCoord, s, rotation, originZ);
    } else if op == PTD_OPERATION_GET_PLACE_Z {
      SceneryPlaceZGrows(w, st, s);
    } else if !IsPlacing(op) {
      GrowsRefl(st);
    } else {
      var (st1, entry) := GetEntry(w, st, s);
      GetEntryGrows(w, st, s);
      if entry.Some? {
        PlaceSceneryObjectGrows(w, st1, direction, mapCoord, mode, s, rotation, originZ, entry.value);
        GrowsTrans(st, st1, PlaceSceneryObject(w, st1, direction, mapCoord, mode, s, rotation, originZ, entry.value).0);
      }
    }
  }

  lemma MazeUnitGrows(w: World, st: PlaceState, rotation: nat, m: MazeElement, mapCoord: XY, coords: XYZ,
                      rideId: nat)
    requires rotation < 4 && IsPlacing(st.operation)
    ensures Grows(st, PlaceMazeUnit(w, st, rotation, m, mapCoord, coords, rideId).0)
  {
    var op := st.operation;
    if m.Type() == MAZE_ELEMENT_TYPE_ENTRANCE || m.Type() == MAZE_ELEMENT_TYPE_EXIT {
      var isExit := m.Type() == MAZE_ELEMENT_TYPE_EXIT;
      var facing := (rotation + m.Direction()) % 4;
      var st1 :=
        if op == PTD_OPERATION_PLACE_QUERY then
          Issue(w, st, EntranceExitPlaceQuery(WithZ(mapCoord, coords.z), isExit), {}, false).0
        else
          Issue(w, st, RideEntranceExitPlace(mapCoord, facing, rideId, 0, isExit), StandardFlags(op, st.isReplay),
                true).0;
      if op == PTD_OPERATION_PLACE_QUERY {
        IssueGrows(w, st, EntranceExitPlaceQuery(WithZ(mapCoord, coords.z), isExit), {}, false);
      } else {
        IssueGrows(w, st, RideEntranceExitPlace(mapCoord, facing, rideId, 0, isExit), StandardFlags(op, st.isReplay),
                   true);
      }
      assert Grows(st, st1.(entranceExitPlaced := true));
    } else {
      var action := MazePlaceTrack(WithZ(mapCoord, coords.z), rideId, Rol16(m.entry, rotation * 4));
      IssueByFlagsGrows(w, st, action, StandardFlags(op, st.isReplay));
    }
  }

  lemma MazeElementGrows(w: World, st: PlaceState, direction: nat, m: MazeElement, coords: XYZ, rideId: nat,
                         total: int)
    ensures Grows(st, PlaceMazeElement(w, st, direction, m, coords, rideId, total).st)
  {
    var rotation := direction % 4;
    var mapCoord := PlacedMazeXY(m, rotation, coords);
    UpdateMaxMinGrows(st, WithZ(mapCoord, coords.z));
    var st1 := UpdateMaxMin(st, WithZ(mapCoord, coords.z));
    var st2 := if st1.operation == PTD_OPERATION_DRAW_OUTLINES then AddSelectionTile(st1, mapCoord) else st1;
    if st1.operation == PTD_OPERATION_DRAW_OUTLINES {
      AddSelectionTileGrows(st1, mapCoord);
      GrowsTrans(st, st1, st2);
    } else if IsPlacing(st2.operation) {
      MazeUnitGrows(w, st2, rotation, m, mapCoord, coords, rideId);
      GrowsTrans(st, st2, PlaceMazeUnit(w, st2, rotation, m, mapCoord, coords, rideId).0);
    }
  }

  lemma {:induction false} OutlineBlocksGrows(st: PlaceState, blocks: seq<TrackBlock>, i: nat, cur: Cursor)
    requires i <= |blocks|
    ensures Grows(st, OutlineBlocks(st, blocks, i, cur))
    decreases |blocks| - i
  {
    if i == |blocks| {
      GrowsRefl(st);
    } else {
      var tile := BlockTile(cur, blocks[i]);
      var st1 := UpdateMaxMin(st, WithZ(tile, cur.pos.z));
      UpdateMaxMinGrows(st, WithZ(tile, cur.pos.z));
      AddSelectionTileGrows(st1, tile);
      GrowsTrans(st, st1, AddSelectionTile(st1, tile));
      OutlineBlocksGrows(AddSelectionTile(st1, tile), blocks, i + 1, cur);
      GrowsTrans(st, AddSelectionTile(st1, tile), OutlineBlocks(st, blocks, i, cur));
    }
  }

  lemma {:induction false} ClearBlocksGrows(w: World, st: PlaceState, blocks: seq<TrackBlock>, i: nat, cur: Cursor,
                                            tempZ: int)
    requires i <= |blocks|
    ensures Grows(st, ClearBlocks(w, st, blocks, i, cur, tempZ).0)
    ensures ClearBlocks(w, st, blocks, i, cur, tempZ).0 == st.(placeZ := ClearBlocks(w, st, blocks, i, cur, tempZ).0.placeZ)
    decreases |blocks| - i
  {
    if i == |blocks| {
      GrowsRefl(st);
    } else {
      var tile := BlockTile(cur, blocks[i]);
      if !IsLocationValid(tile) {
        ClearBlocksGrows(w, st, blocks, i + 1, cur, tempZ);
      } else if w.surfaceAt(st.log, tile).Some? {
        var st1 := st.(placeZ := Raise(st.placeZ, tempZ + blocks[i].z, SurfaceZ(w.surfaceAt(st.log, tile).value)));
        ClearBlocksGrows(w, st1, blocks, i + 1, cur, tempZ);
        GrowsTrans(st, st1, ClearBlocks(w, st1, blocks, i + 1, cur, tempZ).0);
      } else {
        GrowsRefl(st);
      }
    }
  }

  lemma TrackPieceGrows(w: World, st: PlaceState, t: TrackElement, cur: Cursor, total: int)
    ensures Grows(st, PlaceTrackPiece(w, st, t, cur, total).st)
  {
    var ted := w.descriptor(t.trackType);
    var st1 := UpdateMaxMin(st, cur.pos);
    UpdateMaxMinGrows(st, cur.pos);
    var st2 := PlaceTrackPiece(w, st, t, cur, total).st;
    var op := st1.operation;
    if op == PTD_OPERATION_DRAW_OUTLINES {
      OutlineBlocksGrows(st1, ted.Blocks(), 0, cur);
    } else if op == PTD_OPERATION_REMOVE_GHOST {
      var tempZ := cur.pos.z - ted.coordinates.zBegin + ted.firstBlock.z;
      IssueGrows(w, st1, TrackRemove(t.trackType, 0, WithZ(Flat(cur.pos), tempZ), cur.rotation % 4),
                 TRACK_REMOVE_FLAGS, true);
    } else if IsPlacing(op) {
      var flags := TrackPlaceFlags(op, st1.isReplay);
      IssueByFlagsGrows(w, st1, TrackPlacement(st1.rideIndex, t, cur, ted.coordinates.zBegin), flags);
    } else if op == PTD_OPERATION_GET_PLACE_Z {
      ClearBlocksGrows(w, st1, ted.Blocks(), 0, cur, cur.pos.z - ted.coordinates.zBegin);
    } else {
      GrowsRefl(st1);
    }
    assert Grows(st1, st2);
    GrowsTrans(st, st1, st2);
  }

  lemma EntranceAtTrackGrows(w: World, st: PlaceState, rideId: nat, e: EntranceElement, at: XY, facing: nat,
                             total: int)
    requires facing < 4 && IsPlacing(st.operation)
    ensures Grows(st, PlaceEntranceAtTrack(w, st, rideId, e, at, facing, total).0.st)
  {
    var height := PlacedEntranceHeight(e, st.previewOrigin.z);
    var elements := w.elementsAt(st.log, Add(at, DirectionDelta(facing)));
    if |elements| > 0 {
      match FirstTrackAt(elements, height, 0)
      case None =>
      case Some(k) =>
        var action := RideEntranceExitPlace(at, facing, rideId, elements[k].station, e.isExit);
        IssueByFlagsGrows(w, st, action, StandardFlags(st.operation, st.isReplay));
    }
  }

  lemma QueryEntranceGrows(w: World, st: PlaceState, e: EntranceElement, at: XY, total: int)
    requires IsPlacing(st.operation)
    ensures Grows(st, QueryEntrance(w, st, e, at, total).0.st)
  {
    var qz := PlacedEntranceQueryZ(e, st.previewOrigin.z);
    IssueGrows(w, st, EntranceExitPlaceQuery(WithZ(at, qz), false), {}, false);
  }

  lemma EntranceGrows(w: World, st: PlaceState, direction: nat, rideId: nat, e: EntranceElement, z: int,
                      total: int)
    ensures Grows(st, PlaceEntrance(w, st, direction, rideId, e, z, total).0.st)
  {
    var rotation := direction % 4;
    var at := PlacedEntranceXY(e, rotation, st.previewOrigin);
    UpdateMaxMinGrows(st, WithZ(at, z));
    var st1 := UpdateMaxMin(st, WithZ(at, z));
    var facing := (rotation + e.direction as nat) % 4;
    EntranceByOperationGrows(w, st1, rideId, e, at, facing, z, total);
    GrowsTrans(st, st1, EntranceByOperation(w, st1, rideId, e, at, facing, z, total).0.st);
  }

  lemma EntranceByOperationGrows(w: World, st: PlaceState, rideId: nat, e: EntranceElement, at: XY, facing: nat,
                                 z: int, total: int)
    requires facing < 4
    ensures Grows(st, EntranceByOperation(w, st, rideId, e, at, facing, z, total).0.st)
  {
    var op := st.operation;
    if op == PTD_OPERATION_DRAW_OUTLINES {
      AddSelectionTileGrows(st, at);
    } else if !IsPlacing(op) {
    } else if op != PTD_OPERATION_PLACE_QUERY {
      EntranceAtTrackGrows(w, st, rideId, e, at, facing, total);
    } else {
      QueryEntranceGrows(w, st, e, at, total);
    }
  }

  // ---------------------------------------------------------------------
  // Whole loops

  lemma SceneryStepGrows(w: World, st: PlaceState, direction: nat, s: SceneryElement, origin: XYZ, mode: nat,
                         cost: int)
    requires direction < 4
    ensures Grows(st, SceneryStep(w, st, direction, s, origin, mode, cost).st)
  {
    var c := SceneryMapCoord(s, direction, origin);
    var st1 := UpdateMaxMin(st, c);
    UpdateMaxMinGrows(st, c);
    SceneryElementGrows(w, st1, direction, Flat(c), mode, s, direction, origin.z);
    GrowsTrans(st, st1, PlaceSceneryElement(w, st1, direction, Flat(c), mode, s, direction, origin.z).0);
  }

  lemma {:induction false} SceneryElementsGrow(w: World, st: PlaceState, direction: nat, list: seq<SceneryElement>,
                                               origin: XYZ, mode: nat, i: nat, cost: int)
    requires direction < 4 && i <= |list|
    ensures Grows(st, SceneryElementsFrom(w, st, direction, list, origin, mode, i, cost).0)
    decreases |list| - i
  {
    if i == |list| {
      GrowsRefl(st);
    } else {
      SceneryStepGrows(w, st, direction, list[i], origin, mode, cost);
      match SceneryStep(w, st, direction, list[i], origin, mode, cost)
      case Stop(st1) =>
      case Continue(st1, t1) =>
        SceneryElementsGrow(w, st1, direction, list, origin, mode, i + 1, t1);
        GrowsTrans(st, st1, SceneryElementsFrom(w, st1, direction, list, origin, mode, i + 1, t1).0);
    }
  }

  lemma {:induction false} SceneryModesGrow(w: World, st: PlaceState, direction: nat, list: seq<SceneryElement>,
                                            origin: XYZ, mode: nat, cost: int)
    requires direction < 4
    ensures Grows(st, SceneryModesFrom(w, st, direction, list, origin, mode, cost).0)
    decreases 2 - mode
  {
    if mode > 1 {
      GrowsRefl(st);
    } else {
      var st1 := SceneryPassStart(st, list);
      if !st1.placeScenery {
        SceneryModesGrow(w, st1, direction, list, origin, mode + 1, cost);
      } else {
        var (st2, r) := SceneryElementsFrom(w, st1, direction, list, origin, mode, 0, cost);
        SceneryElementsGrow(w, st1, direction, list, origin, mode, 0, cost);
        if r.Some? {
          SceneryModesGrow(w, st2, direction, list, origin, mode + 1, r.value);
          GrowsTrans(st1, st2, SceneryModesFrom(w, st2, direction, list, origin, mode + 1, r.value).0);
        }
      }
    }
  }

  lemma {:induction false} MazeFromGrows(w: World, st: PlaceState, direction: nat, maze: seq<MazeElement>,
                                         coords: XYZ, rideId: nat, i: nat, total: int)
    requires i <= |maze|
    ensures Grows(st, MazeFrom(w, st, direction, maze, coords, rideId, i, total).0)
    decreases |maze| - i
  {
    if i == |maze| {
      GrowsRefl(st);
    } else {
      MazeElementGrows(w, st, direction, maze[i], coords, rideId, total);
      match PlaceMazeElement(w, st, direction, maze[i], coords, rideId, total)
      case Stop(st1) =>
      case Continue(st1, t1) =>
        MazeFromGrows(w, st1, direction, maze, coords, rideId, i + 1, t1);
        GrowsTrans(st, st1, MazeFrom(w, st1, direction, maze, coords, rideId, i + 1, t1).0);
    }
  }

  lemma {:induction false} TrackFromGrows(w: World, st: PlaceState, track: seq<TrackElement>, i: nat, cur: Cursor,
                                          total: int)
    requires i <= |track|
    ensures Grows(st, TrackFrom(w, st, track, i, cur, total).0)
    decreases |track| - i
  {
    if i == |track| {
      GrowsRefl(st);
    } else {
      TrackPieceGrows(w, st, track[i], cur, total);
      match PlaceTrackPiece(w, st, track[i], cur, total)
      case Stop(st1) =>
      case Continue(st1, t1) =>
        var next := Advance(cur, w.descriptor(track[i].trackType).coordinates);
        TrackFromGrows(w, st1, track, i + 1, next, t1);
        GrowsTrans(st, st1, TrackFrom(w, st1, track, i + 1, next, t1).0);
    }
  }

  lemma {:induction false} EntrancesFromGrow(w: World, st: PlaceState, direction: nat, rideId: nat,
                                             entrances: seq<EntranceElement>, i: nat, z: int, total: int)
    requires i <= |entrances|
    ensures Grows(st, EntrancesFrom(w, st, direction, rideId, entrances, i, z, total).0)
    decreases |entrances| - i
  {
    if i == |entrances| {
      GrowsRefl(st);
    } else {
      EntranceGrows(w, st, direction, rideId, entrances[i], z, total);
      match PlaceEntrance(w, st, direction, rideId, entrances[i], z, total)
      case (Stop(st1), _) =>
      case (Continue(st1, t1), z1) =>
        EntrancesFromGrow(w, st1, direction, rideId, entrances, i + 1, z1, t1);
        GrowsTrans(st, st1, EntrancesFrom(w, st1, direction, rideId, entrances, i + 1, z1, t1).0);
    }
  }
}

/**
 * What `place_virtual_track` reports and leaves behind, for each operation:
 * the preview box always holds the origin; outline drawing and height
 * finding issue no game action; outline drawing leaves a selection without
 * duplicates and the construction flags set; height finding reports the
 * placement height less the scenery height, which is never negative; and a
 * placing operation reports either MONEY32_UNDEFINED or the track's cost
 * (the sum of its actions) plus the scenery's.
 */
module Results {
  import opened Common
  import opened Geometry
  import opened Records
  import opened World
  import opened Placement
  import opened Walker
  import opened Properties
  import Clearance
  import Costs

  // ---------------------------------------------------------------------
  // Phases

  /** What a whole phase keeps: `Grows`, except that the maze moves the preview origin and the height may reset. */
  predicate Phase(a: PlaceState, b: PlaceState)
  {
    b.operation == a.operation && b.isReplay == a.isReplay && b.placeScenery == a.placeScenery
    && b.rideIndex == a.rideIndex && Within(BoxOf(a), BoxOf(b)) && a.log <= b.log && (Passive(a.operation) ==> b.log == a.log)
    && b.sceneryZ <= a.sceneryZ
  }

  lemma PhaseOfGrows(a: PlaceState, b: PlaceState)
    requires Grows(a, b)
    ensures Phase(a, b)
  {
  }

  lemma PhaseTrans(a: PlaceState, b: PlaceState, c: PlaceState)
    requires Phase(a, b) && Phase(b, c)
    ensures Phase(a, c)
  {
  }

  /**
   * The start shared by the maze and the ride resets the placement height;
   * in DRAW_OUTLINES it also empties the selection.
   */
  lemma BeginTrackResets(w: World, st: PlaceState, direction: nat, at: XY)
    ensures var b := BeginTrack(w, st, direction, at);
            Grows(st.(placeZ := 0, selectionTiles := b.selectionTiles), b) && b.placeZ == 0
            && Phase(st, b) && b.previewOrigin == st.previewOrigin
            && (st.operation == PTD_OPERATION_DRAW_OUTLINES ==> b.selectionTiles == [])
            && (st.operation != PTD_OPERATION_DRAW_OUTLINES ==> b.selectionTiles == st.selectionTiles)
  {
  }

  /** `Phase` for the finishing steps, which issue only in REMOVE_GHOST. */
  lemma FinishMazePhase(w: World, st: PlaceState, coords: XYZ, rideId: nat)
    ensures var st' := FinishMaze(w, st, coords, rideId);
            Phase(st, st') && st'.selectionTiles == st.selectionTiles && st'.placeZ == st.placeZ
  {
    if st.operation == PTD_OPERATION_REMOVE_GHOST {
      IssueGrows(w, st, RideDemolish(rideId), GHOST_REMOVE_FLAGS, true);
    }
  }

  lemma FinishRideGrows(w: World, st: PlaceState, rideId: nat)
    ensures Grows(st, FinishRide(w, st, rideId))
  {
    if st.operation == PTD_OPERATION_REMOVE_GHOST {
      IssueGrows(w, st, RideDelete(rideId), {}, true);
    }
  }

  /** The state after `track_design_place_maze`. */
  lemma MazePhase(w: World, st: PlaceState, direction: nat, maze: seq<MazeElement>, coords: XYZ, rideId: nat)
    ensures var (st', _) := PlaceMaze(w, st, direction, maze, coords, rideId);
            Phase(st, st') && st'.placeZ >= 0
            && (st.operation == PTD_OPERATION_DRAW_OUTLINES ==> NoDuplicates(st'.selectionTiles))
  {
    var st1 := BeginTrack(w, st, direction, Flat(coords));
    BeginTrackResets(w, st, direction, Flat(coords));
    MazeFromGrows(w, st1, direction, maze, coords, rideId, 0, 0);
    var (st2, r) := MazeFrom(w, st1, direction, maze, coords, rideId, 0, 0);
    PhaseOfGrows(st1, st2);
    PhaseTrans(st, st1, st2);
    if r.Some? {
      FinishMazePhase(w, st2, coords, rideId);
      PhaseTrans(st, st2, FinishMaze(w, st2, coords, rideId));
    }
  }

  /** The state after `track_design_place_ride`. */
  lemma RidePhase(w: World, st: PlaceState, direction: nat, td: DesignRecord, coords: XYZ, rideId: nat)
    ensures var (st', _) := PlaceRide(w, st, direction, td, coords, rideId);
            Phase(st, st') && st'.placeZ >= 0
            && (st.operation == PTD_OPERATION_DRAW_OUTLINES ==> NoDuplicates(st'.selectionTiles))
  {
    var st0 := st.(previewOrigin := coords);
    var st1 := BeginTrack(w, st0, direction, Flat(coords));
    BeginTrackResets(w, st0, direction, Flat(coords));
    TrackFromGrows(w, st1, td.trackElements, 0, Cursor(coords, direction), 0);
    var (st2, r, cur) := TrackFrom(w, st1, td.trackElements, 0, Cursor(coords, direction), 0);
    var st' := PlaceRide(w, st, direction, td, coords, rideId).0;
    if r.Some? {
      EntrancesFromGrow(w, st2, direction, rideId, td.entranceElements, 0, cur.pos.z, r.value);
      var (st3, r2) := EntrancesFrom(w, st2, direction, rideId, td.entranceElements, 0, cur.pos.z, r.value);
      GrowsTrans(st1, st2, st3);
      if r2.Some? {
        FinishRideGrows(w, st3, rideId);
        GrowsTrans(st1, st3, st');
      }
    }
    assert Grows(st1, st');
    PhaseOfGrows(st1, st');
    PhaseTrans(st, st1, st');
  }

  /** The state after the track half of a placement, from the state `place_virtual_track` set up. */
  lemma TrackPhase(w: World, st: PlaceState, direction: nat, td: DesignRecord, coords: XYZ, rideId: nat)
    ensures var (st', _) := PlaceTrack(w, st, direction, td, coords, rideId);
            Phase(st, st') && st'.placeZ >= 0
            && (st.operation == PTD_OPERATION_DRAW_OUTLINES ==> NoDuplicates(st'.selectionTiles))
  {
    if td.rideType == RIDE_TYPE_MAZE {
      MazePhase(w, st, direction, td.mazeElements, coords, rideId);
    } else {
      RidePhase(w, st, direction, td, coords, rideId);
    }
  }

  /** Outline drawing and height finding place no scenery, so the scenery pass never fails in them. */
  lemma SceneryStepPassive(w: World, st: PlaceState, direction: nat, s: SceneryElement, origin: XYZ, mode: nat,
                           cost: int)
    requires direction < 4 && Passive(st.operation)
    ensures var o := SceneryStep(w, st, direction, s, origin, mode, cost);
            o == Continue(o.st, cost) && o.st.operation == st.operation
  {
    var c := SceneryMapCoord(s, direction, origin);
    var st1 := UpdateMaxMin(st, c);
    assert PlaceSceneryElement(w, st1, direction, Flat(c), mode, s, direction, origin.z).1 == Some(0);
    SceneryStepGrows(w, st, direction, s, origin, mode, cost);
  }

  lemma {:induction false} SceneryPassiveSucceeds(w: World, st: PlaceState, direction: nat,
                                                  list: seq<SceneryElement>, origin: XYZ, mode: nat, i: nat,
                                                  cost: int)
    requires direction < 4 && i <= |list| && Passive(st.operation)
    ensures SceneryElementsFrom(w, st, direction, list, origin, mode, i, cost) .1 == Some(cost)
    decreases |list| - i
  {
    if i < |list| {
      var o := SceneryStep(w, st, direction, list[i], origin, mode, cost);
      SceneryStepPassive(w, st, direction, list[i], origin, mode, cost);
      SceneryPassiveSucceeds(w, o.st, direction, list, origin, mode, i + 1, cost);
    }
  }

  lemma {:induction false} SceneryModesPassiveSucceed(w: World, st: PlaceState, direction: nat,
                                                      list: seq<SceneryElement>, origin: XYZ, mode: nat, cost: int)
    requires direction < 4 && Passive(st.operation)
    ensures SceneryModesFrom(w, st, direction, list, origin, mode, cost).1 == Some(cost)
    decreases 2 - mode
  {
    if mode <= 1 {
      var st1 := SceneryPassStart(st, list);
      if !st1.placeScenery {
        SceneryModesPassiveSucceed(w, st1, direction, list, origin, mode + 1, cost);
      } else {
        SceneryPassiveSucceeds(w, st1, direction, list, origin, mode, 0, cost);
        SceneryElementsGrow(w, st1, direction, list, origin, mode, 0, cost);
        var st2 := SceneryElementsFrom(w, st1, direction, list, origin, mode, 0, cost).0;
        SceneryModesPassiveSucceed(w, st2, direction, list, origin, mode + 1, cost);
      }
    }
  }

  /** The scenery half, from the state the track half left. */
  lemma SceneryPhase(w: World, st: PlaceState, direction: nat, list: seq<SceneryElement>, origin: XYZ)
    requires direction < 4
    ensures var (st', r) := PlaceAllScenery(w, st, direction, list, origin);
            Phase(st, st') && st'.placeZ >= st.placeZ
            && (NoDuplicates(st.selectionTiles) ==> NoDuplicates(st'.selectionTiles))
            && (Passive(st.operation) ==> r == Some(0))
  {
    SceneryModesGrow(w, st, direction, list, origin, 0, 0);
    PhaseOfGrows(st, PlaceAllScenery(w, st, direction, list, origin).0);
    if Passive(st.operation) {
      SceneryModesPassiveSucceed(w, st, direction, list, origin, 0, 0);
    }
  }

  /** The rest of the placement after the track half: the scenery pass, then the report. */
  lemma CompletePhase(w: World, st: PlaceState, direction: nat, td: DesignRecord, trackCost: Option<int>)
    requires direction < 4
    ensures var (st', _) := CompletePlacement(w, st, direction, td, trackCost);
            Phase(st, st') && st'.placeZ >= st.placeZ
            && (NoDuplicates(st.selectionTiles) ==> NoDuplicates(st'.selectionTiles))
  {
    if trackCost.Some? {
      SceneryPhase(w, st, direction, td.sceneryElements, st.previewOrigin);
    }
  }

  // ---------------------------------------------------------------------
  // place_virtual_track

  /** The operation `place_virtual_track` runs, without the replay flag. */
  function OperationOf(ptdOperation: nat): nat
    requires ptdOperation < 256
  {
    SplitOperation(ptdOperation).0
  }

  /**
   * Everything that holds for every operation: the box holds the origin, the
   * state the rest of the game reads is only appended to, and the
   * modes that only look at the map issue no action.
   */
  lemma PlaceVirtualTrackPhase(w: World, st: PlaceState, direction: nat, sceneryToggle: bool, td: DesignRecord,
                               ptdOperation: nat, placeScenery: bool, rideId: nat, coords: XYZ)
    requires direction < 4 && ptdOperation < 256
    ensures var (st', _) := PlaceVirtualTrack(w, st, direction, sceneryToggle, td, ptdOperation, placeScenery,
                                              rideId, coords);
            Contains(BoxOf(st'), coords) && st.log <= st'.log
            && st'.operation == OperationOf(ptdOperation) && st'.rideIndex == rideId
            && (Passive(OperationOf(ptdOperation)) ==> st'.log == st.log)
  {
    var st1 := StartPlacement(st, sceneryToggle, ptdOperation, placeScenery, rideId, coords);
    TrackPhase(w, st1, direction, td, coords, rideId);
    var (st2, trackCost) := PlaceTrack(w, st1, direction, td, coords, rideId);
    CompletePhase(w, st2, direction, td, trackCost);
    PhaseTrans(st1, st2, CompletePlacement(w, st2, direction, td, trackCost).0);
  }

  /**
   * DRAW_OUTLINES: the selection it leaves has no duplicate tile, the
   * construct and arrow flags are set and the green flag is cleared, and no
   * action is issued.
   */
  lemma PlaceVirtualTrackOutlines(w: World, st: PlaceState, direction: nat, sceneryToggle: bool, td: DesignRecord,
                                  ptdOperation: nat, placeScenery: bool, rideId: nat, coords: XYZ)
    requires direction < 4 && ptdOperation < 256 && OperationOf(ptdOperation) == PTD_OPERATION_DRAW_OUTLINES
    ensures var (st', _) := PlaceVirtualTrack(w, st, direction, sceneryToggle, td, ptdOperation, placeScenery,
                                              rideId, coords);
            NoDuplicates(st'.selectionTiles) && EnableConstruct in st'.selectFlags && EnableArrow in st'.selectFlags
            && Green !in st'.selectFlags && st'.log == st.log
  {
    var st1 := StartPlacement(st, sceneryToggle, ptdOperation, placeScenery, rideId, coords);
    TrackPhase(w, st1, direction, td, coords, rideId);
    var (st2, trackCost) := PlaceTrack(w, st1, direction, td, coords, rideId);
    if trackCost.Some? {
      SceneryPhase(w, st2, direction, td.sceneryElements, st2.previewOrigin);
    }
  }

  /**
   * GET_PLACE_Z: the value reported is the placement height less the lowest
   * scenery height, and it is never negative: the placement height starts at
   * zero and only rises, the scenery height starts at zero and only falls.
   */
  lemma PlaceVirtualTrackHeight(w: World, st: PlaceState, direction: nat, sceneryToggle: bool, td: DesignRecord,
                                ptdOperation: nat, placeScenery: bool, rideId: nat, coords: XYZ)
    requires direction < 4 && ptdOperation < 256 && OperationOf(ptdOperation) == PTD_OPERATION_GET_PLACE_Z
    ensures var (st', r) := PlaceVirtualTrack(w, st, direction, sceneryToggle, td, ptdOperation, placeScenery,
                                              rideId, coords);
            r == st'.placeZ - st'.sceneryZ && r >= 0 && st'.log == st.log
  {
    var st1 := StartPlacement(st, sceneryToggle, ptdOperation, placeScenery, rideId, coords);
    TrackPhase(w, st1, direction, td, coords, rideId);
    var (st2, trackCost) := PlaceTrack(w, st1, direction, td, coords, rideId);
    if trackCost.Some? {
      SceneryPhase(w, st2, direction, td.sceneryElements, st2.previewOrigin);
    }
  }

  /** The report of every operation but GET_PLACE_Z, from the track's result and the scenery's. */
  lemma CompleteCost(w: World, st: PlaceState, direction: nat, td: DesignRecord, trackCost: Option<int>)
    requires direction < 4 && st.operation != PTD_OPERATION_GET_PLACE_Z
    ensures var (_, r) := CompletePlacement(w, st, direction, td, trackCost);
            (trackCost.None? ==> r == MONEY32_UNDEFINED)
            && (r != MONEY32_UNDEFINED ==>
                  trackCost.Some?
                  && PlaceAllScenery(w, st, direction, td.sceneryElements, st.previewOrigin).1
                     == Some(r - trackCost.value))
  {
    if trackCost.Some? {
      SceneryPhase(w, st, direction, td.sceneryElements, st.previewOrigin);
    }
  }

  /**
   * Every operation but GET_PLACE_Z: a track that fails makes the report
   * MONEY32_UNDEFINED, and a report that is not MONEY32_UNDEFINED is the
   * track's cost plus the scenery's.
   */
  lemma PlaceVirtualTrackCost(w: World, st: PlaceState, direction: nat, sceneryToggle: bool, td: DesignRecord,
                              ptdOperation: nat, placeScenery: bool, rideId: nat, coords: XYZ)
    requires direction < 4 && ptdOperation < 256 && OperationOf(ptdOperation) != PTD_OPERATION_GET_PLACE_Z
    ensures var st1 := StartPlacement(st, sceneryToggle, ptdOperation, placeScenery, rideId, coords);
            var (st2, trackCost) := PlaceTrack(w, st1, direction, td, coords, rideId);
            var (st', r) := PlaceVirtualTrack(w, st, direction, sceneryToggle, td, ptdOperation, placeScenery,
                                              rideId, coords);
            (trackCost.None? ==> r == MONEY32_UNDEFINED)
            && (r != MONEY32_UNDEFINED ==>
                  trackCost.Some?
                  && PlaceAllScenery(w, st2, direction, td.sceneryElements, st2.previewOrigin).1
                     == Some(r - trackCost.value))
  {
    var st1 := StartPlacement(st, sceneryToggle, ptdOperation, placeScenery, rideId, coords);
    TrackPhase(w, st1, direction, td, coords, rideId);
    var (st2, trackCost) := PlaceTrack(w, st1, direction, td, coords, rideId);
    CompleteCost(w, st2, direction, td, trackCost);
  }

  /**
   * A placing operation whose track succeeded: the track's cost is the sum
   * of the costs of the actions it issued, every one of which succeeded.
   */
  lemma PlaceVirtualTrackCharged(w: World, st: PlaceState, direction: nat, sceneryToggle: bool, td: DesignRecord,
                                 ptdOperation: nat, placeScenery: bool, rideId: nat, coords: XYZ)
    requires direction < 4 && ptdOperation < 256 && IsPlacing(OperationOf(ptdOperation))
    ensures var st1 := StartPlacement(st, sceneryToggle, ptdOperation, placeScenery, rideId, coords);
            var (st2, trackCost) := PlaceTrack(w, st1, direction, td, coords, rideId);
            trackCost.Some? ==> Costs.Charged(w, st.log, st2.log, 0, trackCost.value)
  {
    Costs.PlaceTrackCost(w, StartPlacement(st, sceneryToggle, ptdOperation, placeScenery, rideId, coords),
                         direction, td, coords, rideId);
  }

  // ---------------------------------------------------------------------
  // The height found, for a maze and for a ride

  /**
   * `track_design_place_maze` in GET_PLACE_Z: it succeeds, costs nothing,
   * and ends at the least non-negative height offset at which every cell
   * clears its surface.
   */
  lemma PlaceMazeHeight(w: World, st: PlaceState, direction: nat, maze: seq<MazeElement>, coords: XYZ, rideId: nat)
    requires st.operation == PTD_OPERATION_GET_PLACE_Z
    ensures var (st', r) := PlaceMaze(w, st, direction, maze, coords, rideId);
            r == Some(0) && st'.placeZ >= 0 && Clearance.MazeClears(w, st.log, direction, maze, coords, 0, st'.placeZ)
            && forall p | p >= 0 && Clearance.MazeClears(w, st.log, direction, maze, coords, 0, p) :: st'.placeZ <= p
  {
    var st1 := BeginTrack(w, st, direction, Flat(coords));
    Clearance.MazeClearance(w, st1, direction, maze, coords, rideId, 0, 0);
    forall p | p >= 0 && Clearance.MazeClears(w, st.log, direction, maze, coords, 0, p)
      ensures PlaceMaze(w, st, direction, maze, coords, rideId).0.placeZ <= p
    {
      Clearance.MazeHeightLeast(w, st1, direction, maze, coords, rideId, 0, p);
    }
  }

  /** The entrance loop in GET_PLACE_Z leaves the height and the log alone and never fails. */
  lemma {:induction false} EntrancesPassive(w: World, st: PlaceState, direction: nat, rideId: nat,
                                            entrances: seq<EntranceElement>, i: nat, z: int, total: int)
    requires i <= |entrances| && st.operation == PTD_OPERATION_GET_PLACE_Z
    ensures var (st', r) := EntrancesFrom(w, st, direction, rideId, entrances, i, z, total);
            r == Some(total) && st'.placeZ == st.placeZ && st'.log == st.log && st'.operation == st.operation
    decreases |entrances| - i
  {
    if i < |entrances| {
      var (o, z1) := PlaceEntrance(w, st, direction, rideId, entrances[i], z, total);
      var at := PlacedEntranceXY(entrances[i], direction % 4, st.previewOrigin);
      assert o == Continue(UpdateMaxMin(st, WithZ(at, z)), total);
      EntrancesPassive(w, o.st, direction, rideId, entrances, i + 1, z1, total);
    }
  }

  /** Every piece of the ride, at the cursor the pieces before it leave, has a surface under its blocks. */
  predicate RideSupported(w: World, log: seq<Issued>, track: seq<TrackElement>, start: Cursor)
  {
    forall j | 0 <= j < |track| :: Clearance.PieceSupported(w, log, track[j], Clearance.CursorAt(w, track, 0, start, j))
  }

  /** Every piece of the ride clears its surfaces at height offset `p`. */
  predicate RideClears(w: World, log: seq<Issued>, track: seq<TrackElement>, start: Cursor, p: int)
  {
    forall j | 0 <= j < |track| :: Clearance.PieceClears(w, log, track[j], Clearance.CursorAt(w, track, 0, start, j), p)
  }

  /**
   * `track_design_place_ride` in GET_PLACE_Z: it succeeds exactly when
   * every track block on a valid tile has a surface under it, and then ends
   * at the least non-negative height offset at which every block clears
   * its surface.
   */
  lemma PlaceRideHeight(w: World, st: PlaceState, direction: nat, td: DesignRecord, origin: XYZ, rideId: nat)
    requires st.operation == PTD_OPERATION_GET_PLACE_Z
    ensures var (st', r) := PlaceRide(w, st, direction, td, origin, rideId);
            var start := Cursor(origin, direction);
            (r.Some? <==> RideSupported(w, st.log, td.trackElements, start))
            && (r.Some? ==>
                  st'.placeZ >= 0 && RideClears(w, st.log, td.trackElements, start, st'.placeZ)
                  && forall p | p >= 0 && RideClears(w, st.log, td.trackElements, start, p) :: st'.placeZ <= p)
  {
    var track := td.trackElements;
    var start := Cursor(origin, direction);
    var st1 := BeginTrack(w, st.(previewOrigin := origin), direction, Flat(origin));
    Clearance.TrackClearance(w, st1, track, 0, start, 0);
    Properties.TrackFromGrows(w, st1, track, 0, start, 0);
    var (st2, r, cur) := TrackFrom(w, st1, track, 0, start, 0);
    assert st1.log == st.log && st1.placeZ == 0;
    if r.Some? {
      EntrancesPassive(w, st2, direction, rideId, td.entranceElements, 0, cur.pos.z, r.value);
      forall p | p >= 0 && RideClears(w, st.log, track, start, p)
        ensures PlaceRide(w, st, direction, td, origin, rideId).0.placeZ <= p
      {
        Clearance.TrackHeightLeast(w, st1, track, start, 0, p);
      }
    }
  }
}

/**
 * What placement charges when it really places (PLACE, PLACE_QUERY,
 * PLACE_GHOST, PLACE_TRACK_PREVIEW): a maze or a ride that succeeds costs
 * exactly the sum of what the oracle answered for the actions it issued,
 * every one of which succeeded; the maze and track loops stop at the first
 * action with an undefined cost and issue nothing after it. The scenery
 * passes read their answers differently: a success costs the clamped
 * charges of the actions they issued, with a failed small scenery object or
 * footpath counted as nothing.
 */
module Costs {
  import opened Common
  import opened Geometry
  import opened Bits
  import opened Records
  import opened World
  import opened Placement
  import opened Walker

  // ---------------------------------------------------------------------
  // The answers recorded in a log

  /** The oracle's answer to entry `k`, given the entries before it. */
  function Response(w: World, log: seq<Issued>, k: nat): ActionResult
    requires k < |log|
  {
    w.respond(log[..k], log[k])
  }

  /** The summed cost of entries `lo` up to `hi`. */
  function CostBetween(w: World, log: seq<Issued>, lo: nat, hi: nat): int
    requires lo <= hi <= |log|
    decreases hi
  {
    if hi == lo then 0 else CostBetween(w, log, lo, hi - 1) + Response(w, log, hi - 1).cost
  }

  predicate AllOk(w: World, log: seq<Issued>, lo: nat, hi: nat)
    requires lo <= hi <= |log|
  {
    forall k | lo <= k < hi :: Response(w, log, k).ok
  }

  /** The log grew from `before` to `after`, every new action succeeded, and the total grew by their cost. */
  predicate Charged(w: World, before: seq<Issued>, after: seq<Issued>, t0: int, t1: int)
  {
    before <= after && t1 == t0 + CostBetween(w, after, |before|, |after|) && AllOk(w, after, |before|, |after|)
  }

  /** The log grew from `before` to `after`; every new action but the last succeeded, and the last had no cost. */
  predicate Failed(w: World, before: seq<Issued>, after: seq<Issued>)
  {
    before <= after && |after| > |before| && AllOk(w, after, |before|, |after| - 1)
    && CostOrUndefined(Response(w, after, |after| - 1)) == MONEY32_UNDEFINED
  }

  /** Entries already in the log keep their answers and their cost as the log grows. */
  lemma {:induction false} CostPrefix(w: World, a: seq<Issued>, b: seq<Issued>, lo: nat, hi: nat)
    requires lo <= hi <= |a| && a <= b
    ensures CostBetween(w, b, lo, hi) == CostBetween(w, a, lo, hi)
    ensures AllOk(w, b, lo, hi) <==> AllOk(w, a, lo, hi)
    decreases hi - lo
  {
    forall k | lo <= k < hi
      ensures Response(w, b, k) == Response(w, a, k)
    {
      assert b[..k] == a[..k];
    }
    if hi > lo {
      CostPrefix(w, a, b, lo, hi - 1);
    }
  }

  lemma {:induction false} CostSplit(w: World, log: seq<Issued>, a: nat, m: nat, c: nat)
    requires a <= m <= c <= |log|
    ensures CostBetween(w, log, a, c) == CostBetween(w, log, a, m) + CostBetween(w, log, m, c)
    decreases c - m
  {
    if c > m {
      CostSplit(w, log, a, m, c - 1);
    }
  }

  lemma ChargedRefl(w: World, log: seq<Issued>, t: int)
    ensures Charged(w, log, log, t, t)
  {
  }

  /** Two charged stretches make one. */
  lemma ChargedTrans(w: World, a: seq<Issued>, b: seq<Issued>, c: seq<Issued>, t0: int, t1: int, t2: int)
    requires Charged(w, a, b, t0, t1) && Charged(w, b, c, t1, t2)
    ensures Charged(w, a, c, t0, t2)
  {
    CostPrefix(w, b, c, |a|, |b|);
    CostSplit(w, c, |a|, |b|, |c|);
  }

  /** A charged stretch followed by a failing one fails. */
  lemma FailedAfter(w: World, a: seq<Issued>, b: seq<Issued>, c: seq<Issued>, t0: int, t1: int)
    requires Charged(w, a, b, t0, t1) && Failed(w, b, c)
    ensures Failed(w, a, c)
  {
    CostPrefix(w, b, c, |a|, |b|);
  }

  /** Issuing appends one entry whose recorded answer is the one returned. */
  lemma IssueOne(w: World, st: PlaceState, a: GameAction, flags: CommandFlags, execute: bool)
    ensures var (st1, res) := Issue(w, st, a, flags, execute);
            |st1.log| == |st.log| + 1 && st.log <= st1.log && res == Response(w, st1.log, |st.log|)
  {
    var st1 := Issue(w, st, a, flags, execute).0;
    assert st1.log[..|st.log|] == st.log;
  }

  /** One entry that succeeded charges its cost; one with no cost fails. */
  lemma OneEntry(w: World, before: seq<Issued>, after: seq<Issued>, t0: int)
    requires |after| == |before| + 1 && before <= after
    ensures Response(w, after, |before|).ok ==> Charged(w, before, after, t0, t0 + Response(w, after, |before|).cost)
    ensures CostOrUndefined(Response(w, after, |before|)) == MONEY32_UNDEFINED ==> Failed(w, before, after)
  {
  }

  // ---------------------------------------------------------------------
  // Maze

  /** An entrance or exit marker of a maze: asked about in PLACE_QUERY, placed otherwise. */
  lemma MazeMarkerCost(w: World, st: PlaceState, rotation: nat, m: MazeElement, mapCoord: XY, coords: XYZ,
                       rideId: nat)
    requires rotation < 4
    requires m.Type() == MAZE_ELEMENT_TYPE_ENTRANCE || m.Type() == MAZE_ELEMENT_TYPE_EXIT
    ensures var (st1, cost) := PlaceMazeUnit(w, st, rotation, m, mapCoord, coords, rideId);
            |st1.log| == |st.log| + 1 && st.log <= st1.log && st1.operation == st.operation
            && cost == CostOrUndefined(Response(w, st1.log, |st.log|))
  {
    var op := st.operation;
    var isExit := m.Type() == MAZE_ELEMENT_TYPE_EXIT;
    var facing := (rotation + m.Direction()) % 4;
    var (a, flags, execute) :=
      if op == PTD_OPERATION_PLACE_QUERY then (EntranceExitPlaceQuery(WithZ(mapCoord, coords.z), isExit), {}, false)
      else (RideEntranceExitPlace(mapCoord, facing, rideId, 0, isExit), StandardFlags(op, st.isReplay), true);
    IssueOne(w, st, a, flags, execute);
    var (st1, res) := Issue(w, st, a, flags, execute);
    var cost := CostOrUndefined(res);
    assert PlaceMazeUnit(w, st, rotation, m, mapCoord, coords, rideId)
           == (if cost != MONEY32_UNDEFINED then st1.(entranceExitPlaced := true) else st1, cost);
  }

  lemma MazeUnitCost(w: World, st: PlaceState, rotation: nat, m: MazeElement, mapCoord: XY, coords: XYZ,
                     rideId: nat)
    requires rotation < 4
    ensures var (st1, cost) := PlaceMazeUnit(w, st, rotation, m, mapCoord, coords, rideId);
            |st1.log| == |st.log| + 1 && st.log <= st1.log && st1.operation == st.operation
            && cost == CostOrUndefined(Response(w, st1.log, |st.log|))
  {
    if m.Type() == MAZE_ELEMENT_TYPE_ENTRANCE || m.Type() == MAZE_ELEMENT_TYPE_EXIT {
      MazeMarkerCost(w, st, rotation, m, mapCoord, coords, rideId);
    } else {
      var action := MazePlaceTrack(WithZ(mapCoord, coords.z), rideId, Rol16(m.entry, rotation * 4));
      var flags := StandardFlags(st.operation, st.isReplay);
      IssueOne(w, st, action, flags, Apply in flags);
    }
  }

  /** One maze element when placing: one action, charged when it succeeds, a failure otherwise. */
  lemma MazeStepCost(w: World, st: PlaceState, direction: nat, m: MazeElement, coords: XYZ, rideId: nat,
                     total: int)
    requires IsPlacing(st.operation)
    ensures var o := PlaceMazeElement(w, st, direction, m, coords, rideId, total);
            o.st.operation == st.operation
            && (o.Continue? ==> Charged(w, st.log, o.st.log, total, o.total))
            && (o.Stop? ==> Failed(w, st.log, o.st.log))
  {
    var rotation := direction % 4;
    var mapCoord := PlacedMazeXY(m, rotation, coords);
    var st1 := UpdateMaxMin(st, WithZ(mapCoord, coords.z));
    MazeUnitCost(w, st1, rotation, m, mapCoord, coords, rideId);
    var st3 := PlaceMazeUnit(w, st1, rotation, m, mapCoord, coords, rideId).0;
    OneEntry(w, st.log, st3.log, total);
  }

  lemma {:induction false} MazeCost(w: World, st: PlaceState, direction: nat, maze: seq<MazeElement>, coords: XYZ,
                                    rideId: nat, i: nat, total: int)
    requires i <= |maze| && IsPlacing(st.operation)
    ensures var (st', r) := MazeFrom(w, st, direction, maze, coords, rideId, i, total);
            st'.operation == st.operation
            && (r.Some? ==> Charged(w, st.log, st'.log, total, r.value))
            && (r.None? ==> Failed(w, st.log, st'.log))
    decreases |maze| - i
  {
    if i == |maze| {
      ChargedRefl(w, st.log, total);
    } else {
      MazeStepCost(w, st, direction, maze[i], coords, rideId, total);
      match PlaceMazeElement(w, st, direction, maze[i], coords, rideId, total)
      case Stop(st1) =>
      case Continue(st1, t1) =>
        MazeCost(w, st1, direction, maze, coords, rideId, i + 1, t1);
        var (st', r) := MazeFrom(w, st1, direction, maze, coords, rideId, i + 1, t1);
        if r.Some? {
          ChargedTrans(w, st.log, st1.log, st'.log, total, t1, r.value);
        } else {
          FailedAfter(w, st.log, st1.log, st'.log, total, t1);
        }
    }
  }

  /** `track_design_place_maze` when placing: a success costs what its actions cost, a failure is the first one without a cost. */
  lemma PlaceMazeCost(w: World, st: PlaceState, direction: nat, maze: seq<MazeElement>, coords: XYZ, rideId: nat)
    requires IsPlacing(st.operation)
    ensures var (st', r) := PlaceMaze(w, st, direction, maze, coords, rideId);
            (r.Some? ==> Charged(w, st.log, st'.log, 0, r.value)) && (r.None? ==> Failed(w, st.log, st'.log))
  {
    var st1 := BeginTrack(w, st, direction, Flat(coords));
    MazeCost(w, st1, direction, maze, coords, rideId, 0, 0);
    var (st2, r) := MazeFrom(w, st1, direction, maze, coords, rideId, 0, 0);
    assert st1.log == st.log;
    assert FinishMaze(w, st2, coords, rideId).log == st2.log;
  }

  // ---------------------------------------------------------------------
  // Ride

  lemma TrackStepCost(w: World, st: PlaceState, t: TrackElement, cur: Cursor, total: int)
    requires IsPlacing(st.operation)
    ensures var o := PlaceTrackPiece(w, st, t, cur, total);
            o.st.operation == st.operation
            && (o.Continue? ==> Charged(w, st.log, o.st.log, total, o.total))
            && (o.Stop? ==> Failed(w, st.log, o.st.log))
  {
    var ted := w.descriptor(t.trackType);
    var st1 := UpdateMaxMin(st, cur.pos);
    var action := TrackPlacement(st1.rideIndex, t, cur, ted.coordinates.zBegin);
    var flags := TrackPlaceFlags(st1.operation, st1.isReplay);
    IssueOne(w, st1, action, flags, Apply in flags);
    OneEntry(w, st.log, IssueByFlags(w, st1, action, flags).0.log, total);
  }

  lemma {:induction false} TrackCost(w: World, st: PlaceState, track: seq<TrackElement>, i: nat, cur: Cursor,
                                     total: int)
    requires i <= |track| && IsPlacing(st.operation)
    ensures var (st', r, _) := TrackFrom(w, st, track, i, cur, total);
            st'.operation == st.operation
            && (r.Some? ==> Charged(w, st.log, st'.log, total, r.value))
            && (r.None? ==> Failed(w, st.log, st'.log))
    decreases |track| - i
  {
    if i == |track| {
      ChargedRefl(w, st.log, total);
    } else {
      TrackStepCost(w, st, track[i], cur, total);
      match PlaceTrackPiece(w, st, track[i], cur, total)
      case Stop(st1) =>
      case Continue(st1, t1) =>
        var next := Advance(cur, w.descriptor(track[i].trackType).coordinates);
        TrackCost(w, st1, track, i + 1, next, t1);
        var (st', r, _) := TrackFrom(w, st1, track, i + 1, next, t1);
        if r.Some? {
          ChargedTrans(w, st.log, st1.log, st'.log, total, t1, r.value);
        } else {
          FailedAfter(w, st.log, st1.log, st'.log, total, t1);
        }
    }
  }

  lemma EntranceAtTrackCost(w: World, st: PlaceState, rideId: nat, e: EntranceElement, at: XY, facing: nat,
                            total: int)
    requires facing < 4
    ensures var o := PlaceEntranceAtTrack(w, st, rideId, e, at, facing, total).0;
            o.st.operation == st.operation && st.log <= o.st.log
            && (o.Continue? ==> Charged(w, st.log, o.st.log, total, o.total))
  {
    var height := PlacedEntranceHeight(e, st.previewOrigin.z);
    var elements := w.elementsAt(st.log, Add(at, DirectionDelta(facing)));
    if |elements| == 0 {
    } else {
      match FirstTrackAt(elements, height, 0)
      case None =>
        ChargedRefl(w, st.log, total);
      case Some(k) =>
        var action := RideEntranceExitPlace(at, facing, rideId, elements[k].station, e.isExit);
        var flags := StandardFlags(st.operation, st.isReplay);
        IssueOne(w, st, action, flags, Apply in flags);
        OneEntry(w, st.log, IssueByFlags(w, st, action, flags).0.log, total);
    }
  }

  lemma QueryEntranceCost(w: World, st: PlaceState, e: EntranceElement, at: XY, total: int)
    ensures var o := QueryEntrance(w, st, e, at, total).0;
            o.st.operation == st.operation && st.log <= o.st.log
            && (o.Continue? ==> Charged(w, st.log, o.st.log, total, o.total))
  {
    var qz := PlacedEntranceQueryZ(e, st.previewOrigin.z);
    IssueOne(w, st, EntranceExitPlaceQuery(WithZ(at, qz), false), {}, false);
    OneEntry(w, st.log, Issue(w, st, EntranceExitPlaceQuery(WithZ(at, qz), false), {}, false).0.log, total);
  }

  lemma EntranceStepCost(w: World, st: PlaceState, direction: nat, rideId: nat, e: EntranceElement, z: int,
                         total: int)
    requires IsPlacing(st.operation)
    ensures var o := PlaceEntrance(w, st, direction, rideId, e, z, total).0;
            o.st.operation == st.operation && (o.Continue? ==> Charged(w, st.log, o.st.log, total, o.total))
  {
    var rotation := direction % 4;
    var at := PlacedEntranceXY(e, rotation, st.previewOrigin);
    var st1 := UpdateMaxMin(st, WithZ(at, z));
    assert st1.log == st.log && st1.operation == st.operation;
    var o := PlaceEntrance(w, st, direction, rideId, e, z, total).0;
    if st1.operation != PTD_OPERATION_PLACE_QUERY {
      var facing := (rotation + e.direction as nat) % 4;
      EntranceAtTrackCost(w, st1, rideId, e, at, facing, total);
      assert o == PlaceEntranceAtTrack(w, st1, rideId, e, at, facing, total).0;
    } else {
      QueryEntranceCost(w, st1, e, at, total);
      assert o == QueryEntrance(w, st1, e, at, total).0;
    }
  }

  lemma {:induction false} EntrancesCost(w: World, st: PlaceState, direction: nat, rideId: nat,
                                         entrances: seq<EntranceElement>, i: nat, z: int, total: int)
    requires i <= |entrances| && IsPlacing(st.operation)
    ensures var (st', r) := EntrancesFrom(w, st, direction, rideId, entrances, i, z, total);
            st'.operation == st.operation && (r.Some? ==> Charged(w, st.log, st'.log, total, r.value))
    decreases |entrances| - i
  {
    if i == |entrances| {
      ChargedRefl(w, st.log, total);
    } else {
      EntranceStepCost(w, st, direction, rideId, entrances[i], z, total);
      match PlaceEntrance(w, st, direction, rideId, entrances[i], z, total)
      case (Stop(st1), _) =>
      case (Continue(st1, t1), z1) =>
        EntrancesCost(w, st1, direction, rideId, entrances, i + 1, z1, t1);
        var (st', r) := EntrancesFrom(w, st1, direction, rideId, entrances, i + 1, z1, t1);
        if r.Some? {
          ChargedTrans(w, st.log, st1.log, st'.log, total, t1, r.value);
        }
    }
  }

  /** `track_design_place_ride` when placing: a success costs what its track pieces and entrances cost. */
  lemma PlaceRideCost(w: World, st: PlaceState, direction: nat, td: DesignRecord, origin: XYZ, rideId: nat)
    requires IsPlacing(st.operation)
    ensures var (st', r) := PlaceRide(w, st, direction, td, origin, rideId);
            r.Some? ==> Charged(w, st.log, st'.log, 0, r.value)
  {
    var st1 := BeginTrack(w, st.(previewOrigin := origin), direction, Flat(origin));
    TrackCost(w, st1, td.trackElements, 0, Cursor(origin, direction), 0);
    var (st2, r, cur) := TrackFrom(w, st1, td.trackElements, 0, Cursor(origin, direction), 0);
    if r.Some? {
      EntrancesCost(w, st2, direction, rideId, td.entranceElements, 0, cur.pos.z, r.value);
      var (st3, r2) := EntrancesFrom(w, st2, direction, rideId, td.entranceElements, 0, cur.pos.z, r.value);
      if r2.Some? {
        ChargedTrans(w, st.log, st2.log, st3.log, 0, r.value, r2.value);
        assert FinishRide(w, st3, rideId) == st3;
      }
    }
  }

  /** The track half of `place_virtual_track` when placing: a success costs exactly its actions. */
  lemma PlaceTrackCost(w: World, st: PlaceState, direction: nat, td: DesignRecord, coords: XYZ, rideId: nat)
    requires IsPlacing(st.operation)
    ensures var (st', r) := PlaceTrack(w, st, direction, td, coords, rideId);
            r.Some? ==> Charged(w, st.log, st'.log, 0, r.value)
  {
    if td.rideType == RIDE_TYPE_MAZE {
      PlaceMazeCost(w, st, direction, td.mazeElements, coords, rideId);
    } else {
      PlaceRideCost(w, st, direction, td, coords, rideId);
    }
  }

  // ---------------------------------------------------------------------
  // Scenery

  /**
   * What the scenery pass takes from entry `k` of the log, clamped to 32
   * bits: a small scenery object or a footpath its cost when it succeeded
   * and nothing when it failed, a large scenery object or a wall the cost
   * it reported, and a reconnected path nothing.
   */
  function SceneryCharge(w: World, log: seq<Issued>, k: nat): int
    requires k < |log|
  {
    var a := log[k].action;
    var r := Response(w, log, k);
    if a.SmallSceneryPlace? || a.FootpathPlaceFromTrack? then AddClampMoney32(0, CostOrZero(r))
    else if a.LargeSceneryPlace? || a.WallPlace? then AddClampMoney32(0, r.cost)
    else 0
  }

  /** The summed scenery charge of entries `lo` up to `hi`. */
  function SceneryCostBetween(w: World, log: seq<Issued>, lo: nat, hi: nat): int
    requires lo <= hi <= |log|
    decreases hi
  {
    if hi == lo then 0 else SceneryCostBetween(w, log, lo, hi - 1) + SceneryCharge(w, log, hi - 1)
  }

  /** The log grew from `before` to `after`, and the scenery total grew by what the new entries charge. */
  predicate SceneryCharged(w: World, before: seq<Issued>, after: seq<Issued>, t0: int, t1: int)
  {
    before <= after && t1 == t0 + SceneryCostBetween(w, after, |before|, |after|)
  }

  /** Entries already in the log keep their scenery charge as the log grows. */
  lemma {:induction false} SceneryCostPrefix(w: World, a: seq<Issued>, b: seq<Issued>, lo: nat, hi: nat)
    requires lo <= hi <= |a| && a <= b
    ensures SceneryCostBetween(w, b, lo, hi) == SceneryCostBetween(w, a, lo, hi)
    decreases hi - lo
  {
    if hi > lo {
      assert b[..hi - 1] == a[..hi - 1];
      assert b[hi - 1] == a[hi - 1];
      SceneryCostPrefix(w, a, b, lo, hi - 1);
    }
  }

  lemma {:induction false} SceneryCostSplit(w: World, log: seq<Issued>, a: nat, m: nat, c: nat)
    requires a <= m <= c <= |log|
    ensures SceneryCostBetween(w, log, a, c) == SceneryCostBetween(w, log, a, m) + SceneryCostBetween(w, log, m, c)
    decreases c - m
  {
    if c > m {
      SceneryCostSplit(w, log, a, m, c - 1);
    }
  }

  /** Two scenery stretches make one. */
  lemma SceneryChargedTrans(w: World, a: seq<Issued>, b: seq<Issued>, c: seq<Issued>, t0: int, t1: int, t2: int)
    requires SceneryCharged(w, a, b, t0, t1) && SceneryCharged(w, b, c, t1, t2)
    ensures SceneryCharged(w, a, c, t0, t2)
  {
    SceneryCostPrefix(w, b, c, |a|, |b|);
    SceneryCostSplit(w, c, |a|, |b|, |c|);
  }

  /** An action issued by the scenery pass charges what `SceneryCost` takes from its answer. */
  lemma IssueSceneryOne(w: World, st: PlaceState, a: GameAction, flags: CommandFlags, execute: bool)
    ensures var (st1, res) := Issue(w, st, a, flags, execute);
            SceneryCharged(w, st.log, st1.log, 0, SceneryCostBetween(w, st1.log, |st.log|, |st1.log|))
            && SceneryCostBetween(w, st1.log, |st.log|, |st1.log|)
               == if a.SmallSceneryPlace? || a.FootpathPlaceFromTrack? then AddClampMoney32(0, CostOrZero(res))
                  else if a.LargeSceneryPlace? || a.WallPlace? then AddClampMoney32(0, res.cost)
                  else 0
  {
    IssueOne(w, st, a, flags, execute);
  }

  /** A small scenery object issues one action, and a success returns what it charges. */
  lemma SmallSceneryCost(w: World, st: PlaceState, direction: nat, loc: XYZ, s: SceneryElement, rotation: nat,
                         e: SceneryEntry)
    ensures var (st1, r) := PlaceSmallScenery(w, st, direction, loc, s, rotation, e);
            st1.operation == st.operation && |st1.log| == |st.log| + 1
            && (r.Some? ==> SceneryCharged(w, st.log, st1.log, 0, r.value))
  {
    var action := SmallSceneryPlace(loc, PlacedDirection(rotation, s.flags), PlacedQuadrant(direction, s.flags),
                                    e.index, s.primaryColour, s.secondaryColour);
    var flags := SceneryObjectFlags(st.operation, st.isReplay);
    IssueSceneryOne(w, st, action, flags, Apply in flags);
  }

  /** A large scenery object issues one action, and a success returns what it charges. */
  lemma LargeSceneryCost(w: World, st: PlaceState, loc: XYZ, s: SceneryElement, rotation: nat, e: SceneryEntry)
    ensures var (st1, r) := PlaceLargeScenery(w, st, loc, s, rotation, e);
            st1.operation == st.operation && |st1.log| == |st.log| + 1
            && (r.Some? ==> SceneryCharged(w, st.log, st1.log, 0, r.value))
  {
    var action := LargeSceneryPlace(loc, PlacedDirection(rotation, s.flags), e.index, s.primaryColour,
                                    s.secondaryColour);
    var flags := SceneryObjectFlags(st.operation, st.isReplay);
    IssueSceneryOne(w, st, action, flags, Apply in flags);
  }

  /** A wall issues one action, and a success returns what it charges. */
  lemma WallCost(w: World, st: PlaceState, loc: XYZ, s: SceneryElement, rotation: nat, e: SceneryEntry)
    ensures var (st1, r) := PlaceWall(w, st, loc, s, rotation, e);
            st1.operation == st.operation && |st1.log| == |st.log| + 1
            && (r.Some? ==> SceneryCharged(w, st.log, st1.log, 0, r.value))
  {
    var action := WallPlace(e.index, loc, PlacedDirection(rotation, s.flags), s.primaryColour, s.secondaryColour,
                            ((s.flags & 0xFC) >> 2) as nat);
    var flags := WallFlags(st.operation, st.isReplay);
    IssueSceneryOne(w, st, action, flags, Apply in flags);
  }

  /** A resolved scenery object issues at most one action, and a success returns what it charges. */
  lemma SceneryObjectCost(w: World, st: PlaceState, direction: nat, mapCoord: XY, mode: nat, s: SceneryElement,
                          rotation: nat, originZ: int, e: SceneryEntry)
    requires rotation < 4
    ensures var (st1, r) := PlaceSceneryObject(w, st, direction, mapCoord, mode, s, rotation, originZ, e);
            st1.operation == st.operation && |st1.log| <= |st.log| + 1
            && (r.Some? ==> SceneryCharged(w, st.log, st1.log, 0, r.value))
  {
    var loc := WithZ(mapCoord, PlacedSceneryZ(s, originZ));
    match e.kind
    case SmallScenery => SmallSceneryCost(w, st, direction, loc, s, rotation, e);
    case LargeScenery => LargeSceneryCost(w, st, loc, s, rotation, e);
    case Walls => WallCost(w, st, loc, s, rotation, e);
    case Paths => PathCost(w, st, mapCoord, mode, s, rotation, originZ, e);
    case FootpathSurface => PathCost(w, st, mapCoord, mode, s, rotation, originZ, e);
    case _ =>
  }

  /**
   * One scenery element in a placing mode issues at most one action, and
   * a success returns what that action charges.
   */
  lemma SceneryElementCost(w: World, st: PlaceState, direction: nat, mapCoord: XY, mode: nat, s: SceneryElement,
                           rotation: nat, originZ: int)
    requires rotation < 4 && IsPlacing(st.operation)
    ensures var (st1, r) := PlaceSceneryElement(w, st, direction, mapCoord, mode, s, rotation, originZ);
            st1.operation == st.operation && |st1.log| <= |st.log| + 1
            && (r.Some? ==> SceneryCharged(w, st.log, st1.log, 0, r.value))
  {
    var (st1, entry) := GetEntry(w, st, s);
    if entry.Some? {
      SceneryObjectCost(w, st1, direction, mapCoord, mode, s, rotation, originZ, entry.value);
    }
  }

  /** A footpath issues at most one action, and a success returns what it charges. */
  lemma PathCost(w: World, st: PlaceState, mapCoord: XY, mode: nat, s: SceneryElement, rotation: nat,
                 originZ: int, e: SceneryEntry)
    requires rotation < 4
    ensures var (st1, r) := PlacePath(w, st, mapCoord, mode, s, rotation, originZ, e);
            st1.operation == st.operation && |st1.log| <= |st.log| + 1
            && (r.Some? ==> SceneryCharged(w, st.log, st1.log, 0, r.value))
  {
    var op := st.operation;
    var z := TDiv(s.z * COORDS_Z_STEP + originZ, COORDS_Z_STEP);
    var flags := StandardFlags(op, st.isReplay);
    if mode == 0 {
      var action := PathAction(mapCoord, s, rotation, z, e);
      assert action.FootpathPlaceFromTrack?;
      IssueSceneryOne(w, st, action, flags, Apply in flags);
      var (st1, res) := IssueByFlags(w, st, action, flags);
      assert PlacePath(w, st, mapCoord, mode, s, rotation, originZ, e) == (st1, SceneryCost(op, CostOrZero(res)));
    } else if op != PTD_OPERATION_PLACE_QUERY && w.hasPathAt(st.log, WithZ(ToTile(mapCoord), z)) {
      IssueSceneryOne(w, st, FootpathReconnect(mapCoord, z), flags, true);
    }
  }

  /** One iteration of the scenery loop in a placing mode: going on, the total grew by what it charged. */
  lemma SceneryStepCost(w: World, st: PlaceState, direction: nat, s: SceneryElement, origin: XYZ, mode: nat,
                        cost: int)
    requires direction < 4 && IsPlacing(st.operation)
    ensures var o := SceneryStep(w, st, direction, s, origin, mode, cost);
            o.st.operation == st.operation
            && (o.Continue? ==> SceneryCharged(w, st.log, o.st.log, cost, o.total))
  {
    var c := SceneryMapCoord(s, direction, origin);
    SceneryElementCost(w, UpdateMaxMin(st, c), direction, Flat(c), mode, s, direction, origin.z);
  }

  /**
   * The scenery loop in a placing mode: a pass that succeeds has added to
   * the running total exactly what its actions charge, each clamped, with a
   * failed small scenery object or footpath counted as 0.
   */
  lemma {:induction false} SceneryElementsCost(w: World, st: PlaceState, direction: nat, list: seq<SceneryElement>,
                                               origin: XYZ, mode: nat, i: nat, cost: int)
    requires direction < 4 && i <= |list| && IsPlacing(st.operation)
    ensures var (st', r) := SceneryElementsFrom(w, st, direction, list, origin, mode, i, cost);
            st'.operation == st.operation && (r.Some? ==> SceneryCharged(w, st.log, st'.log, cost, r.value))
    decreases |list| - i
  {
    if i < |list| {
      SceneryStepCost(w, st, direction, list[i], origin, mode, cost);
      match SceneryStep(w, st, direction, list[i], origin, mode, cost)
      case Stop(_) =>
      case Continue(st1, t1) =>
        SceneryElementsCost(w, st1, direction, list, origin, mode, i + 1, t1);
        var (st', r) := SceneryElementsFrom(w, st1, direction, list, origin, mode, i + 1, t1);
        if r.Some? {
          SceneryChargedTrans(w, st.log, st1.log, st'.log, cost, t1, r.value);
        }
    }
  }

  /** Both scenery passes in a placing mode: a success has added exactly what their actions charge. */
  lemma {:induction false} SceneryModesCost(w: World, st: PlaceState, direction: nat, list: seq<SceneryElement>,
                                            origin: XYZ, mode: nat, cost: int)
    requires direction < 4 && IsPlacing(st.operation)
    ensures var (st', r) := SceneryModesFrom(w, st, direction, list, origin, mode, cost);
            r.Some? ==> SceneryCharged(w, st.log, st'.log, cost, r.value)
    decreases 2 - mode
  {
    if mode <= 1 {
      var st1 := SceneryPassStart(st, list);
      if !st1.placeScenery {
        SceneryModesCost(w, st1, direction, list, origin, mode + 1, cost);
      } else {
        SceneryElementsCost(w, st1, direction, list, origin, mode, 0, cost);
        var (st2, r) := SceneryElementsFrom(w, st1, direction, list, origin, mode, 0, cost);
        if r.Some? {
          SceneryModesCost(w, st2, direction, list, origin, mode + 1, r.value);
          var (st3, r3) := SceneryModesFrom(w, st2, direction, list, origin, mode + 1, r.value);
          if r3.Some? {
            SceneryChargedTrans(w, st.log, st2.log, st3.log, cost, r.value, r3.value);
          }
        }
      }
    }
  }

  /**
   * `track_design_place_all_scenery` in a placing mode: a success returns
   * exactly the clamped charges of the actions it issued.
   */
  lemma PlaceAllSceneryCost(w: World, st: PlaceState, direction: nat, list: seq<SceneryElement>, origin: XYZ)
    requires direction < 4 && IsPlacing(st.operation)
    ensures var (st', r) := PlaceAllScenery(w, st, direction, list, origin);
            r.Some? ==> SceneryCharged(w, st.log, st'.log, 0, r.value)
  {
    SceneryModesCost(w, st, direction, list, origin, 0, 0);
  }
}

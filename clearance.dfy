/**
 * The height search of GET_PLACE_Z: the height `place_virtual_track` finds
 * lifts every maze cell and every track block on a valid tile clear of the
 * terrain (land, raised corners or water) under it, and is the least height
 * at or above the start that does so.
 */
module Clearance {
  import opened Common
  import opened Geometry
  import opened Records
  import opened World
  import opened Placement
  import opened Walker
  import Properties

  // ---------------------------------------------------------------------
  // Maze cells

  /** The tile a maze element lands on. */
  function MazeCell(m: MazeElement, direction: nat, coords: XYZ): XY
  {
    PlacedMazeXY(m, direction % 4, coords)
  }

  /** At height offset `p`, something at height `z` on `tile` is not below the tile's surface. */
  predicate Clears(w: World, log: seq<Issued>, tile: XY, z: int, p: int)
  {
    IsLocationValid(tile) && w.surfaceAt(log, tile).Some? ==> z + p >= SurfaceZ(w.surfaceAt(log, tile).value)
  }

  /** At height offset `p`, something at height `z` on `tile` sits exactly on the tile's surface. */
  predicate Tight(w: World, log: seq<Issued>, tile: XY, z: int, p: int)
  {
    IsLocationValid(tile) && w.surfaceAt(log, tile).Some? && z + p == SurfaceZ(w.surfaceAt(log, tile).value)
  }

  /** Every maze cell from `i` on clears the terrain at `p`. */
  predicate MazeClears(w: World, log: seq<Issued>, direction: nat, maze: seq<MazeElement>, coords: XYZ, i: nat,
                       p: int)
  {
    forall j | i <= j < |maze| :: Clears(w, log, MazeCell(maze[j], direction, coords), coords.z, p)
  }

  /** One maze element in GET_PLACE_Z raises the height just enough for its own cell. */
  lemma MazeCellStep(w: World, st: PlaceState, direction: nat, m: MazeElement, coords: XYZ, rideId: nat,
                     total: int)
    requires st.operation == PTD_OPERATION_GET_PLACE_Z
    ensures var o := PlaceMazeElement(w, st, direction, m, coords, rideId, total);
            var cell := MazeCell(m, direction, coords);
            o.Continue? && o.total == total && o.st.log == st.log && o.st.operation == st.operation
            && st.placeZ <= o.st.placeZ && Clears(w, st.log, cell, coords.z, o.st.placeZ)
            && (o.st.placeZ == st.placeZ || Tight(w, st.log, cell, coords.z, o.st.placeZ))
  {
  }

  /**
   * The maze loop in GET_PLACE_Z never fails and issues nothing; the height
   * it ends at clears every remaining cell, and it is the start height or
   * the height at which some cell sits exactly on its surface.
   */
  lemma {:induction false} MazeClearance(w: World, st: PlaceState, direction: nat, maze: seq<MazeElement>,
                                         coords: XYZ, rideId: nat, i: nat, total: int)
    requires i <= |maze| && st.operation == PTD_OPERATION_GET_PLACE_Z
    ensures var (st', r) := MazeFrom(w, st, direction, maze, coords, rideId, i, total);
            r == Some(total) && st'.log == st.log && st.placeZ <= st'.placeZ
            && MazeClears(w, st.log, direction, maze, coords, i, st'.placeZ)
            && (st'.placeZ == st.placeZ
                || exists j | i <= j < |maze| :: Tight(w, st.log, MazeCell(maze[j], direction, coords), coords.z,
                                                         st'.placeZ))
    decreases |maze| - i
  {
    if i < |maze| {
      MazeCellStep(w, st, direction, maze[i], coords, rideId, total);
      var o := PlaceMazeElement(w, st, direction, maze[i], coords, rideId, total);
      MazeClearance(w, o.st, direction, maze, coords, rideId, i + 1, total);
      var (st', r) := MazeFrom(w, o.st, direction, maze, coords, rideId, i + 1, total);
      assert MazeFrom(w, st, direction, maze, coords, rideId, i, total) == (st', r);
      var p := st'.placeZ;
      forall j | i <= j < |maze|
        ensures Clears(w, st.log, MazeCell(maze[j], direction, coords), coords.z, p)
      {
        if j == i {
          assert o.st.placeZ <= p;
        }
      }
      if p != st.placeZ && p == o.st.placeZ {
        assert Tight(w, st.log, MazeCell(maze[i], direction, coords), coords.z, p);
      }
    }
  }

  /**
   * No lower height at or above the start would do: the maze loop finds the
   * least offset that clears every cell.
   */
  lemma MazeHeightLeast(w: World, st: PlaceState, direction: nat, maze: seq<MazeElement>, coords: XYZ,
                        rideId: nat, total: int, p: int)
    requires st.operation == PTD_OPERATION_GET_PLACE_Z
    requires p >= st.placeZ && MazeClears(w, st.log, direction, maze, coords, 0, p)
    ensures MazeFrom(w, st, direction, maze, coords, rideId, 0, total).0.placeZ <= p
  {
    MazeClearance(w, st, direction, maze, coords, rideId, 0, total);
    var q := MazeFrom(w, st, direction, maze, coords, rideId, 0, total).0.placeZ;
    if q != st.placeZ {
      var j :| 0 <= j < |maze| && Tight(w, st.log, MazeCell(maze[j], direction, coords), coords.z, q);
      assert Clears(w, st.log, MazeCell(maze[j], direction, coords), coords.z, p);
    }
  }

  // ---------------------------------------------------------------------
  // Track blocks

  /** A block's tile is off the map or has a surface. */
  predicate BlockSupported(w: World, log: seq<Issued>, cur: Cursor, b: TrackBlock)
  {
    IsLocationValid(BlockTile(cur, b)) ==> w.surfaceAt(log, BlockTile(cur, b)).Some?
  }

  /** A block at base height `tempZ + b.z` clears its tile at offset `p`. */
  predicate BlockClears(w: World, log: seq<Issued>, cur: Cursor, tempZ: int, b: TrackBlock, p: int)
  {
    Clears(w, log, BlockTile(cur, b), tempZ + b.z, p)
  }

  predicate BlockTight(w: World, log: seq<Issued>, cur: Cursor, tempZ: int, b: TrackBlock, p: int)
  {
    Tight(w, log, BlockTile(cur, b), tempZ + b.z, p)
  }

  /**
   * The block loop of GET_PLACE_Z succeeds exactly when every block on a
   * valid tile has a surface; then every block clears at the height it ends
   * at, and that height is the start height or tight for some block.
   */
  lemma {:induction false} BlocksClearance(w: World, st: PlaceState, blocks: seq<TrackBlock>, i: nat, cur: Cursor,
                                           tempZ: int)
    requires i <= |blocks|
    ensures var (st', ok) := ClearBlocks(w, st, blocks, i, cur, tempZ);
            st'.log == st.log && st.placeZ <= st'.placeZ
            && (ok <==> forall k | i <= k < |blocks| :: BlockSupported(w, st.log, cur, blocks[k]))
            && (ok ==> forall k | i <= k < |blocks| :: BlockClears(w, st.log, cur, tempZ, blocks[k], st'.placeZ))
            && (ok ==> st'.placeZ == st.placeZ
                       || exists k | i <= k < |blocks| :: BlockTight(w, st.log, cur, tempZ, blocks[k], st'.placeZ))
    decreases |blocks| - i
  {
    if i < |blocks| {
      var tile := BlockTile(cur, blocks[i]);
      if !IsLocationValid(tile) {
        BlocksClearance(w, st, blocks, i + 1, cur, tempZ);
        var (st', ok) := ClearBlocks(w, st, blocks, i + 1, cur, tempZ);
        if ok {
          assert BlockClears(w, st.log, cur, tempZ, blocks[i], st'.placeZ);
        }
        assert BlockSupported(w, st.log, cur, blocks[i]);
      } else if w.surfaceAt(st.log, tile).Some? {
        var surface := w.surfaceAt(st.log, tile).value;
        var st1 := st.(placeZ := Raise(st.placeZ, tempZ + blocks[i].z, SurfaceZ(surface)));
        BlocksClearance(w, st1, blocks, i + 1, cur, tempZ);
        var (st', ok) := ClearBlocks(w, st1, blocks, i + 1, cur, tempZ);
        assert ClearBlocks(w, st, blocks, i, cur, tempZ) == (st', ok);
        assert BlockSupported(w, st.log, cur, blocks[i]);
        if ok {
          assert BlockClears(w, st.log, cur, tempZ, blocks[i], st'.placeZ);
          if st'.placeZ != st.placeZ && st'.placeZ == st1.placeZ {
            assert BlockTight(w, st.log, cur, tempZ, blocks[i], st'.placeZ);
          }
        }
      } else {
        assert !BlockSupported(w, st.log, cur, blocks[i]);
      }
    }
  }

  // ---------------------------------------------------------------------
  // Track pieces

  /** The cursor of piece `j` when piece `i` is placed at `cur`. */
  function CursorAt(w: World, track: seq<TrackElement>, i: nat, cur: Cursor, j: nat): Cursor
    requires i <= j <= |track|
    decreases j - i
  {
    if j == i then cur else CursorAt(w, track, i + 1, Advance(cur, w.descriptor(track[i].trackType).coordinates), j)
  }

  /** The base height of a piece's blocks: the cursor height less the piece's starting height. */
  function PieceZ(w: World, t: TrackElement, cur: Cursor): int
  {
    cur.pos.z - w.descriptor(t.trackType).coordinates.zBegin
  }

  predicate PieceSupported(w: World, log: seq<Issued>, t: TrackElement, cur: Cursor)
  {
    var blocks := w.descriptor(t.trackType).Blocks();
    forall k | 0 <= k < |blocks| :: BlockSupported(w, log, cur, blocks[k])
  }

  predicate PieceClears(w: World, log: seq<Issued>, t: TrackElement, cur: Cursor, p: int)
  {
    var blocks := w.descriptor(t.trackType).Blocks();
    forall k | 0 <= k < |blocks| :: BlockClears(w, log, cur, PieceZ(w, t, cur), blocks[k], p)
  }

  predicate PieceTight(w: World, log: seq<Issued>, t: TrackElement, cur: Cursor, p: int)
  {
    var blocks := w.descriptor(t.trackType).Blocks();
    exists k | 0 <= k < |blocks| :: BlockTight(w, log, cur, PieceZ(w, t, cur), blocks[k], p)
  }

  /** One piece in GET_PLACE_Z: the block loop at the piece's own height, after the box update. */
  lemma TrackPieceStep(w: World, st: PlaceState, t: TrackElement, cur: Cursor, total: int)
    requires st.operation == PTD_OPERATION_GET_PLACE_Z
    ensures var o := PlaceTrackPiece(w, st, t, cur, total);
            o.st.log == st.log && o.st.operation == st.operation && st.placeZ <= o.st.placeZ
            && (o.Continue? <==> PieceSupported(w, st.log, t, cur))
            && (o.Continue? ==> o.total == total && PieceClears(w, st.log, t, cur, o.st.placeZ)
                                && (o.st.placeZ == st.placeZ || PieceTight(w, st.log, t, cur, o.st.placeZ)))
  {
    var ted := w.descriptor(t.trackType);
    var st1 := UpdateMaxMin(st, cur.pos);
    BlocksClearance(w, st1, ted.Blocks(), 0, cur, PieceZ(w, t, cur));
    Properties.ClearBlocksGrows(w, st1, ted.Blocks(), 0, cur, PieceZ(w, t, cur));
  }

  /**
   * The track loop in GET_PLACE_Z issues nothing; it succeeds exactly when
   * every piece's blocks on valid tiles have a surface, and then its height
   * clears every block of every piece and is the start height or tight for
   * some block.
   */
  lemma {:induction false} TrackClearance(w: World, st: PlaceState, track: seq<TrackElement>, i: nat, cur: Cursor,
                                          total: int)
    requires i <= |track| && st.operation == PTD_OPERATION_GET_PLACE_Z
    ensures var (st', r, _) := TrackFrom(w, st, track, i, cur, total);
            st'.log == st.log && st.placeZ <= st'.placeZ
            && (r.Some? <==> forall j | i <= j < |track| ::
                               PieceSupported(w, st.log, track[j], CursorAt(w, track, i, cur, j)))
            && (r.Some? ==> r.value == total
                            && (forall j | i <= j < |track| ::
                                  PieceClears(w, st.log, track[j], CursorAt(w, track, i, cur, j), st'.placeZ))
                            && (st'.placeZ == st.placeZ
                                || exists j | i <= j < |track| ::
                                     PieceTight(w, st.log, track[j], CursorAt(w, track, i, cur, j), st'.placeZ)))
    decreases |track| - i
  {
    if i < |track| {
      TrackPieceStep(w, st, track[i], cur, total);
      var o := PlaceTrackPiece(w, st, track[i], cur, total);
      assert CursorAt(w, track, i, cur, i) == cur;
      if o.Continue? {
        var next := Advance(cur, w.descriptor(track[i].trackType).coordinates);
        TrackClearance(w, o.st, track, i + 1, next, total);
        var (st', r, c') := TrackFrom(w, o.st, track, i + 1, next, total);
        assert TrackFrom(w, st, track, i, cur, total) == (st', r, c');
        forall j | i < j < |track|
          ensures CursorAt(w, track, i, cur, j) == CursorAt(w, track, i + 1, next, j)
        {
        }
        if r.Some? {
          var p := st'.placeZ;
          var blocks := w.descriptor(track[i].trackType).Blocks();
          forall k | 0 <= k < |blocks|
            ensures BlockClears(w, st.log, cur, PieceZ(w, track[i], cur), blocks[k], p)
          {
            assert BlockClears(w, st.log, cur, PieceZ(w, track[i], cur), blocks[k], o.st.placeZ);
          }
          assert PieceClears(w, st.log, track[i], cur, p);
          if p != st.placeZ && p == o.st.placeZ {
            assert PieceTight(w, st.log, track[i], cur, p);
          }
        }
      }
    }
  }

  /** The track loop finds the least offset at or above the start that clears every block. */
  lemma TrackHeightLeast(w: World, st: PlaceState, track: seq<TrackElement>, cur: Cursor, total: int, p: int)
    requires st.operation == PTD_OPERATION_GET_PLACE_Z && p >= st.placeZ
    requires TrackFrom(w, st, track, 0, cur, total).1.Some?
    requires forall j | 0 <= j < |track| :: PieceClears(w, st.log, track[j], CursorAt(w, track, 0, cur, j), p)
    ensures TrackFrom(w, st, track, 0, cur, total).0.placeZ <= p
  {
    TrackClearance(w, st, track, 0, cur, total);
    var q := TrackFrom(w, st, track, 0, cur, total).0.placeZ;
    if q != st.placeZ {
      var j :| 0 <= j < |track| && PieceTight(w, st.log, track[j], CursorAt(w, track, 0, cur, j), q);
      var c := CursorAt(w, track, 0, cur, j);
      var blocks := w.descriptor(track[j].trackType).Blocks();
      var k :| 0 <= k < |blocks| && BlockTight(w, st.log, c, PieceZ(w, track[j], c), blocks[k], q);
      assert PieceClears(w, st.log, track[j], c, p);
      assert BlockClears(w, st.log, c, PieceZ(w, track[j], c), blocks[k], p);
    }
  }
}

# OpenRCT2 track designs in Dafny

This project models the track-design engine of OpenRCT2,
`src/openrct2/ride/TrackDesign.cpp`, and proves properties of the model.
The engine does three jobs:

- **Capture.** It turns a built ride into a design record that is
  relative to an origin and rotated back by the origin's direction
  (`CreateTrackDesign`, `CreateTrackDesignTrack`, `CreateTrackDesignMaze`,
  `MazeGetFirstElement`, `CreateTrackDesignScenery`).
- **Mirroring.** It rewrites a record in place into its mirror image
  (`track_design_mirror`, `track_design_mirror_ride`,
  `track_design_mirror_maze`, `track_design_mirror_scenery`).
- **Placement.** It walks a record back onto the map
  (`place_virtual_track` and the routines it dispatches to), and whatever
  the operation mode — draw outlines, query, place, ghost place, or find
  the place height — it keeps a bounding box, a selection-tile list, a
  clearance height and a running cost.

The model follows the source's structure:

- `common`, `geometry`, `bits`, `records`: C++ integer casts and truncating
  division, `CoordsXY::Rotate` and tile conversion, the 16-bit maze wall
  word and its mirror table, and the design-record element types with the
  track flag byte.
- `world`: everything outside the record, as abstract values.
  - Each game action the engine issues is appended to a log. An oracle,
    given the log, answers every action with success or failure and a cost.
  - The map surface, the tile elements and the path elements are functions
    of the log, so a placed element becomes visible to later lookups.
  - The object manager's scenery lookup is a resolver that may fail.
  - The track-piece descriptor table is a given function.
  - The built ride is a value: its track graph, its stations, its vehicle
    object and its statistics.
- `mirror`, `capture`, `placement`: the per-element transforms, as
  functions, with their involution and round-trip lemmas.
- `design`: the design record as a class `TrackDesign`. Its capture
  and mirror methods append to and rewrite its sequence fields, as the
  source's loops do.
- `layout`: the functions those methods are proved against, and the
  lemmas about them (element caps, signed windows, entrance order, maze
  markers).
- `walker`: the placement routines as functions of a state value.
- `engine`: the class `TrackDesignState`, whose fields are the file
  statics `_trackPreviewMin/Max/Origin`, `_trackDesignPlace*` and
  `_currentRideIndex`, together with the selection globals and the action
  log. Every placement routine is a method that updates those fields, and
  it is proved to follow `walker` step for step.
- `properties`, `clearance`, `costs`, `results`: what placement
  guarantees.
  - `properties`: the bounding box only grows and always contains what was
    visited, the selection list stays free of duplicates, and passive modes
    issue nothing.
  - `clearance`: in the place-height mode, the computed height clears
    every surface.
  - `costs`: the total is the sum of the element costs, and the first
    failure aborts.
  - `results`: the state flags and what `place_virtual_track` returns.

## Model

| member | source | states |
|---|---|---|
| Common.TDiv | src/openrct2/ride/TrackDesign.cpp:338-339 | C++ `/` on a positive divisor: the remainder has the dividend's sign and is smaller than the divisor, and the quotient keeps the dividend's sign |
| Common.TDivExact | src/openrct2/ride/TrackDesign.cpp:829-841 | a multiple of 32 (or of 8) divides back to its factor, of either sign, as in `(-(y * 32)) / 32` |
| Common.Int8 | src/openrct2/ride/TrackDesign.cpp:413-414 | `static_cast<int8_t>` gives a value in -128..127 congruent to its input modulo 256, and keeps any input already in that range |
| Common.Uint8 | src/openrct2/ride/TrackDesign.cpp:535 | `static_cast<uint8_t>` gives a value in 0..255 congruent to its input modulo 256, and keeps any input already in that range |
| Common.Int16 | src/openrct2/ride/TrackDesign.cpp:307-308 | the store into an `int16_t` field gives a value in -32768..32767 congruent to its input modulo 65536, and keeps any input already in that range |
| Common.Int8Congruent | src/openrct2/ride/TrackDesign.cpp:545-546 | values that agree modulo 256 cast to the same signed byte |
| Common.Int8NegateTwice | src/openrct2/ride/TrackDesign.cpp:933 | negating a signed byte twice, as the mirror's `maze.y = -maze.y` does, restores it, -128 included |
| Common.Int16Congruent | src/openrct2/ride/TrackDesign.cpp:914 | values that agree modulo 65536 store to the same `int16_t` |
| Common.Int16NegateTwice | src/openrct2/ride/TrackDesign.cpp:914 | negating an `int16_t` twice, as `entrance.y = -entrance.y` does, restores it, -32768 included |
| Geometry.RotateAdd | src/openrct2/ride/TrackDesign.cpp:306 | rotating by `a` and then by `b` equals rotating by `a + b` |
| Geometry.RotateInverse | src/openrct2/ride/TrackDesign.cpp:306 | rotating back by `0 - d` undoes a rotation by `d`, and a rotation by `d` undoes that |
| Geometry.RotateScale | src/openrct2/ride/TrackDesign.cpp:1377-1379 | rotating a tile offset and then scaling it by 32 equals scaling and then rotating |
| Geometry.ToTile | src/openrct2/ride/TrackDesign.cpp:538 | `TileCoordsXY{CoordsXY}` on non-negative coordinates is the tile each axis lies in |
| Geometry.ToTileToCoords | src/openrct2/ride/TrackDesign.cpp:535-538 | converting a tile to coordinates and back gives the same tile |
| Geometry.DirectionDelta | src/openrct2/ride/TrackDesign.cpp:1756 | `CoordsDirectionDelta[d]` is the step of one tile in direction `d`, that is the direction-0 step (-32, 0) rotated by `d` |
| Bits.ValueOf | src/openrct2/ride/TrackDesign.cpp:946-951 | a string of `n` bits stands for a value below 2^n |
| Bits.ValueOfBitsOf | src/openrct2/ride/TrackDesign.cpp:946-952 | a value below 2^n survives being stored in `n` bits and read back |
| Bits.BitsOfValueOf | src/openrct2/ride/TrackDesign.cpp:946-952 | a bit string survives being read as a value and stored back |
| Bits.ValueOfLowTwo | src/openrct2/ride/TrackDesign.cpp:937 | a value's parity and its remainder modulo 4 depend only on its two low bits |
| Bits.LowByte | src/openrct2/ride/TrackDesign.cpp:935-937 | the `direction` half of the maze element union is a byte |
| Bits.HighByte | src/openrct2/ride/TrackDesign.cpp:935 | the `type` half of the maze element union is a byte |
| Bits.BytesOfWord | src/openrct2/ride/TrackDesign.cpp:935-952 | the two byte halves of the union read back what is written into `maze_entry` |
| Bits.LowestFrom | src/openrct2/ride/TrackDesign.cpp:948 | the result is the lowest set bit at or above `k`, or -1 exactly when no bit from `k` on is set |
| Bits.BitScanForward | src/openrct2/ride/TrackDesign.cpp:948 | `bitscanforward` is -1 exactly for a zero word, and otherwise the index of the lowest set bit |
| Bits.MirrorMapInvolution | src/openrct2/ride/TrackDesign.cpp:923-925 | `maze_segment_mirror_map` is its own inverse on 0..15 |
| Bits.MirrorWordMovesBits | src/openrct2/ride/TrackDesign.cpp:944-952 | the mirrored word has bit `map[i]` set exactly when the original has bit `i` set |
| Bits.MirrorWordInvolution | src/openrct2/ride/TrackDesign.cpp:923-952 | mirroring a wall word twice restores it |
| Bits.PopCountBelow | src/openrct2/ride/TrackDesign.cpp:946 | there are at most `k` walls among the lowest `k` bits |
| Bits.PopCount | src/openrct2/ride/TrackDesign.cpp:946 | a wall word has at most 16 walls |
| Bits.PopCountSum | src/openrct2/ride/TrackDesign.cpp:946 | the wall count is the sum of the sixteen bits |
| Bits.MirrorWordKeepsWallCount | src/openrct2/ride/TrackDesign.cpp:944-952 | mirroring keeps the number of walls of a cell |
| Bits.MirrorClearStep | src/openrct2/ride/TrackDesign.cpp:948-951 | clearing bit `p` of what is left sets bit `map[p]` of the mirrored part, and changes nothing else there |
| Bits.ClearedNothing | src/openrct2/ride/TrackDesign.cpp:946-947 | before the loop clears anything, the new word is zero |
| Bits.ClearedEverything | src/openrct2/ride/TrackDesign.cpp:948 | once no bit is left, every bit of the entry has been cleared |
| Bits.MirrorWalls | src/openrct2/ride/TrackDesign.cpp:946-952 | the `bitscanforward` loop computes the mirror of the wall word |
| Bits.Rol16 | src/openrct2/ride/TrackDesign.cpp:1510 | `rol16(w, s)` moves bit `i` to bit `(i + s) mod 16` |
| Bits.Rol16Add | src/openrct2/ride/TrackDesign.cpp:1510 | two 16-bit rotations compose to one by the summed amount modulo 16 |
| Bits.Rol16Inverse | src/openrct2/ride/TrackDesign.cpp:1510 | a maze cell rotated by `4 * rotation` is restored by the rotation for the opposite direction |
| Bits.EdgesRotateRight | src/openrct2/ride/TrackDesign.cpp:503-509 | the path edge nibble rotated right as capture does it sets no bit above the low nibble |
| Bits.EdgesRotateLeft | src/openrct2/ride/TrackDesign.cpp:1250-1252 | the path edge nibble rotated left as placement does it sets no bit above the low nibble |
| Bits.EdgesRoundTrip | src/openrct2/ride/TrackDesign.cpp:503-509 | rotating the edge nibble right then left by the same amount, or left then right, returns the low nibble |
| Records.MarkerEntry | src/openrct2/ride/TrackDesign.cpp:409-416 | the maze union of a marker has the direction in its low byte and the marker type in its high byte |
| Records.TrackColourOf | src/openrct2/ride/TrackDesign.cpp:1651 | the colour placement reads from a piece's flags is a scheme index below 4 |
| Records.BrakeSpeedOf | src/openrct2/ride/TrackDesign.cpp:1652 | the brake speed placement reads is even and below 32 |
| Records.SeatRotationOf | src/openrct2/ride/TrackDesign.cpp:1653 | the seat rotation placement reads is below 16 |
| Records.LiftHillAndAlternativeOf | src/openrct2/ride/TrackDesign.cpp:1655-1663 | the lift-hill state has bit 0 set exactly for the chain-lift flag and bit 1 set exactly for the inverted flag |
| Records.TrackFlagsRoundTrip | src/openrct2/ride/TrackDesign.cpp:212-231 | for a colour scheme below 4, placement decodes the flag byte capture packed into the colour scheme, an even brake speed below 32 or a seat rotation below 16, and the chain and inverted states (decoding at lines 1651-1663) |
| Mirror.MirrorTrackElement | src/openrct2/ride/TrackDesign.cpp:906-910 | a mirrored piece keeps its flags (its type becomes the descriptor's mirror piece) |
| Mirror.MirrorTrackElementInvolution | src/openrct2/ride/TrackDesign.cpp:906-910 | a piece mirrored twice is restored when the descriptor table's mirror pieces pair up |
| Mirror.MirrorEntrance | src/openrct2/ride/TrackDesign.cpp:912-919 | a mirrored entrance keeps x, z, its kind and the parity of its direction, keeps an even direction, and has y negated |
| Mirror.MirrorEntranceInvolution | src/openrct2/ride/TrackDesign.cpp:912-919 | an entrance mirrored twice is restored |
| Mirror.MirrorEntranceReversesOddDirection | src/openrct2/ride/TrackDesign.cpp:915-918 | an odd entrance direction is turned to the opposite side |
| Mirror.MirrorMarkerEntry | src/openrct2/ride/TrackDesign.cpp:937-940 | reversing a marker's direction changes only bit 1 of the direction byte and never the type byte |
| Mirror.MirrorMazeElement | src/openrct2/ride/TrackDesign.cpp:931-953 | a mirrored maze element keeps x, has y negated, stays a marker of the same type if it was one, and otherwise has its wall mask mirrored |
| Mirror.MirrorMarkerDirection | src/openrct2/ride/TrackDesign.cpp:935-941 | a mirrored marker keeps the parity of its direction, an odd direction is reversed, and an even one leaves the union unchanged |
| Mirror.MirrorMazeElementInvolution | src/openrct2/ride/TrackDesign.cpp:931-953 | a maze element mirrored twice is restored, whether it is a marker or a wall cell whose mirror is not read as a marker |
| Mirror.HighByteOfWalls11And14 | src/openrct2/ride/TrackDesign.cpp:935 | the wall mask with segments 11 and 14 has type byte 0x48, which is no marker type |
| Mirror.HighByteOfWalls6And15 | src/openrct2/ride/TrackDesign.cpp:935 | the wall mask with segments 6 and 15 has type byte 0x80, the exit marker type |
| Mirror.MirrorWalls11And14 | src/openrct2/ride/TrackDesign.cpp:923-952 | the table sends segments 11 and 14 to segments 15 and 6 |
| Mirror.WallCellMirrorsToExit | src/openrct2/ride/TrackDesign.cpp:931-953 | the wall cell 0x4800 mirrors to the word 0x8040 |
| Mirror.ExitCellMirrorsToItself | src/openrct2/ride/TrackDesign.cpp:935-941 | the word 0x8040 is read as an exit marker with an even direction, so the mirror leaves it unchanged |
| Mirror.MirrorMazeWallBecomesExit | src/openrct2/ride/TrackDesign.cpp:931-953 | a wall cell exists whose mirror is read as an exit marker, so mirroring a maze twice does not restore it |
| Mirror.WallsDiffer | src/openrct2/ride/TrackDesign.cpp:923-925 | the two wall masks of that example are different words |
| Mirror.MinTileY | src/openrct2/ride/TrackDesign.cpp:805-823 | the least tile y offset of a large-scenery footprint, starting from 0, is at most 0 and at most every offset |
| Mirror.MaxTileY | src/openrct2/ride/TrackDesign.cpp:805-823 | the greatest tile y offset, starting from 0, is at least 0 and at least every offset |
| Mirror.MirrorLargeScenery | src/openrct2/ride/TrackDesign.cpp:802-843 | mirrored large scenery keeps z, its object and every flag bit but bit 1, and for directions 0 and 2 also x and all its flags |
| Mirror.MoveLargeScenery | src/openrct2/ride/TrackDesign.cpp:826-842 | the move by direction for a footprint spanning `y1` to `y2` keeps z, the object and every flag bit but bit 1, and for directions 0 and 2 also x and all the flags |
| Mirror.TileShift | src/openrct2/ride/TrackDesign.cpp:829-840 | a whole number of tiles plus a whole-tile shift divides back to the sum of the tile counts |
| Mirror.Int8ReflectTwice | src/openrct2/ride/TrackDesign.cpp:829 | reflecting a signed byte about the same point twice restores it |
| Mirror.Int8ShiftBack | src/openrct2/ride/TrackDesign.cpp:832 | shifting a signed byte and shifting it back restores it, wrap-around included |
| Mirror.LargeSceneryAlongOnce | src/openrct2/ride/TrackDesign.cpp:828-836 | for directions 0 and 2 on a footprint spanning `32k`, one mirror reflects only y about the footprint's centre line |
| Mirror.LargeSceneryAlongTwice | src/openrct2/ride/TrackDesign.cpp:828-836 | for directions 0 and 2 on a footprint spanning `32k`, two mirrors restore the element |
| Mirror.LargeSceneryAcrossOnce | src/openrct2/ride/TrackDesign.cpp:831-841 | for directions 1 and 3, one mirror shifts x by the footprint's extent, negates y and toggles bit 1 of the direction |
| Mirror.FlipAcrossDirection | src/openrct2/ride/TrackDesign.cpp:834 | toggling bit 1 swaps directions 1 and 3, and toggling it twice restores the flags |
| Mirror.AcrossRoundTrip | src/openrct2/ride/TrackDesign.cpp:831-841 | shifting x one way and back, negating y twice and toggling bit 1 twice restores the element |
| Mirror.LargeSceneryAcrossTwice | src/openrct2/ride/TrackDesign.cpp:831-841 | for directions 1 and 3 on a footprint spanning `32k`, two mirrors restore the element |
| Mirror.MirrorLargeSceneryInvolution | src/openrct2/ride/TrackDesign.cpp:802-843 | large scenery mirrored twice is restored when the least and greatest y offsets sum to a whole number of tiles |
| Mirror.MirrorSmallScenery | src/openrct2/ride/TrackDesign.cpp:843-863 | mirrored small scenery keeps x, z, its object and the flag bits above bit 2, and has y negated |
| Mirror.MirrorSmallSceneryInvolution | src/openrct2/ride/TrackDesign.cpp:843-863 | small scenery mirrored twice is restored, diagonal or not, full-tile or not |
| Mirror.MirrorWall | src/openrct2/ride/TrackDesign.cpp:864-872 | a mirrored wall keeps x, z, its object and every flag bit but bit 1, changes its flags exactly when bit 0 is set, and has y negated |
| Mirror.MirrorWallInvolution | src/openrct2/ride/TrackDesign.cpp:864-872 | a wall mirrored twice is restored |
| Mirror.MirrorPath | src/openrct2/ride/TrackDesign.cpp:873-890 | a mirrored path keeps x, z, its object and bits 0, 2, 4, 5 and 7, swaps edge bits 1 and 3, toggles bit 6 exactly when bit 5 is set, and has y negated |
| Mirror.MirrorPathInvolution | src/openrct2/ride/TrackDesign.cpp:873-890 | a path mirrored twice is restored |
| Mirror.MirrorScenery | src/openrct2/ride/TrackDesign.cpp:792-900 | a mirrored scenery element keeps its object and its queue bit, and one whose object does not resolve is unchanged |
| Mirror.MirrorSceneryInvolution | src/openrct2/ride/TrackDesign.cpp:790-902 | a scenery element mirrored twice is restored, given a large-scenery footprint spanning whole tiles |
| Mirror.MirrorTrackSeq | src/openrct2/ride/TrackDesign.cpp:906-910 | the piece sequence is mirrored element by element, and its length is kept |
| Mirror.MirrorEntranceSeq | src/openrct2/ride/TrackDesign.cpp:912-919 | the entrance sequence is mirrored element by element, and its length is kept |
| Mirror.MirrorMazeSeq | src/openrct2/ride/TrackDesign.cpp:931-953 | the maze sequence is mirrored element by element, and its length is kept |
| Mirror.MirrorRideInvolution | src/openrct2/ride/TrackDesign.cpp:904-920 | mirroring the ride part twice restores its pieces (when the mirror pieces pair up) and its entrances |
| Mirror.MirrorMazeInvolution | src/openrct2/ride/TrackDesign.cpp:929-953 | mirroring a maze twice restores it when no wall cell mirrors into a marker |
| Placement.SplitOperation | src/openrct2/ride/TrackDesign.cpp:1887-1889 | the operation byte splits into an operation below 0x80 and the replay flag, and the two recombine to the byte |
| Placement.SceneryObjectFlags | src/openrct2/ride/TrackDesign.cpp:1114-1135 | small and large scenery are always placed as path scenery, applied except in a query, as ghosts exactly in ghost mode, and paused and without spending exactly in ghost and preview modes, with the replay flag when replaying (the large-scenery copy is at 1162-1183) |
| Placement.WallFlags | src/openrct2/ride/TrackDesign.cpp:1207-1227 | walls are applied except in a query, as ghosts exactly in ghost mode, as path scenery exactly in preview mode, without spending exactly in ghost and preview modes, with the replay flag when replaying |
| Placement.StandardFlags | src/openrct2/ride/TrackDesign.cpp:1258-1275 | paths, maze pieces and entrances are applied except in a query, as ghosts exactly in ghost mode, never as path scenery, and paused and without spending exactly in ghost and preview modes, with the replay flag when replaying (the same flags at 1436-1458, 1513-1532 and 1804-1822) |
| Placement.TrackPlaceFlags | src/openrct2/ride/TrackDesign.cpp:1665-1684 | track pieces are applied except in a query, as ghosts exactly in ghost mode, without spending in query, ghost and preview modes, with the replay flag when replaying |
| Placement.Advance | src/openrct2/ride/TrackDesign.cpp:1744-1757 | the next cursor moves by the piece's rotated end offset and its height change, turns by its rotation change modulo 4, keeps the diagonal bit exactly when the piece ends diagonally, and otherwise steps one tile in its new direction |
| Placement.SurfaceZ | src/openrct2/ride/TrackDesign.cpp:1718-1732 | the height to clear is at least the land and at least positive water, is the land, the land one or two steps up, or the water, and is the bare land on a flat tile above the water |
| Placement.Raise | src/openrct2/ride/TrackDesign.cpp:1733-1737 | the place height never falls, lifts the block to the surface, and moves only as far as needed to do that (same rule at 1577-1581) |
| Placement.Extend | src/openrct2/ride/TrackDesign.cpp:983-989 | the new box holds the point and everything the old box held, and each bound is either the old bound or the point's coordinate |
| Placement.WithTile | src/openrct2/ride/TrackDesign.cpp:974-981 | the tile is then in the selection list, which is unchanged if it was there and otherwise extended by the tile at the end, keeps having no duplicates, and holds exactly the old tiles and this one |
| Placement.PlacedDirection | src/openrct2/ride/TrackDesign.cpp:1111-1112 | the rotation of placed scenery is a direction below 4 |
| Placement.PlacedQuadrant | src/openrct2/ride/TrackDesign.cpp:1114 | the quadrant of placed small scenery is below 4 |
| Placement.PlacedPathByte | src/openrct2/ride/TrackDesign.cpp:1250-1256 | the placed path byte holds the edge nibble rotated left by `rotation`, the slope direction turned by `rotation` modulo 4, and bits 4 and 7 of the design's flags |
| Placement.PathSlope | src/openrct2/ride/TrackDesign.cpp:1276 | the slope passed to the footpath action is the slope direction plus bit 2 exactly when the sloped bit 4 is set |
| Placement.SpaceRequired | src/openrct2/ride/TrackDesign.cpp:338-339 | the number of tiles a design spans along an axis is at least one and covers the extent in steps of 32 (same formula at 455-456) |
| Placement.PreviewZoom | src/openrct2/ride/TrackDesign.cpp:2109-2124 | the zoom is 1 to 3: 1 exactly when the horizontal extent is at most 1000 and the height at most 280, 3 exactly when the extent exceeds 1600 or the height 1000 |
| Placement.PreviewFraming | src/openrct2/ride/TrackDesign.cpp:2095-2132 | the preview zoom is chosen from the larger horizontal extent and the height, which is zero for a ride without track; the view is 370 by 217 scaled by the zoom; a ride without track gets centre height 0 |
| Placement.PreviewZoomMonotone | src/openrct2/ride/TrackDesign.cpp:2109-2124 | a bigger design never gets a finer zoom |
| Capture.SpeedOf | src/openrct2/ride/TrackDesign.cpp:136-137 | a captured speed is the 16.16 speed truncated to whole units and wrapped into a signed byte, so it is exactly that whole value when it fits |
| Capture.AirTimeOf | src/openrct2/ride/TrackDesign.cpp:148-153 | the captured air time is a byte: the air time scaled by 123/1024 and rounded down when that fits, and 0 when it does not |
| Capture.InversionsOf | src/openrct2/ride/TrackDesign.cpp:143-144 | the inversion byte holds the inversions in bits 0-4 and the sheltered eighths in bits 5-7 |
| Capture.VerticalGOf | src/openrct2/ride/TrackDesign.cpp:139-140 | a vertical G force in 1/32 units is stored as a signed byte congruent modulo 256 to the truncated quotient, and equal to it when it fits |
| Capture.LateralGOf | src/openrct2/ride/TrackDesign.cpp:141 | the lateral G force is stored as an unsigned byte congruent modulo 256 to the truncated quotient, and equal to it when it fits |
| Capture.RatingOf | src/openrct2/ride/TrackDesign.cpp:155-157 | a rating in hundredths is stored in tenths as an unsigned byte congruent modulo 256 to the truncated quotient, and equal to it when it fits |
| Capture.CaptureStatistics | src/openrct2/ride/TrackDesign.cpp:109-157 | the captured statistics keep the colour scheme modulo 4, a byte of air time, the packed inversion byte, both speeds, a ride length no longer than the ride's, the three G forces and three ratings narrowed to their byte fields, and the mode, colours, depart flags, train counts, waiting times, operation setting, lift hill speed, circuits, entrance style, drops, drop height and upkeep cost as they are |
| Capture.RelativeDirection | src/openrct2/ride/TrackDesign.cpp:296-298 | the captured direction is below 4 and adds back to the original direction with the saved one, modulo 4 |
| Capture.RelativeHeight | src/openrct2/ride/TrackDesign.cpp:310-311 | a height on a height step relative to an origin on a height step is the number of steps between them |
| Capture.EntranceOffset | src/openrct2/ride/TrackDesign.cpp:303-306 | rotating the captured offset forward by the saved direction and adding the origin gives the entrance's map position |
| Capture.CaptureEntrance | src/openrct2/ride/TrackDesign.cpp:296-324 | an entrance is captured exactly when its relative height lies in -126..127, and then with that height, its relative direction, its rotated-back offset and its kind |
| Capture.EntranceRoundTrip | src/openrct2/ride/TrackDesign.cpp:296-324 | placing a captured entrance at the same origin and rotation puts it on its tile, facing its direction, matched against its station's height in a placement and at that height in a query (placement at lines 1762-1852) |
| Capture.MazeOffset | src/openrct2/ride/TrackDesign.cpp:374-375 | a cell's stored offset times 32 is its distance from the first maze tile whenever that distance is a whole number of tiles that fits a signed byte |
| Capture.CaptureMazeCell | src/openrct2/ride/TrackDesign.cpp:372-376 | a captured cell keeps the wall word and holds its offsets from the first maze tile |
| Capture.CaptureMazeMarker | src/openrct2/ride/TrackDesign.cpp:409-415 | a captured marker is read as a marker, faces the entrance's direction, has type 8 for the entrance and 0x80 for the exit, and holds its offsets from the first maze tile (the exit at 438-444) |
| Capture.MazeCellPlacement | src/openrct2/ride/TrackDesign.cpp:372-376 | placing a captured cell moves it rigidly: to the placement position plus its offset from the first tile turned by the rotation, and back to its own tile when placed unrotated at the first tile (placement at 1411-1413) |
| Capture.Turn | src/openrct2/ride/TrackDesign.cpp:513-517 | a two-bit field turned back by `s` is below 4 and adds back to the original with `s` |
| Capture.CapturePathFlags | src/openrct2/ride/TrackDesign.cpp:494-510 | a captured path keeps bits 4 and 7, has its edge nibble rotated right by the saved direction, and has its slope direction turned back by it |
| Capture.CaptureWallFlags | src/openrct2/ride/TrackDesign.cpp:511-519 | a captured wall keeps its upper six bits and has its direction turned back by the saved direction |
| Capture.CaptureObjectFlags | src/openrct2/ride/TrackDesign.cpp:520-531 | other captured scenery keeps its upper nibble and has its direction and quadrant each turned back by the saved direction |
| Capture.CaptureScenery | src/openrct2/ride/TrackDesign.cpp:490-555 | one capture step rewrites the flags and keeps the object and colours; it succeeds exactly when the rotated-back tile offsets and the relative height all lie in -126..127, stores them when they do, and stops with the position or the height not yet rewritten when they do not |
| Capture.TurnedFieldRoundTrip | src/openrct2/ride/TrackDesign.cpp:513-517 | a field turned back by the saved direction and then placed with that rotation reads as the original field |
| Capture.WallFlagsRoundTrip | src/openrct2/ride/TrackDesign.cpp:511-519 | a captured wall placed with the saved rotation faces its original direction and keeps its upper bits (placement at 1203) |
| Capture.ObjectFlagsRoundTrip | src/openrct2/ride/TrackDesign.cpp:520-531 | a captured object placed with the saved rotation has its original direction and quadrant (placement at 1111-1114) |
| Capture.PathFlagsRoundTrip | src/openrct2/ride/TrackDesign.cpp:494-510 | the path byte placement builds from a captured path, with the saved rotation, is the byte before capture (placement at 1250-1256) |
| Capture.EdgesReadLowNibble | src/openrct2/ride/TrackDesign.cpp:1250-1252 | the left edge rotation depends only on the low nibble |
| Capture.PathByteParts | src/openrct2/ride/TrackDesign.cpp:1250-1256 | a path byte is determined by its edge nibble, bits 4 and 7 and its slope field |
| Capture.SceneryPositionRoundTrip | src/openrct2/ride/TrackDesign.cpp:535-546 | a captured scenery element inside the window, placed at the same tile-aligned origin and rotation, lands on the tile it was captured from (placement at 1376-1380) |
| Capture.SceneryHeightRoundTrip | src/openrct2/ride/TrackDesign.cpp:548-554 | a captured scenery element placed at an origin on a height step gets back its original height |
| Walker.AddClampMoney32 | src/openrct2/ride/TrackDesign.cpp:1332 | `add_clamp_money32` is the exact sum when that fits 32 bits, and otherwise saturates at the nearer end |
| Walker.SceneryCost | src/openrct2/ride/TrackDesign.cpp:1332-1350 | an element's clamped cost is returned, except that an undefined one is a failure in every mode but a real placement |
| Walker.FirstTrackAt | src/openrct2/ride/TrackDesign.cpp:1785-1801 | the search finds the first track element at the given height on the tile, and finds none only when there is none |
| Engine.TrackDesignState.constructor | src/openrct2/ride/TrackDesign.cpp:75-89 | the new state holds the given file statics, selection globals and log, and the given world, piece direction and scenery toggle |
| Engine.TrackDesignState.UpdateMaxMin | src/openrct2/ride/TrackDesign.cpp:983-989 | the bounding box becomes the least box holding the old one and the point, and nothing else changes (`Walker.UpdateMaxMin`, with `Properties.UpdateMaxMinGrows`) |
| Engine.TrackDesignState.AddSelectionTile | src/openrct2/ride/TrackDesign.cpp:974-981 | the search-then-append loop adds the tile to the selection list only when it is absent (`Walker.AddSelectionTile`, with `Properties.AddSelectionTileGrows`) |
| Engine.TrackDesignState.Issue | src/openrct2/ride/TrackDesign.cpp:1286-1288 | a game action is answered by the oracle and appended to the log with its flags, and its result is returned (`Walker.Issue`) |
| Engine.TrackDesignState.IssueByFlags | src/openrct2/ride/TrackDesign.cpp:1286-1287 | an action is executed when its flags apply it and queried otherwise (`Walker.IssueByFlags`) |
| Engine.TrackDesignState.GetEntry | src/openrct2/ride/TrackDesign.cpp:721-777 | the object lookup resolves a scenery element through the object manager, and a failed lookup marks the scenery as unavailable (`Walker.GetEntry`) |
| Engine.TrackDesignState.RemoveGhostScenery | src/openrct2/ride/TrackDesign.cpp:991-1044 | a resolved, available element issues the ghost-removal action of its category, at its height and rotation or its quadrant, and nothing is issued otherwise (`Walker.RemoveGhostScenery`) |
| Engine.TrackDesignState.SceneryPlaceZ | src/openrct2/ride/TrackDesign.cpp:1046-1056 | the scenery height falls to the element's height above the place height when that is lower, and the object is still resolved (`Walker.SceneryPlaceZ`) |
| Engine.TrackDesignState.PlacePath | src/openrct2/ride/TrackDesign.cpp:1237-1330 | a path is placed from the first pass with the rotated path byte, its slope and edges, and its cost, a failure costing 0; in the second pass the path edges are joined up (`Walker.PlacePath`) |
| Engine.TrackDesignState.PlaceSmallScenery | src/openrct2/ride/TrackDesign.cpp:1100-1149 | small scenery is placed only in the first pass, with its rotation, its quadrant and its colours (`Walker.PlaceSmallScenery`) |
| Engine.TrackDesignState.PlaceLargeScenery | src/openrct2/ride/TrackDesign.cpp:1150-1194 | large scenery is placed only in the first pass, with its rotation and colours (`Walker.PlaceLargeScenery`) |
| Engine.TrackDesignState.PlaceWall | src/openrct2/ride/TrackDesign.cpp:1195-1236 | a wall is placed only in the first pass, with its rotation and three colours (`Walker.PlaceWall`) |
| Engine.TrackDesignState.PlaceSceneryObject | src/openrct2/ride/TrackDesign.cpp:1088-1354 | a resolved element is placed by its category, and its clamped cost is returned, or failure in modes other than a real placement (`Walker.PlaceSceneryObject`) |
| Engine.TrackDesignState.PlaceSceneryElement | src/openrct2/ride/TrackDesign.cpp:1058-1354 | one scenery element under the current operation and pass: outlined, ghost-removed, measured for height, or placed (`Walker.PlaceSceneryElement`) |
| Engine.TrackDesignState.SceneryStep | src/openrct2/ride/TrackDesign.cpp:1376-1390 | one inner iteration extends the box by the element's rotated tile position, places it, and stops on failure or an undefined cost, otherwise adding its cost (`Walker.SceneryStep`) |
| Engine.TrackDesignState.PlaceSceneryAt | src/openrct2/ride/TrackDesign.cpp:1376-1390 | the same iteration is one step of the fold over the scenery list (`Walker.SceneryElementsFrom`) |
| Engine.TrackDesignState.SceneryPass | src/openrct2/ride/TrackDesign.cpp:1374-1391 | one pass over the scenery list places every element in order and stops at the first failure (`Walker.SceneryElementsFrom`) |
| Engine.TrackDesignState.PlaceAllScenery | src/openrct2/ride/TrackDesign.cpp:1357-1394 | two passes over the list: each notes that the design has scenery when the list is not empty, and places it only when scenery placement is on; the costs add up (`Walker.PlaceAllScenery`) |
| Engine.TrackDesignState.BeginTrack | src/openrct2/ride/TrackDesign.cpp:1398-1405 | drawing outlines clears the selection and puts the arrow at the origin, facing the piece direction, and the place height restarts at 0 (`Walker.BeginTrack`; same set-up at 1599-1607) |
| Engine.TrackDesignState.PlaceMazeUnit | src/openrct2/ride/TrackDesign.cpp:1425-1541 | an entrance, an exit or a wall cell is queried or placed with the rotated direction or the rolled wall word, and its cost returned, undefined on failure (`Walker.PlaceMazeUnit`) |
| Engine.TrackDesignState.PlaceMazeElement | src/openrct2/ride/TrackDesign.cpp:1408-1582 | one maze iteration extends the box by the rotated cell, records it in the outline, places it or raises the place height over its surface, and stops on an undefined cost (`Walker.PlaceMazeElement`) |
| Engine.TrackDesignState.MazeStep | src/openrct2/ride/TrackDesign.cpp:1408-1582 | the same iteration as one step of the fold over the maze (`Walker.MazeFrom`) |
| Engine.TrackDesignState.PlaceMazeElements | src/openrct2/ride/TrackDesign.cpp:1408-1583 | the maze loop places every element in order and stops at the first failure (`Walker.MazeFrom`) |
| Engine.TrackDesignState.FinishMaze | src/openrct2/ride/TrackDesign.cpp:1584-1593 | removing a ghost maze demolishes the ride, and the preview origin becomes the placement position (`Walker.FinishMaze`) |
| Engine.TrackDesignState.PlaceMaze | src/openrct2/ride/TrackDesign.cpp:1396-1594 | `track_design_place_maze`: the set-up, the maze loop and the end (`Walker.PlaceMaze`) |
| Engine.TrackDesignState.OutlineBlocks | src/openrct2/ride/TrackDesign.cpp:1622-1629 | every block of a piece, rotated, extends the box and joins the selection (`Walker.OutlineBlocks`) |
| Engine.TrackDesignState.ClearBlocks | src/openrct2/ride/TrackDesign.cpp:1702-1739 | every valid block of a piece raises the place height over its surface, and a missing surface fails (`Walker.ClearBlocks`) |
| Engine.TrackDesignState.PlaceTrackPiece | src/openrct2/ride/TrackDesign.cpp:1614-1741 | one piece under the current operation: outlined, ghost-removed, placed with its decoded flags, or cleared, stopping on an undefined cost (`Walker.PlaceTrackPiece`) |
| Engine.TrackDesignState.TrackStep | src/openrct2/ride/TrackDesign.cpp:1614-1758 | one iteration of the track loop places the piece and advances the cursor by its coordinates (`Walker.TrackFrom`) |
| Engine.TrackDesignState.FindTrackAt | src/openrct2/ride/TrackDesign.cpp:1791-1801 | the tile-element walk finds the first track element at the entrance's height, as `Walker.FirstTrackAt` specifies |
| Engine.TrackDesignState.PlaceEntranceAtTrack | src/openrct2/ride/TrackDesign.cpp:1783-1838 | an entrance in front of a track element at its height is placed at that element's station, adds its cost and marks the entrance placed; no tile element fails, a failed action fails (`Walker.PlaceEntranceAtTrack`) |
| Engine.TrackDesignState.QueryEntrance | src/openrct2/ride/TrackDesign.cpp:1840-1851 | a query asks whether an entrance fits at its height above the origin, adds its cost and marks it placed, and fails when it does not fit (`Walker.QueryEntrance`) |
| Engine.TrackDesignState.EntranceByOperation | src/openrct2/ride/TrackDesign.cpp:1771-1853 | an entrance joins the selection when outlining, is queried or placed in the placing modes, and is skipped otherwise (`Walker.EntranceByOperation`) |
| Engine.TrackDesignState.PlaceEntrance | src/openrct2/ride/TrackDesign.cpp:1762-1854 | one iteration of the entrance loop: the entrance's rotated position extends the box, then it is handled by the operation (`Walker.PlaceEntrance`) |
| Engine.TrackDesignState.EntranceStep | src/openrct2/ride/TrackDesign.cpp:1762-1854 | the same iteration as one step of the fold over the entrances (`Walker.EntrancesFrom`) |
| Engine.TrackDesignState.PlaceTrackElements | src/openrct2/ride/TrackDesign.cpp:1611-1759 | the track loop places every piece from the origin in the piece direction and stops at the first failure, returning where the cursor ended (`Walker.TrackFrom`) |
| Engine.TrackDesignState.PlaceEntrances | src/openrct2/ride/TrackDesign.cpp:1762-1855 | the entrance loop handles every entrance in order and stops at the first failure (`Walker.EntrancesFrom`) |
| Engine.TrackDesignState.FinishRide | src/openrct2/ride/TrackDesign.cpp:1857-1861 | removing a ghost ride deletes it (`Walker.FinishRide`) |
| Engine.TrackDesignState.PlaceRide | src/openrct2/ride/TrackDesign.cpp:1597-1863 | `track_design_place_ride`: the origin is saved, then the set-up, the track loop, the entrance loop and the end (`Walker.PlaceRide`) |
| Engine.TrackDesignState.ResetSceneryFlags | src/openrct2/ride/TrackDesign.cpp:1883-1895 | scenery is placed when asked and the scenery toggle is off, and the entrance, unavailable and has-scenery flags are cleared |
| Engine.TrackDesignState.StartPlacement | src/openrct2/ride/TrackDesign.cpp:1882-1901 | the set-up splits off the replay flag, stores the operation and the ride, collapses the box onto the position and zeroes the scenery height (`Walker.StartPlacement`) |
| Engine.TrackDesignState.PlaceTrack | src/openrct2/ride/TrackDesign.cpp:1903-1910 | a maze design is placed cell by cell and any other design piece by piece (`Walker.PlaceTrack`) |
| Engine.TrackDesignState.FinishPlacement | src/openrct2/ride/TrackDesign.cpp:1922-1937 | outlining enables the construct and arrow selection and clears the green one; the place-height mode returns the place height minus the scenery height; otherwise the cost is returned, undefined on failure (`Walker.FinishPlacement`) |
| Engine.TrackDesignState.CompletePlacement | src/openrct2/ride/TrackDesign.cpp:1912-1937 | after the track, the scenery is placed from the preview origin when the track succeeded; a scenery failure returns the undefined cost at once (`Walker.CompletePlacement`) |
| Engine.TrackDesignState.PlaceVirtualTrack | src/openrct2/ride/TrackDesign.cpp:1880-1938 | `place_virtual_track`: set-up, track, scenery and result, as `Walker.PlaceVirtualTrack` says; what that means is proved in `Results` and `Costs` |
| Properties.GrowsRefl | src/openrct2/ride/TrackDesign.cpp:974-989 | a state `Grows` into itself. `Grows(a, b)` says that the operation, replay flag, ride, scenery switch and preview origin are kept; the box only grows; the selection and the log are only appended to, the log not at all in the outline and place-height modes; no duplicate tile appears; the place height only rises; and the scenery height only falls |
| Properties.GrowsTrans | src/openrct2/ride/TrackDesign.cpp:974-989 | `Grows` composes, so a whole loop grows when each step does |
| Properties.UpdateMaxMinGrows | src/openrct2/ride/TrackDesign.cpp:983-989 | updating the box grows the state, and the box then holds the point |
| Properties.AddSelectionTileGrows | src/openrct2/ride/TrackDesign.cpp:974-981 | adding a selection tile grows the state, and the tile is then selected |
| Properties.IssueGrows | src/openrct2/ride/TrackDesign.cpp:1286-1288 | issuing an action in a placing mode appends exactly that action to the log and changes nothing else |
| Properties.GetEntryGrows | src/openrct2/ride/TrackDesign.cpp:721-777 | resolving a scenery object grows the state |
| Properties.RemoveGhostGrows | src/openrct2/ride/TrackDesign.cpp:991-1044 | removing a ghost element grows the state |
| Properties.SceneryPlaceZGrows | src/openrct2/ride/TrackDesign.cpp:1046-1056 | measuring a scenery element's height grows the state, so the scenery height only falls |
| Properties.IssueByFlagsGrows | src/openrct2/ride/TrackDesign.cpp:1286-1287 | issuing by flags in a placing mode grows the state |
| Properties.PlacePathFirstPass | src/openrct2/ride/TrackDesign.cpp:1243-1290 | the first pass over a path issues exactly one footpath action, built from the rotated path byte at the element's height, with the standard flags |
| Properties.PlacePathSecondPass | src/openrct2/ride/TrackDesign.cpp:1292-1328 | the second pass reconnects the path's edges when a path is at its tile and height, except in a query, and otherwise changes nothing |
| Properties.PlacePathGrows | src/openrct2/ride/TrackDesign.cpp:1237-1330 | placing a path in a placing mode grows the state |
| Properties.SmallSceneryGrows | src/openrct2/ride/TrackDesign.cpp:1100-1149 | placing small scenery grows the state |
| Properties.LargeSceneryGrows | src/openrct2/ride/TrackDesign.cpp:1150-1194 | placing large scenery grows the state |
| Properties.WallGrows | src/openrct2/ride/TrackDesign.cpp:1195-1236 | placing a wall grows the state |
| Properties.PlaceSceneryObjectGrows | src/openrct2/ride/TrackDesign.cpp:1088-1354 | placing any resolved scenery object grows the state |
| Properties.PlaceObjectGrows | src/openrct2/ride/TrackDesign.cpp:1098-1236 | placing a resolved object that is not a path grows the state |
| Properties.SceneryElementGrows | src/openrct2/ride/TrackDesign.cpp:1058-1354 | handling one scenery element grows the state in every mode |
| Properties.MazeUnitGrows | src/openrct2/ride/TrackDesign.cpp:1425-1541 | placing one maze entrance, exit or cell grows the state |
| Properties.MazeElementGrows | src/openrct2/ride/TrackDesign.cpp:1408-1582 | one iteration of the maze loop grows the state |
| Properties.OutlineBlocksGrows | src/openrct2/ride/TrackDesign.cpp:1622-1629 | outlining a piece's blocks grows the state |
| Properties.ClearBlocksGrows | src/openrct2/ride/TrackDesign.cpp:1702-1739 | clearing a piece's blocks grows the state and changes nothing but the place height |
| Properties.TrackPieceGrows | src/openrct2/ride/TrackDesign.cpp:1614-1741 | one track piece grows the state in every mode |
| Properties.EntranceAtTrackGrows | src/openrct2/ride/TrackDesign.cpp:1783-1838 | placing an entrance at a track element grows the state |
| Properties.QueryEntranceGrows | src/openrct2/ride/TrackDesign.cpp:1840-1851 | querying an entrance grows the state |
| Properties.EntranceGrows | src/openrct2/ride/TrackDesign.cpp:1762-1854 | one iteration of the entrance loop grows the state |
| Properties.EntranceByOperationGrows | src/openrct2/ride/TrackDesign.cpp:1771-1853 | an entrance handled under any operation grows the state |
| Properties.SceneryStepGrows | src/openrct2/ride/TrackDesign.cpp:1376-1390 | one iteration of the scenery loop grows the state |
| Properties.SceneryElementsGrow | src/openrct2/ride/TrackDesign.cpp:1374-1391 | a pass over the scenery list grows the state |
| Properties.SceneryModesGrow | src/openrct2/ride/TrackDesign.cpp:1362-1392 | both passes over the scenery list grow the state |
| Properties.MazeFromGrows | src/openrct2/ride/TrackDesign.cpp:1408-1583 | the maze loop grows the state |
| Properties.TrackFromGrows | src/openrct2/ride/TrackDesign.cpp:1611-1759 | the track loop grows the state |
| Properties.EntrancesFromGrow | src/openrct2/ride/TrackDesign.cpp:1762-1855 | the entrance loop grows the state |
| Clearance.MazeCellStep | src/openrct2/ride/TrackDesign.cpp:1556-1581 | in the place-height mode one maze element continues with the same total and log, and raises the place height just enough that its cell clears the surface, or not at all |
| Clearance.MazeClearance | src/openrct2/ride/TrackDesign.cpp:1408-1583 | in the place-height mode the maze loop never fails and issues nothing, and the height it ends at clears every cell and is the start height or one at which some cell sits exactly on its surface |
| Clearance.MazeHeightLeast | src/openrct2/ride/TrackDesign.cpp:1556-1581 | no height at or above the start that clears every maze cell is lower than the one the loop finds |
| Clearance.BlocksClearance | src/openrct2/ride/TrackDesign.cpp:1702-1739 | the block loop issues nothing and succeeds exactly when every block on a valid tile has a surface; then every block clears at the height it ends at, which is the start height or tight for some block |
| Clearance.TrackPieceStep | src/openrct2/ride/TrackDesign.cpp:1700-1741 | in the place-height mode one piece continues exactly when its blocks have surfaces, with the same total and log, and its height clears the piece and is the old height or tight for the piece |
| Clearance.TrackClearance | src/openrct2/ride/TrackDesign.cpp:1611-1759 | in the place-height mode the track loop issues nothing, succeeds exactly when every piece's blocks have surfaces, and then ends at a height that clears every block of every piece and is the start height or tight for some block |
| Clearance.TrackHeightLeast | src/openrct2/ride/TrackDesign.cpp:1702-1739 | no height at or above the start that clears every block of every piece is lower than the one the track loop finds |
| Costs.CostPrefix | src/openrct2/ride/TrackDesign.cpp:1693 | entries already in the log keep their answers and costs as the log grows |
| Costs.CostSplit | src/openrct2/ride/TrackDesign.cpp:1693 | the cost of a stretch of the log is the sum of the costs of its two halves |
| Costs.ChargedRefl | src/openrct2/ride/TrackDesign.cpp:1693 | issuing nothing charges nothing. `Charged(before, after, t0, t1)` says that the log grew from `before` to `after`, every new action succeeded, and the total grew from `t0` to `t1` by their summed cost |
| Costs.ChargedTrans | src/openrct2/ride/TrackDesign.cpp:1693 | two charged stretches make one charged stretch |
| Costs.FailedAfter | src/openrct2/ride/TrackDesign.cpp:1694-1697 | a charged stretch followed by a failing stretch fails. `Failed(before, after)` says that the log grew, every new action but the last succeeded, and the last had no cost |
| Costs.IssueOne | src/openrct2/ride/TrackDesign.cpp:1689-1691 | issuing appends one entry, and the answer returned is the oracle's recorded answer to it |
| Costs.OneEntry | src/openrct2/ride/TrackDesign.cpp:1691-1697 | one new entry that succeeded charges its cost, and one with no cost fails |
| Costs.MazeMarkerCost | src/openrct2/ride/TrackDesign.cpp:1425-1506 | a maze entrance or exit marker issues exactly one action, queried in a query and placed otherwise, and costs its answer, undefined on failure |
| Costs.MazeUnitCost | src/openrct2/ride/TrackDesign.cpp:1425-1541 | any maze element issues exactly one action and costs its answer, undefined on failure |
| Costs.MazeStepCost | src/openrct2/ride/TrackDesign.cpp:1536-1541 | one maze element in a placing mode either charges its action's cost or fails |
| Costs.MazeCost | src/openrct2/ride/TrackDesign.cpp:1408-1583 | in a placing mode the maze loop either charges exactly the cost of every action it issued, all succeeding, or issues actions up to the first failure and stops |
| Costs.PlaceMazeCost | src/openrct2/ride/TrackDesign.cpp:1396-1594 | a maze placed successfully costs the sum of its actions, and a failed one stops at the first action without a cost |
| Costs.TrackStepCost | src/openrct2/ride/TrackDesign.cpp:1642-1699 | one track piece in a placing mode either charges its action's cost or fails |
| Costs.TrackCost | src/openrct2/ride/TrackDesign.cpp:1611-1759 | in a placing mode the track loop either charges exactly the cost of every action it issued, all succeeding, or stops at the first failure |
| Costs.EntranceAtTrackCost | src/openrct2/ride/TrackDesign.cpp:1783-1838 | an entrance placed at a track element only appends to the log, and when it continues it has charged its action's cost |
| Costs.QueryEntranceCost | src/openrct2/ride/TrackDesign.cpp:1840-1851 | a queried entrance only appends to the log, and when it continues it has charged its query's cost |
| Costs.EntranceStepCost | src/openrct2/ride/TrackDesign.cpp:1762-1854 | one entrance in a placing mode that continues has charged its cost |
| Costs.EntrancesCost | src/openrct2/ride/TrackDesign.cpp:1762-1855 | an entrance loop that succeeds has charged exactly the cost of every action it issued |
| Costs.PlaceRideCost | src/openrct2/ride/TrackDesign.cpp:1597-1863 | a ride placed successfully costs exactly the sum of its track and entrance actions, all of which succeeded |
| Costs.PlaceTrackCost | src/openrct2/ride/TrackDesign.cpp:1903-1910 | the track half of a successful placement costs exactly its actions, for a maze and for a ride |
| Costs.SceneryCostPrefix | src/openrct2/ride/TrackDesign.cpp:1376-1390 | entries already in the log keep their scenery charge as the log grows |
| Costs.SceneryCostSplit | src/openrct2/ride/TrackDesign.cpp:1376-1390 | the scenery charge of a stretch of the log is the sum over its two halves |
| Costs.SceneryChargedTrans | src/openrct2/ride/TrackDesign.cpp:1376-1390 | two stretches of scenery charges make one, where `SceneryCharged(w, before, after, t0, t1)` means the log grew and `t1` is `t0` plus the clamped cost the scenery pass takes from every new entry: a small scenery object or a footpath its cost when it succeeded and 0 when it failed, a large scenery object or a wall its reported cost, a reconnected path nothing |
| Costs.IssueSceneryOne | src/openrct2/ride/TrackDesign.cpp:1140-1146 | one issued scenery action charges exactly what the element reads from its answer, clamped |
| Costs.SmallSceneryCost | src/openrct2/ride/TrackDesign.cpp:1100-1149 | a small scenery object issues exactly one action, and a success returns what it charges, 0 for a failed action |
| Costs.LargeSceneryCost | src/openrct2/ride/TrackDesign.cpp:1150-1194 | a large scenery object issues exactly one action, and a success returns its reported cost, clamped |
| Costs.WallCost | src/openrct2/ride/TrackDesign.cpp:1195-1236 | a wall issues exactly one action, and a success returns its reported cost, clamped |
| Costs.PathCost | src/openrct2/ride/TrackDesign.cpp:1237-1330 | a footpath issues at most one action, and a success returns what it charges: the placement's cost or 0 in the first pass, nothing for the second pass's reconnection |
| Costs.SceneryObjectCost | src/openrct2/ride/TrackDesign.cpp:1088-1354 | a resolved object of any kind issues at most one action, and a success returns what it charges |
| Costs.SceneryElementCost | src/openrct2/ride/TrackDesign.cpp:1058-1354 | in a placing mode one scenery element keeps the operation, issues at most one action, and a success returns what that action charges |
| Costs.SceneryStepCost | src/openrct2/ride/TrackDesign.cpp:1376-1390 | an element the loop goes on after has added to the running total exactly what its action charges |
| Costs.SceneryElementsCost | src/openrct2/ride/TrackDesign.cpp:1374-1391 | a scenery pass that succeeds in a placing mode has added to the running total exactly the charges of the actions it issued |
| Costs.SceneryModesCost | src/openrct2/ride/TrackDesign.cpp:1361-1392 | both passes together add exactly the charges of the actions they issued |
| Costs.PlaceAllSceneryCost | src/openrct2/ride/TrackDesign.cpp:1357-1394 | `track_design_place_all_scenery` in a placing mode returns, on success, exactly the sum of the clamped charges of the actions it issued |
| Results.PhaseOfGrows | src/openrct2/ride/TrackDesign.cpp:1880-1938 | a state that `Grows` also keeps to `Phase`. `Phase(a, b)` says that the operation, replay flag, scenery switch and ride are kept, the box only grows, the log is only appended to and not at all in a passive mode, and the scenery height only falls |
| Results.PhaseTrans | src/openrct2/ride/TrackDesign.cpp:1880-1938 | phases compose |
| Results.BeginTrackResets | src/openrct2/ride/TrackDesign.cpp:1398-1405 | the shared start resets the place height to 0, empties the selection when drawing outlines and keeps it otherwise, keeps the preview origin, and otherwise grows the state (same at 1599-1607) |
| Results.FinishMazePhase | src/openrct2/ride/TrackDesign.cpp:1584-1593 | the end of the maze keeps the phase, the selection and the place height |
| Results.FinishRideGrows | src/openrct2/ride/TrackDesign.cpp:1857-1861 | the end of the ride grows the state |
| Results.MazePhase | src/openrct2/ride/TrackDesign.cpp:1396-1594 | placing a maze keeps the phase, ends at a non-negative place height, and leaves a selection without duplicates when drawing outlines |
| Results.RidePhase | src/openrct2/ride/TrackDesign.cpp:1597-1863 | placing a ride keeps the phase, ends at a non-negative place height, and leaves a selection without duplicates when drawing outlines |
| Results.TrackPhase | src/openrct2/ride/TrackDesign.cpp:1903-1910 | the track half of a placement, maze or ride, keeps the phase, ends at a non-negative place height, and leaves a selection without duplicates when drawing outlines |
| Results.SceneryStepPassive | src/openrct2/ride/TrackDesign.cpp:1058-1069 | in the outline and place-height modes a scenery element never fails and costs nothing |
| Results.SceneryPassiveSucceeds | src/openrct2/ride/TrackDesign.cpp:1374-1391 | in the passive modes a scenery pass succeeds with its starting cost |
| Results.SceneryModesPassiveSucceed | src/openrct2/ride/TrackDesign.cpp:1362-1392 | in the passive modes both scenery passes succeed with the starting cost |
| Results.SceneryPhase | src/openrct2/ride/TrackDesign.cpp:1357-1394 | placing the scenery keeps the phase, never lowers the place height, never adds a duplicate tile, and in the passive modes succeeds with cost 0 |
| Results.CompletePhase | src/openrct2/ride/TrackDesign.cpp:1912-1937 | the rest of the placement keeps the phase, never lowers the place height and never adds a duplicate tile |
| Results.PlaceVirtualTrackPhase | src/openrct2/ride/TrackDesign.cpp:1880-1938 | in every operation the box ends holding the placement position, the log is only appended to, the operation and ride are recorded, and the outline and place-height modes issue no action |
| Results.PlaceVirtualTrackOutlines | src/openrct2/ride/TrackDesign.cpp:1922-1928 | drawing outlines leaves a selection without duplicate tiles, sets the construct and arrow flags, clears the green flag and issues no action |
| Results.PlaceVirtualTrackHeight | src/openrct2/ride/TrackDesign.cpp:1930-1935 | the place-height mode reports the place height less the lowest scenery height, which is never negative, and issues no action |
| Results.CompleteCost | src/openrct2/ride/TrackDesign.cpp:1912-1937 | a failed track reports the undefined cost, and a defined report is the track's cost plus what the scenery passes cost |
| Results.PlaceVirtualTrackCost | src/openrct2/ride/TrackDesign.cpp:1880-1938 | outside the place-height mode a failed track makes `place_virtual_track` report the undefined cost, and a defined report is the track's cost plus the scenery's |
| Results.PlaceVirtualTrackCharged | src/openrct2/ride/TrackDesign.cpp:1903-1910 | in a placing mode the cost of a successful track is the sum of the costs of the actions it issued, all of which succeeded |
| Results.PlaceMazeHeight | src/openrct2/ride/TrackDesign.cpp:1396-1594 | in the place-height mode a maze placement succeeds, costs nothing, and ends at the least non-negative height at which every cell clears its surface |
| Results.EntrancesPassive | src/openrct2/ride/TrackDesign.cpp:1762-1855 | in the place-height mode the entrance loop never fails and changes neither the height nor the log |
| Results.PlaceRideHeight | src/openrct2/ride/TrackDesign.cpp:1597-1863 | in the place-height mode a ride placement succeeds exactly when every track block on a valid tile has a surface, and then ends at the least non-negative height at which every block clears its surface |
| Layout.FirstMatch | src/openrct2/ride/TrackDesign.cpp:280-292 | the search over a tile's elements finds the first wanted element at or after `k`, and finds none only when there is none |
| Layout.PieceRecord | src/openrct2/ride/TrackDesign.cpp:209-232 | a piece's record keeps its track type (what its flags decode to is `PieceRecordRoundTrip`) |
| Layout.PieceRecordRoundTrip | src/openrct2/ride/TrackDesign.cpp:209-232 | placement reads back from a piece record the colour scheme, an even brake speed below 32 or a seat rotation below 16, the chain lift, and the inverted state when the ride has an alternative track type (decoding at 1651-1663) |
| Layout.TrackWalkBound | src/openrct2/ride/TrackDesign.cpp:207-256 | the walk appends the pieces it passes, the first being the piece it starts on, records at most `TD6MaxTrackElements + 1` of them, and fails only with exactly that many recorded |
| Layout.Slots | src/openrct2/ride/TrackDesign.cpp:258-262 | the two entrance loops look at eight slots: the entrances of stations 0-3, then their exits |
| Layout.EntrancesCaptured | src/openrct2/ride/TrackDesign.cpp:258-327 | the entrance loops append at most one record per remaining slot, every one with its height in -126..127, and only exits once past the entrances |
| Layout.EntrancesBeforeExits | src/openrct2/ride/TrackDesign.cpp:258-327 | among the records the entrance loops append, every entrance comes before every exit |
| Layout.EntrancesFail | src/openrct2/ride/TrackDesign.cpp:310-316 | the entrance loops fail exactly when some remaining slot's relative height leaves the window |
| Layout.FirstRideTile | src/openrct2/ride/TrackDesign.cpp:460-482 | the raster scan from a tile on finds the first tile in row order holding a track element of the ride, and that element, and finds none only when no later tile holds one |
| Layout.TileCellsBound | src/openrct2/ride/TrackDesign.cpp:362-381 | a tile's cells are appended, each captured relative to the first tile; the tile fails exactly when the list reaches 2000 elements, and never goes past that |
| Layout.MazeScanBound | src/openrct2/ride/TrackDesign.cpp:356-384 | the maze scan only appends, fails exactly when the list reaches 2000 elements, and never goes past that |
| Layout.MazeMarkerOf | src/openrct2/ride/TrackDesign.cpp:386-444 | a maze marker found is read as a marker, of the entrance type 8 or the exit type 0x80 as asked |
| Layout.RideLayout | src/openrct2/ride/TrackDesign.cpp:159-168 | a maze capture leaves the track pieces and entrances alone, and any other capture leaves the maze cells alone |
| Layout.TrackLayoutShape | src/openrct2/ride/TrackDesign.cpp:171-327 | a ride without a track origin is refused before anything is written; a track capture that succeeds has found its origin, appended between one and `TD6MaxTrackElements + 1` pieces starting with the start piece, and then at most eight entrance records, all in the height window, entrances before exits |
| Layout.MazeLayoutShape | src/openrct2/ride/TrackDesign.cpp:343-444 | a maze with no track tile on the map is refused; a maze captured into an empty list that succeeds ends with its entrance marker, then its exit marker, after fewer than 2000 cells |
| Layout.SceneryCaptured | src/openrct2/ride/TrackDesign.cpp:486-556 | the scenery capture keeps the list's length and the elements already done; it succeeds exactly when every remaining element fits the window, and then each of them is its captured form |
| Layout.MirrorScenerySeq | src/openrct2/ride/TrackDesign.cpp:790-902 | every scenery element is mirrored by the object it resolves to, and the length is kept |
| Layout.MirrorRecord | src/openrct2/ride/TrackDesign.cpp:961-971 | mirroring keeps the ride type, leaves the track and entrances of a maze alone, and leaves the maze cells of any other ride alone |
| Layout.MirrorRecordInvolution | src/openrct2/ride/TrackDesign.cpp:961-971 | a design mirrored twice is restored when the mirror pieces pair up, no maze wall cell mirrors into a marker, and every large scenery object's least and greatest tile y offsets sum to a multiple of 32 (otherwise the two moves of lines 826-843 do not cancel) |
| Design.Outline | src/openrct2/ride/TrackDesign.cpp:329-340 | the end of a successful capture draws outlines for the preview ride without issuing any action, resets the preview origin to the design's origin, clears the selection flags, leaves a box holding the preview position, and measures the design in tiles along x and y (the maze at 444-456) |
| Design.FindFirst | src/openrct2/ride/TrackDesign.cpp:280-292 | the loop over a tile's elements finds what `FirstMatch` specifies |
| Design.MazeGetFirstElement | src/openrct2/ride/TrackDesign.cpp:460-482 | the nested raster loop finds what `FirstRideTile` specifies from tile (0, 0) |
| Design.TileYBounds | src/openrct2/ride/TrackDesign.cpp:805-823 | the footprint loop finds the least and the greatest tile y offset, each starting from 0 |
| Design.MinTileYAttained | src/openrct2/ride/TrackDesign.cpp:805-823 | the least y offset is 0 or one of the tiles' offsets |
| Design.MaxTileYAttained | src/openrct2/ride/TrackDesign.cpp:805-823 | the greatest y offset is 0 or one of the tiles' offsets |
| Design.MirrorLargeSceneryElement | src/openrct2/ride/TrackDesign.cpp:802-843 | the large-scenery case computes the footprint's extent and then the move by direction, as `MirrorLargeScenery` specifies |
| Design.MirrorSceneryElement | src/openrct2/ride/TrackDesign.cpp:796-900 | the body of the scenery mirror loop does to one element what `MirrorScenery` specifies |
| Design.TrackDesign.constructor | src/openrct2/ride/TrackDesign.cpp:93-95 | a new design is empty: no elements, no vehicle object, no statistics, zero flags and space |
| Design.TrackDesign.WalkTrack | src/openrct2/ride/TrackDesign.cpp:207-256 | the do/while walk appends to the piece list what `TrackWalk` specifies, so `TrackWalkBound` applies |
| Design.TrackDesign.StationEntranceOf | src/openrct2/ride/TrackDesign.cpp:262-324 | one station's entrance or exit is found and captured as `StationEntrance` specifies |
| Design.TrackDesign.CaptureEntrances | src/openrct2/ride/TrackDesign.cpp:258-327 | the two nested entrance loops append to the entrance list what `EntrancesFrom` specifies over the eight slots |
| Design.TrackDesign.CaptureTrackLayout | src/openrct2/ride/TrackDesign.cpp:171-327 | the track capture updates the pieces, entrances and saved direction as `TrackLayout` specifies, and moves the preview origin to the start position when it finds one |
| Design.TrackDesign.CaptureTileCells | src/openrct2/ride/TrackDesign.cpp:362-381 | the loop over one tile's elements appends the ride's cells and updates the saved direction as `TileCells` specifies |
| Design.TrackDesign.ScanMaze | src/openrct2/ride/TrackDesign.cpp:356-384 | the raster scan from the first tile of the ride does what `MazeScan` specifies |
| Design.TrackDesign.FindMazeMarker | src/openrct2/ride/TrackDesign.cpp:386-444 | the entrance or exit search finds the marker `MazeMarkerOf` specifies |
| Design.TrackDesign.CaptureMazeLayout | src/openrct2/ride/TrackDesign.cpp:343-444 | the maze capture updates the cells and saved direction as `MazeLayout` specifies, and moves the preview origin to the first tile when there is one |
| Design.TrackDesign.CaptureMazeCells | src/openrct2/ride/TrackDesign.cpp:356-444 | from the first tile on, the scan and then the markers, as `MazeCells` specifies |
| Design.TrackDesign.CaptureMazeMarkers | src/openrct2/ride/TrackDesign.cpp:386-444 | the entrance marker and then the exit marker are appended, and a missing one ends the capture with an error |
| Design.TrackDesign.FinishCapture | src/openrct2/ride/TrackDesign.cpp:329-340 | on success the outline is drawn and the required space measured as `Outline` specifies; on failure neither the engine nor the space changes (the maze at 444-456) |
| Design.TrackDesign.DrawOutline | src/openrct2/ride/TrackDesign.cpp:329-336 | the outline placement and the resets leave the engine as `Outline` specifies |
| Design.TrackDesign.CreateTrackDesignTrack | src/openrct2/ride/TrackDesign.cpp:171-341 | `CreateTrackDesignTrack` leaves the design and the engine as `TrackLayout` and then `Outline` specify, and leaves the space unchanged on failure |
| Design.TrackDesign.CreateTrackDesignMaze | src/openrct2/ride/TrackDesign.cpp:343-457 | `CreateTrackDesignMaze` leaves the design and the engine as `MazeLayout` and then `Outline` specify, and leaves the space unchanged on failure |
| Design.TrackDesign.CreateTrackDesign | src/openrct2/ride/TrackDesign.cpp:93-169 | the ride type is always recorded; a JSON-only vehicle object is refused and nothing else changes; otherwise the vehicle object and statistics are recorded, both flag words are cleared, and the layout is captured as `RideLayout` says |
| Design.TrackDesign.RecordAttributes | src/openrct2/ride/TrackDesign.cpp:97-162 | a legacy vehicle object is recorded, no object leaves the field alone, the statistics are `CaptureStatistics` of the ride's, and both flag words are cleared |
| Design.TrackDesign.CaptureRide | src/openrct2/ride/TrackDesign.cpp:164-168 | a maze is captured cell by cell and any other ride piece by piece, with the outcome `RideLayout` specifies |
| Design.TrackDesign.CreateTrackDesignScenery | src/openrct2/ride/TrackDesign.cpp:486-556 | the saved scenery list is taken over and rewritten in place as `SceneryFrom` specifies; the result is success or the too-large error |
| Design.TrackDesign.MirrorMaze | src/openrct2/ride/TrackDesign.cpp:931-953 | the maze cells become their mirror images, element by element and in place |
| Design.TrackDesign.MirrorRide | src/openrct2/ride/TrackDesign.cpp:904-920 | every piece and then every entrance becomes its mirror image, in place |
| Design.TrackDesign.MirrorSceneryElements | src/openrct2/ride/TrackDesign.cpp:790-902 | every scenery element becomes its mirror image by the object it resolves to, in place; one whose object does not resolve is kept |
| Design.TrackDesign.Mirror | src/openrct2/ride/TrackDesign.cpp:961-971 | the record is rewritten to `MirrorRecord` of itself, which `MirrorRecordInvolution` undoes, and the saved direction is kept |

## Left out

- `TrackDesign.h` and the other headers are not part of this model. Their constants are taken as: `TD6_TRACK_ELEMENT_FLAG_CHAIN_LIFT` 0x80, `TD6_TRACK_ELEMENT_FLAG_INVERTED` 0x40, `TD6MaxTrackElements` 8192, four stations per ride, a map of 256 by 256 tiles, `LAND_HEIGHT_STEP` 16, the slope bits 0x0F and 0x10, `MONEY32_UNDEFINED` -2^31, and the maze element types 8 and 0x80. The record's G-force fields are taken as `int8_t`, `int8_t` and `uint8_t` (positive, negative, lateral), and its three ratings as `uint8_t`.
- The tile-element walks use `tileElement++` with no end guard (see the comments at lines 294, 407 and 436). The map is a sequence of elements per tile, and running off the end of a tile is not reproduced.
- Integer widths are written out in two places only: the stores into the design record's `int16_t`, `int8_t` and `uint8_t` fields that convert a value (`Common.Int16`, `Common.Int8`, `Common.Uint8`), and the clamped money add (`Walker.AddClampMoney32`). The fields copied from a ride field of the same kind keep their value, so none of them is narrowed. The `totalCost +=` and `cost +=` sums are unbounded integers, so a 32-bit overflow of a total is not modelled.
- The place heights are unbounded integers. The source keeps `_trackDesignPlaceZ` and `_trackDesignPlaceSceneryZ` in `int16_t` (lines 81-82), and so are the temporaries `temp_z` (1577) and `tempZ` (1650). A height beyond -32768..32767 would wrap there and not in the model. Map heights stay far inside that range, so the wrap is not modelled. The place-height results rest on these unbounded heights: `Clearance.MazeClearance`, `Clearance.MazeHeightLeast`, `Clearance.TrackClearance`, `Clearance.TrackHeightLeast`, `Results.PlaceMazeHeight`, `Results.PlaceRideHeight` and `Results.PlaceVirtualTrackHeight`. The `Walker` functions behind them are `SceneryPlaceZ`, `PlaceMazeElement`, `ClearBlocks` and `TrackPlacement`.
- Placement.Raise: computes the raised place height in unbounded `int`. The `int16_t` wrap of `temp_z` and of the store into `_trackDesignPlaceZ` (lines 1577-1580 and 1733-1737) is not modelled.
- Engine.TrackDesignState.SceneryPlaceZ: stores the lowest scenery height in an unbounded field. The store into the `int16_t` `_trackDesignPlaceSceneryZ` (line 1051) does not wrap in the model.
- Engine.TrackDesignState.PlaceMazeElement: keeps `temp_z` and `_trackDesignPlaceZ` (lines 1577-1580) without the `int16_t` wrap.
- Engine.TrackDesignState.ClearBlocks: raises `_trackDesignPlaceZ` (line 1737) without the `int16_t` wrap.
- Engine.TrackDesignState.PlaceTrackPiece: keeps `tempZ` (line 1650) and the place height it raises without the `int16_t` wrap.
- The game actions have no model of their own. An oracle over the action log stands for `GameActions::ExecuteNested` and `QueryNested`. `footpath_connect_edges`, `ride_action_modify`, `ride->Delete` and `ride->ValidateStations` are actions in that log.
- The object manager, `TrackDesignPlaceSceneryElementGetEntry`, the `TrackDesignGetDefault*Index` functions, `GetTrackElementDescriptor`, `MirrorElement` and `CoordsDirectionDelta` are given functions of the world value.
- The rest of `track_design_draw_preview` is left out: the viewport painting, the drawing engine, and `StashMap`, `UnstashMap` and `track_design_preview_clear_map`. So are `track_design_place_preview` and `track_design_ride_create_command`. Only the zoom selection is modelled.
- `track_design_open`, `Serialise` and `track_design_load_scenery_objects`: file and stream I/O, and loading objects.
- `src/window_footpath.c`: legacy UI window code with no self-contained logic.
- Design.TrackDesign.MirrorSceneryElements: its object lookup goes through `TrackDesignPlaceSceneryElementGetEntry`, which also sets `_trackDesignPlaceStateSceneryUnavailable` when an object is missing (lines 765 and 779). The model leaves that flag alone. No reader can see the difference: `place_virtual_track` resets the flag (line 1885) before either place that reads it (lines 1000 and 2032).
- `_trackSavedTileElementsDesc`, the scenery list the selection tool saved, is a parameter of `CreateTrackDesignScenery`.
- The ride's preview ride (`GetOrAllocateRide(PreviewRideId)` and the ride index attached to the outline) is a `previewRideId` parameter.
- Capture.CaptureStatistics: the ride length (`ride_get_total_length / 65536`) is kept as an unbounded integer and not narrowed to its record field; only its bound by the ride's length is stated. The plain copies (mode, colours, depart flags, train counts, waiting times, operation setting, lift hill speed, circuits, entrance style, drops, drop height, upkeep cost) are stated as copies, on the assumption that each record field is as wide as the ride field it copies.
- Design.TrackDesign.CreateTrackDesign: requires `totalAirTime` below 0x10000, so that it fits the record's `uint16_t` field, instead of modelling that truncation.
- The store `inversions = ride.holes & 0x1F` at line 142 is overwritten on the next line and has no effect, so it is not modelled.
- The x extent (`x1`, `x2`) computed in the large-scenery mirror at lines 805-823 is never read, so only the y extent is modelled.
- The maze capture's nested loops step over coordinates 32 units apart. The model steps over tile indices 0..255 instead. Each tile index times 32 is the coordinate the source visits.
- Layout.TrackWalkBound: the `TD6MaxTrackElements` cap is checked only when the walk would go on (lines 252-255). So a track that ends right after piece `TD6MaxTrackElements + 1` is captured without the error, and this is modelled as written.
- Mirror.MirrorMazeInvolution and Layout.MirrorRecordInvolution hold only when no wall cell mirrors into a word that reads as an entrance or exit marker. The source then treats the mirrored cell as a marker, and a second mirror does not restore it.
- Costs.EntrancesCost: states only what a success charges. The entrance loop can fail without issuing any action, so the failure shape of `Costs.Failed` does not hold for it.
- Concurrency, network play and the game's global state beyond the fields of `TrackDesignState` are left out.

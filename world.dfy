/**
 * Everything the engine consults or changes outside the design record,
 * as abstract values: the game actions it issues (recorded in a log) and
 * the oracle answering them, the map views that depend on what has been
 * issued so far, the object manager's scenery resolution, the constant
 * track-piece descriptor table, and the built ride that capture reads.
 */
module World {
  import opened Common
  import opened Geometry
  import opened Bits
  import opened Records

  // ---------------------------------------------------------------------
  // Game actions

  /** `GAME_COMMAND_FLAG_*` bits the engine sets. */
  datatype CommandFlag = Apply | Replay | AllowDuringPaused | NoSpend | Ghost | PathScenery

  type CommandFlags = set<CommandFlag>

  /** The game actions (and direct world calls) the engine issues. */
  datatype GameAction =
    | SmallSceneryPlace(loc: XYZ, direction: nat, quadrant: nat, index: nat, primary: nat, secondary: nat)
    | LargeSceneryPlace(loc: XYZ, direction: nat, index: nat, primary: nat, secondary: nat)
    | WallPlace(index: nat, loc: XYZ, edge: nat, primary: nat, secondary: nat, tertiary: nat)
    | FootpathPlaceFromTrack(loc: XYZ, slope: bv8, index: nat, railingIndex: nat, edges: bv8, isQueue: bool, isLegacyPath: bool)
      /** `footpath_remove_edges_at` + `footpath_connect_edges` on an existing path element. */
    | FootpathReconnect(at: XY, z: int)
    | SmallSceneryRemove(loc: XYZ, quadrant: nat, index: nat)
    | LargeSceneryRemove(loc: XYZ, direction: nat)
    | WallRemove(loc: XYZ, direction: nat)
    | FootpathRemove(loc: XYZ)
    | TrackPlace(rideIndex: nat, trackType: nat, loc: XYZ, direction: nat, brakeSpeed: nat,
                 colour: nat, seatRotation: nat, liftHillAndAlternative: nat)
    | TrackRemove(trackType: nat, sequence: nat, loc: XYZ, direction: nat)
    | MazePlaceTrack(loc: XYZ, rideIndex: nat, mazeEntry: Word16)
    | RideEntranceExitPlace(position: XY, direction: nat, rideIndex: nat, station: nat, isExit: bool)
      /** `RideEntranceExitPlaceAction::TrackPlaceQuery`. */
    | EntranceExitPlaceQuery(loc: XYZ, isExit: bool)
      /** `ride_action_modify(ride, RIDE_MODIFY_DEMOLISH, …)`. */
    | RideDemolish(rideIndex: nat)
      /** `ride->ValidateStations(); ride->Delete();` */
    | RideDelete(rideIndex: nat)

  /** One issued action: its flags and whether it was executed or only queried. */
  datatype Issued = Issued(action: GameAction, flags: CommandFlags, execute: bool)

  /** The part of a `GameActions::Result` the engine reads. */
  datatype ActionResult = ActionResult(ok: bool, cost: int)

  // ---------------------------------------------------------------------
  // Map contents

  /** The tile elements the engine distinguishes. */
  datatype EntranceType = RideEntrance | RideExit | ParkEntrance

  datatype TileElement =
    | TrackTile(baseHeight: int, direction: nat, rideIndex: nat, trackType: nat, mazeEntry: Word16, station: nat)
    | EntranceTile(baseHeight: int, direction: nat, entranceType: EntranceType, rideIndex: nat)
    | OtherTile(baseHeight: int)
  {
    /** `GetBaseZ`: height steps in world units. */
    function BaseZ(): int { baseHeight * 8 }
  }

  /** The surface element of a tile. */
  datatype Surface = Surface(baseZ: int, slope: bv8, waterHeight: int)

  /** A scenery object as the object manager resolved it. */
  datatype SceneryEntry = SceneryEntry(
    kind: ObjectType, index: nat, secondaryIndex: nat,
    diagonal: bool, fullTile: bool, halfSpace: bool, threeQuarters: bool,
    largeTiles: seq<XY>)

  // ---------------------------------------------------------------------
  // Track piece descriptors (`GetTrackElementDescriptor`)

  datatype TrackCoordinates = TrackCoordinates(
    rotationBegin: nat, rotationEnd: nat, zBegin: int, zEnd: int, x: int, y: int)

  datatype TrackBlock = TrackBlock(x: int, y: int, z: int)

  datatype TrackDescriptor = TrackDescriptor(
    coordinates: TrackCoordinates, firstBlock: TrackBlock, moreBlocks: seq<TrackBlock>,
    hasSpeedSetting: bool, mirrorElement: nat)
  {
    /** The block list up to its `0xFF` terminator; it always has a first block. */
    function Blocks(): seq<TrackBlock> { [firstBlock] + moreBlocks }
  }

  // ---------------------------------------------------------------------
  // The world

  /**
   * The abstract world. Every map view is a function of the actions issued
   * so far; `respond` is the game-action oracle.
   */
  datatype World = World(
    respond: (seq<Issued>, Issued) -> ActionResult,
    heightAt: (seq<Issued>, XY) -> int,
    surfaceAt: (seq<Issued>, XY) -> Option<Surface>,
    elementsAt: (seq<Issued>, XY) -> seq<TileElement>,
    hasPathAt: (seq<Issued>, XYZ) -> bool,
    resolve: (ObjectDescriptor, bool) -> Option<SceneryEntry>,
    descriptor: nat -> TrackDescriptor)

  // ---------------------------------------------------------------------
  // The ride being captured

  datatype Station = Station(baseZ: int, entrance: Option<XY>, exit: Option<XY>)

  /** What `object_entry_get_object(ObjectType::Ride, subtype)` finds. */
  datatype VehicleObject = NoRideObject | JsonOnlyObject | LegacyObject(descriptor: ObjectDescriptor)

  /** A position on the track and the tile element there. */
  datatype TrackCursor = TrackCursor(x: int, y: int, element: nat)

  /** The attributes of a track tile element that capture reads. */
  datatype TrackPiece = TrackPiece(
    trackType: nat, baseZ: int, direction: nat, brakeBoosterSpeed: bv8, seatRotation: bv8,
    hasChain: bool, colourScheme: bv8, inverted: bool)

  /**
   * The track-walking primitives: `ride_try_get_origin_element`,
   * `ride_get_start_of_track`, `GetTrackElementOriginAndApplyChanges` and
   * `track_block_get_next`.
   */
  datatype TrackGraph = TrackGraph(
    originElement: Option<TrackCursor>,
    startOfTrack: TrackCursor -> TrackCursor,
    originOf: TrackCursor -> Option<(XYZ, nat)>,
    next: TrackCursor -> Option<TrackCursor>,
    piece: nat -> TrackPiece)

  datatype VehicleColour = VehicleColour(body: nat, trim: nat, ternary: nat)
  datatype TrackColour = TrackColour(main: nat, additional: nat, supports: nat)

  datatype RideStats = RideStats(
    mode: nat, colourSchemeType: nat, vehicleColours: seq<VehicleColour>, trackColours: seq<TrackColour>,
    departFlags: nat, numVehicles: nat, numCarsPerTrain: nat, minWaitingTime: nat, maxWaitingTime: nat,
    operationOption: nat, liftHillSpeed: nat, numCircuits: nat, entranceStyle: nat,
    maxSpeed: int, averageSpeed: int, totalLength: int,
    maxPositiveVerticalG: int, maxNegativeVerticalG: int, maxLateralG: int,
    holes: bv8, inversions: bv8, shelteredEighths: bv8, drops: nat, highestDropHeight: nat,
    totalAirTime: nat, excitement: int, intensity: int, nausea: int, upkeepCost: int)

  datatype Ride = Ride(
    id: nat, rideType: nat, vehicleObject: VehicleObject, hasAlternativeTrackType: bool,
    stations: seq<Station>, stats: RideStats, track: TrackGraph)
}

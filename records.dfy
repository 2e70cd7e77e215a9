/**
 * The origin-relative design record: its track, entrance, maze and scenery
 * elements, and the packing of a track piece's attributes into its flag byte.
 */
module Records {
  import opened Common
  import opened Bits

  /** `RIDE_TYPE_MAZE`: the ride type whose layout is a maze. */
  const RIDE_TYPE_MAZE: nat := 20

  /** `TD6MaxTrackElements`. */
  const TD6_MAX_TRACK_ELEMENTS: nat := 8192

  /** Maze markers store this in the `type` byte of the maze union. */
  const MAZE_ELEMENT_TYPE_ENTRANCE: nat := 0x08
  const MAZE_ELEMENT_TYPE_EXIT: nat := 0x80

  /** `RCT12_TRACK_ELEMENT_TYPE_FLAG_CHAIN_LIFT` and `TD6_TRACK_ELEMENT_FLAG_INVERTED`. */
  const TRACK_FLAG_CHAIN_LIFT: bv8 := 0x80
  const TRACK_FLAG_INVERTED: bv8 := 0x40

  /** The object categories the engine distinguishes. */
  datatype ObjectType =
    | RideObject | SmallScenery | LargeScenery | Walls | Banners | Paths
    | PathBits | FootpathSurface | FootpathRailings | OtherObject

  /** `ObjectEntryDescriptor`: which object a scenery element uses. */
  datatype ObjectDescriptor = ObjectDescriptor(kind: ObjectType, name: string)

  /** `TrackDesignTrackElement`. */
  datatype TrackElement = TrackElement(trackType: nat, flags: bv8)

  /** `TrackDesignEntranceElement`. */
  datatype EntranceElement = EntranceElement(z: Int8Value, direction: bv8, x: Int16Value, y: Int16Value, isExit: bool)

  /**
   * `TrackDesignMazeElement`: tile offsets and the 16-bit union that is the
   * wall mask of a maze cell, or `{direction, type}` for an entrance or exit marker.
   */
  datatype MazeElement = MazeElement(x: Int8Value, y: Int8Value, entry: Word16)
  {
    /** The low byte of the union. */
    function Direction(): nat { LowByte(entry) }
    /** The high byte of the union. */
    function Type(): nat { HighByte(entry) }
    predicate IsMarker() { Type() == MAZE_ELEMENT_TYPE_ENTRANCE || Type() == MAZE_ELEMENT_TYPE_EXIT }
  }

  /** `TrackDesignSceneryElement`. */
  datatype SceneryElement = SceneryElement(
    sceneryObject: ObjectDescriptor, x: Int8Value, y: Int8Value, z: Int8Value,
    flags: bv8, primaryColour: nat, secondaryColour: nat)
  {
    /** `IsQueue`: bit 7 of the flags. */
    predicate IsQueue() { flags & 0x80 != 0 }
  }

  /** The parts of a design that placement reads. */
  datatype DesignRecord = DesignRecord(
    rideType: nat,
    trackElements: seq<TrackElement>,
    entranceElements: seq<EntranceElement>,
    mazeElements: seq<MazeElement>,
    sceneryElements: seq<SceneryElement>)

  /** The maze union of an entrance or exit marker facing `direction`. */
  function MarkerEntry(direction: nat, markerType: nat): (w: Word16)
    requires direction < 256 && markerType < 256
    ensures LowByte(w) == direction && HighByte(w) == markerType
  {
    BytesOfWord(direction, markerType);
    WordOfBytes(direction, markerType)
  }

  // ---------------------------------------------------------------------
  // Track piece flag byte

  /**
   * Capture side: the brake or booster speed halved (or the seat rotation),
   * the chain-lift bit, the colour scheme in bits 4-5 and the inverted bit.
   */
  function PackTrackFlags(
    hasSpeedSetting: bool, brakeBoosterSpeed: bv8, seatRotation: bv8,
    hasChain: bool, colourScheme: bv8, inverted: bool): bv8
  {
    var base := if hasSpeedSetting then brakeBoosterSpeed >> 1 else seatRotation;
    var withChain := if hasChain then base | TRACK_FLAG_CHAIN_LIFT else base;
    var withColour := withChain | (colourScheme << 4);
    if inverted then withColour | TRACK_FLAG_INVERTED else withColour
  }

  /** Placement side: `(flags >> 4) & 3`. */
  function TrackColourOf(flags: bv8): (c: nat)
    ensures c < 4
  {
    ((flags >> 4) & 3) as nat
  }

  /** Placement side: `(flags & 0x0F) * 2`. */
  function BrakeSpeedOf(flags: bv8): (s: nat)
    ensures s % 2 == 0 && s < 32
  {
    ((flags & 0x0F) as nat) * 2
  }

  /** Placement side: `flags & 0x0F`. */
  function SeatRotationOf(flags: bv8): (s: nat)
    ensures s < 16
  {
    (flags & 0x0F) as nat
  }

  /** Placement side: bit 0 for the chain lift, bit 1 for the inverted state. */
  function LiftHillAndAlternativeOf(flags: bv8): (v: nat)
    ensures v < 4
    ensures (v % 2 == 1) == (flags & TRACK_FLAG_CHAIN_LIFT != 0)
    ensures (v >= 2) == (flags & TRACK_FLAG_INVERTED != 0)
  {
    (if flags & TRACK_FLAG_CHAIN_LIFT != 0 then 1 else 0) + (if flags & TRACK_FLAG_INVERTED != 0 then 2 else 0)
  }

  /**
   * What placement decodes from a captured flag byte is what capture packed:
   * the colour scheme always, an even brake speed below 32, a seat rotation
   * below 16, and the chain and inverted bits whenever the low field fits
   * below bit 4.
   */
  lemma TrackFlagsRoundTrip(
    hasSpeedSetting: bool, brakeBoosterSpeed: bv8, seatRotation: bv8,
    hasChain: bool, colourScheme: bv8, inverted: bool)
    requires colourScheme < 4
    requires hasSpeedSetting ==> brakeBoosterSpeed < 32
    requires !hasSpeedSetting ==> seatRotation < 16
    ensures var f := PackTrackFlags(hasSpeedSetting, brakeBoosterSpeed, seatRotation, hasChain, colourScheme, inverted);
      && TrackColourOf(f) == colourScheme as nat
      && (hasSpeedSetting && brakeBoosterSpeed & 1 == 0 ==> BrakeSpeedOf(f) == brakeBoosterSpeed as nat)
      && (!hasSpeedSetting ==> SeatRotationOf(f) == seatRotation as nat)
      && LiftHillAndAlternativeOf(f) == (if hasChain then 1 else 0) + (if inverted then 2 else 0)
  {
    var base := if hasSpeedSetting then brakeBoosterSpeed >> 1 else seatRotation;
    assert base < 16;
    var f := PackTrackFlags(hasSpeedSetting, brakeBoosterSpeed, seatRotation, hasChain, colourScheme, inverted);
    assert f & 0x0F == base;
    assert (f >> 4) & 3 == colourScheme;
    if hasSpeedSetting && brakeBoosterSpeed & 1 == 0 {
      assert (brakeBoosterSpeed >> 1) as nat * 2 == brakeBoosterSpeed as nat;
    }
  }
}

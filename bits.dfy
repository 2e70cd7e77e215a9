/**
 * Bit-level helpers: the 16-bit maze wall word (kept as its 16 bits, least
 * significant first), `bitscanforward`, `Numerics::rol16`, the wall-segment
 * mirror table, little-endian byte values, and the nibble rotations used for
 * footpath edges.
 */
module Bits {

  /** A `uint16_t`, as its bits: `w[i]` is bit `i`. */
  type Word16 = s: seq<bool> | |s| == 16 witness seq(16, _ => false)

  /** A wall-segment index, a bit position of a `Word16`. */
  type Segment = i: int | 0 <= i < 16

  // ---------------------------------------------------------------------
  // Byte values inside a word

  /** Little-endian value of a bit string. */
  function ValueOf(bits: seq<bool>): (v: nat)
    ensures v < Pow2(|bits|)
  {
    if bits == [] then 0 else (if bits[0] then 1 else 0) + 2 * ValueOf(bits[1..])
  }

  function Pow2(n: nat): (p: nat)
    ensures p >= 1
  {
    if n == 0 then 1 else 2 * Pow2(n - 1)
  }

  /** The low `n` bits of `v`, least significant first. */
  function BitsOf(v: nat, n: nat): (bits: seq<bool>)
    ensures |bits| == n
  {
    if n == 0 then [] else [v % 2 == 1] + BitsOf(v / 2, n - 1)
  }

  /** Storing a value in `n` bits and reading it back keeps it when it fits. */
  lemma {:induction false} ValueOfBitsOf(v: nat, n: nat)
    requires v < Pow2(n)
    ensures ValueOf(BitsOf(v, n)) == v
  {
    if n > 0 {
      ValueOfBitsOf(v / 2, n - 1);
      assert BitsOf(v, n)[1..] == BitsOf(v / 2, n - 1);
    }
  }

  /** Reading a bit string as a value and storing it back gives the same bits. */
  lemma {:induction false} BitsOfValueOf(bits: seq<bool>)
    ensures BitsOf(ValueOf(bits), |bits|) == bits
  {
    if bits != [] {
      BitsOfValueOf(bits[1..]);
      var v := ValueOf(bits);
      assert v % 2 == (if bits[0] then 1 else 0);
      assert v / 2 == ValueOf(bits[1..]);
    }
  }

  /** The value modulo 4 depends on the two low bits only. */
  lemma {:induction false} ValueOfLowTwo(bits: seq<bool>)
    requires |bits| >= 2
    ensures ValueOf(bits) % 2 == (if bits[0] then 1 else 0)
    ensures ValueOf(bits) % 4 == (if bits[0] then 1 else 0) + (if bits[1] then 2 else 0)
  {
    var b0 := if bits[0] then 1 else 0;
    var b1 := if bits[1] then 1 else 0;
    var rest := bits[1..];
    assert rest[0] == bits[1];
    var v2 := ValueOf(rest[1..]);
    assert ValueOf(rest) == b1 + 2 * v2;
    assert ValueOf(bits) == b0 + 2 * b1 + 4 * v2;
  }

  /** Low byte of a word (the `direction` half of the maze element union). */
  function LowByte(w: Word16): (v: nat)
    ensures v < 256
  {
    assert Pow2(8) == 256;
    ValueOf(w[..8])
  }

  /** High byte of a word (the `type` half of the maze element union). */
  function HighByte(w: Word16): (v: nat)
    ensures v < 256
  {
    assert Pow2(8) == 256;
    ValueOf(w[8..])
  }

  /** The word whose low byte is `lo` and high byte is `hi`. */
  function WordOfBytes(lo: nat, hi: nat): (w: Word16)
  {
    BitsOf(lo, 8) + BitsOf(hi, 8)
  }

  /** The two halves of the union read back what was written into them. */
  lemma {:induction false} BytesOfWord(lo: nat, hi: nat)
    requires lo < 256 && hi < 256
    ensures LowByte(WordOfBytes(lo, hi)) == lo
    ensures HighByte(WordOfBytes(lo, hi)) == hi
  {
    var w := WordOfBytes(lo, hi);
    assert Pow2(8) == 256;
    assert w[..8] == BitsOf(lo, 8);
    assert w[8..] == BitsOf(hi, 8);
    ValueOfBitsOf(lo, 8);
    ValueOfBitsOf(hi, 8);
  }

  // ---------------------------------------------------------------------
  // bitscanforward and the wall-segment mirror

  /** Index of the lowest set bit at or above `k`, or -1. */
  function LowestFrom(w: Word16, k: nat): (p: int)
    requires k <= 16
    ensures p == -1 || (k <= p < 16 && w[p])
    ensures p == -1 <==> forall j | k <= j < 16 :: !w[j]
    ensures p != -1 ==> forall j | k <= j < p :: !w[j]
    decreases 16 - k
  {
    if k == 16 then -1 else if w[k] then k else LowestFrom(w, k + 1)
  }

  /** `bitscanforward`: the index of the lowest set bit, -1 for a zero word. */
  function BitScanForward(w: Word16): (p: int)
    ensures p == -1 <==> forall j | 0 <= j < 16 :: !w[j]
    ensures p != -1 ==> 0 <= p < 16 && w[p] && forall j | 0 <= j < p :: !w[j]
  {
    LowestFrom(w, 0)
  }

  /** `maze_segment_mirror_map`: the wall segment each segment mirrors to. */
  const SegmentMirrorMap: seq<Segment> := [5, 4, 2, 7, 1, 0, 14, 3, 13, 12, 10, 15, 9, 8, 6, 11]

  /** The table is an involution of 0..15. */
  lemma MirrorMapInvolution(i: Segment)
    ensures SegmentMirrorMap[SegmentMirrorMap[i]] == i
  {
  }

  /**
   * Reference definition of the mirrored wall word: bit `q` of the result is
   * bit `map[q]` of the input, i.e. bit `i` of the input lands on `map[i]`.
   */
  function MirrorWord(w: Word16): (r: Word16)
  {
    seq(16, q requires 0 <= q < 16 => w[SegmentMirrorMap[q]])
  }

  /** Each set wall segment `i` moves to segment `map[i]`, and to no other. */
  lemma MirrorWordMovesBits(w: Word16, i: Segment)
    ensures MirrorWord(w)[SegmentMirrorMap[i]] == w[i]
  {
    MirrorMapInvolution(i);
  }

  /** Mirroring a wall word twice restores it. */
  lemma {:induction false} MirrorWordInvolution(w: Word16)
    ensures MirrorWord(MirrorWord(w)) == w
  {
    forall q | 0 <= q < 16 ensures MirrorWord(MirrorWord(w))[q] == w[q] {
      MirrorMapInvolution(q);
    }
  }

  function Bit(b: bool): nat { if b then 1 else 0 }

  /** Number of set bits among the lowest `k` bits. */
  function PopCountBelow(w: Word16, k: nat): (n: nat)
    requires k <= 16
    ensures n <= k
  {
    if k == 0 then 0 else PopCountBelow(w, k - 1) + Bit(w[k - 1])
  }

  /** Number of set bits (walls) of a word. */
  function PopCount(w: Word16): (n: nat)
    ensures n <= 16
  {
    PopCountBelow(w, 16)
  }

  lemma PopCountSum(w: Word16)
    ensures PopCount(w) == Bit(w[0]) + Bit(w[1]) + Bit(w[2]) + Bit(w[3]) + Bit(w[4]) + Bit(w[5])
      + Bit(w[6]) + Bit(w[7]) + Bit(w[8]) + Bit(w[9]) + Bit(w[10]) + Bit(w[11]) + Bit(w[12])
      + Bit(w[13]) + Bit(w[14]) + Bit(w[15])
  {
    assert PopCountBelow(w, 1) == PopCountBelow(w, 0) + Bit(w[0]);
    assert PopCountBelow(w, 2) == PopCountBelow(w, 1) + Bit(w[1]);
    assert PopCountBelow(w, 3) == PopCountBelow(w, 2) + Bit(w[2]);
    assert PopCountBelow(w, 4) == PopCountBelow(w, 3) + Bit(w[3]);
    assert PopCountBelow(w, 5) == PopCountBelow(w, 4) + Bit(w[4]);
    assert PopCountBelow(w, 6) == PopCountBelow(w, 5) + Bit(w[5]);
    assert PopCountBelow(w, 7) == PopCountBelow(w, 6) + Bit(w[6]);
    assert PopCountBelow(w, 8) == PopCountBelow(w, 7) + Bit(w[7]);
    assert PopCountBelow(w, 9) == PopCountBelow(w, 8) + Bit(w[8]);
    assert PopCountBelow(w, 10) == PopCountBelow(w, 9) + Bit(w[9]);
    assert PopCountBelow(w, 11) == PopCountBelow(w, 10) + Bit(w[10]);
    assert PopCountBelow(w, 12) == PopCountBelow(w, 11) + Bit(w[11]);
    assert PopCountBelow(w, 13) == PopCountBelow(w, 12) + Bit(w[12]);
    assert PopCountBelow(w, 14) == PopCountBelow(w, 13) + Bit(w[13]);
    assert PopCountBelow(w, 15) == PopCountBelow(w, 14) + Bit(w[14]);
    assert PopCountBelow(w, 16) == PopCountBelow(w, 15) + Bit(w[15]);
  }

  /** Mirroring keeps the number of walls. */
  lemma {:induction false} MirrorWordKeepsWallCount(w: Word16)
    ensures PopCount(MirrorWord(w)) == PopCount(w)
  {
    PopCountSum(w);
    PopCountSum(MirrorWord(w));
  }

  /** The bits of `entry` already cleared from `rest`. */
  function Cleared(entry: Word16, rest: Word16): Word16
  {
    seq(16, q requires 0 <= q < 16 => entry[q] && !rest[q])
  }

  /** One step of the mirror loop: clearing bit `p` sets bit `map[p]` of the result. */
  lemma {:induction false} MirrorClearStep(entry: Word16, rest: Word16, p: Segment)
    requires rest[p] && entry[p]
    ensures MirrorWord(Cleared(entry, rest[p := false]))
         == MirrorWord(Cleared(entry, rest))[SegmentMirrorMap[p] := true]
  {
    var a := MirrorWord(Cleared(entry, rest[p := false]));
    var b := MirrorWord(Cleared(entry, rest))[SegmentMirrorMap[p] := true];
    forall q | 0 <= q < 16 ensures a[q] == b[q] {
      MirrorMapInvolution(q);
      MirrorMapInvolution(p);
    }
  }

  lemma ClearedNothing(entry: Word16)
    ensures MirrorWord(Cleared(entry, entry)) == seq(16, _ => false)
  {
  }

  lemma ClearedEverything(entry: Word16, rest: Word16)
    requires forall j | 0 <= j < 16 :: !rest[j]
    ensures Cleared(entry, rest) == entry
  {
  }

  /**
   * The wall loop of `track_design_mirror_maze`: repeatedly take the lowest
   * set bit `p`, clear it, and set bit `maze_segment_mirror_map[p]`.
   */
  method MirrorWalls(entry: Word16) returns (r: Word16)
    ensures r == MirrorWord(entry)
  {
    var mazeEntry := entry;
    var newEntry: Word16 := seq(16, _ => false);
    ClearedNothing(entry);
    var p := BitScanForward(mazeEntry);
    // bitscanforward's -1 stored in a uint8_t reads back as 0xFF
    var position: int := if p == -1 then 0xFF else p;
    while position != 0xFF
      invariant forall q | 0 <= q < 16 :: mazeEntry[q] ==> entry[q]
      invariant newEntry == MirrorWord(Cleared(entry, mazeEntry))
      invariant position == 0xFF ==> forall j | 0 <= j < 16 :: !mazeEntry[j]
      invariant position != 0xFF ==>
        0 <= position < 16 && mazeEntry[position] && forall j | 0 <= j < position :: !mazeEntry[j]
      decreases if position == 0xFF then 0 else 17 - position
    {
      MirrorClearStep(entry, mazeEntry, position);
      mazeEntry := mazeEntry[position := false];
      newEntry := newEntry[SegmentMirrorMap[position] := true];
      p := BitScanForward(mazeEntry);
      position := if p == -1 then 0xFF else p;
    }
    ClearedEverything(entry, mazeEntry);
    r := newEntry;
  }

  // ---------------------------------------------------------------------
  // Numerics::rol16

  /** `rol16(w, s)`: bit `i` moves to bit `(i + s) mod 16`. */
  function Rol16(w: Word16, shift: nat): (r: Word16)
    requires shift < 16
    ensures forall i | 0 <= i < 16 :: r[if i + shift < 16 then i + shift else i + shift - 16] == w[i]
  {
    seq(16, j requires 0 <= j < 16 => w[if j >= shift then j - shift else j - shift + 16])
  }

  /** Two rotations compose to one by the summed amount. */
  lemma Rol16Add(w: Word16, a: nat, b: nat)
    requires a < 16 && b < 16
    ensures Rol16(Rol16(w, a), b) == Rol16(w, if a + b < 16 then a + b else a + b - 16)
  {
  }

  lemma Rol16Zero(w: Word16)
    ensures Rol16(w, 0) == w
  {
  }

  /** A quarter-turn rotation of a maze cell is undone by the opposite one. */
  lemma {:induction false} Rol16Inverse(w: Word16, rotation: nat)
    requires rotation < 4
    ensures Rol16(Rol16(w, rotation * 4), (4 - rotation) % 4 * 4) == w
  {
    var back := (4 - rotation) % 4 * 4;
    assert rotation * 4 + back == 0 || rotation * 4 + back == 16;
    Rol16Add(w, rotation * 4, back);
    Rol16Zero(w);
  }

  // ---------------------------------------------------------------------
  // Nibble rotations of footpath edge bits (bv8 flag bytes)

  /** The low two bits of a byte are its value modulo 4. */
  lemma Low2(a: bv8)
    ensures (a & 3) as nat == a as nat % 4
  {
  }

  /** Two two-bit values add without wrapping. */
  lemma AddSmall(a: bv8, b: bv8)
    requires a < 4 && b < 4
    ensures (a + b) as nat == a as nat + b as nat
  {
  }

  /** `b << s` for a small constant-width shift, spelled with literal shifts. */
  function Shl8(b: bv8, s: nat): bv8
    requires s < 8
  {
    match s
    case 0 => b
    case 1 => b << 1
    case 2 => b << 2
    case 3 => b << 3
    case 4 => b << 4
    case 5 => b << 5
    case 6 => b << 6
    case _ => b << 7
  }

  function Shr8(b: bv8, s: nat): bv8
    requires s < 8
  {
    match s
    case 0 => b
    case 1 => b >> 1
    case 2 => b >> 2
    case 3 => b >> 3
    case 4 => b >> 4
    case 5 => b >> 5
    case 6 => b >> 6
    case _ => b >> 7
  }

  /**
   * Scenery capture, path edges: `d = (f & 0xF) << 4 >> s`, then
   * `(d & 0xF) | (d >> 4)`, a right rotation of the low nibble by `s`.
   */
  function EdgesRotateRight(f: bv8, s: nat): (r: bv8)
    requires s < 4
    ensures r & 0xF0 == 0
  {
    var d := Shr8(Shl8(f & 0xF, 4), s);
    (d & 0xF) | (d >> 4)
  }

  /**
   * Scenery placement, path edges: `bh = (f & 0xF) << rotation`, then
   * `(bh | bh >> 4) & 0xF`, a left rotation of the low nibble.
   */
  function EdgesRotateLeft(f: bv8, rotation: nat): (r: bv8)
    requires rotation < 4
    ensures r & 0xF0 == 0
  {
    var bh := Shl8(f & 0xF, rotation);
    (bh | (bh >> 4)) & 0xF
  }

  /** Rotating the edge nibble back and forth by the same amount restores it. */
  lemma EdgesRoundTrip(f: bv8, s: nat)
    requires s < 4
    ensures EdgesRotateLeft(EdgesRotateRight(f, s), s) == f & 0xF
    ensures EdgesRotateRight(EdgesRotateLeft(f, s), s) == f & 0xF
  {
    match s
    case 0 =>
    case 1 =>
    case 2 =>
    case 3 =>
  }
}

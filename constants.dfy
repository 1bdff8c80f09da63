/** The constants the occluder shares with its rasterizer: the camera
    fixed-point precision, the six face bits that key the dispatch tables,
    and the eight vertex slots, one per box corner. */
module Constants {
  import opened FixedPoint

  /** CAMERA_PRECISION_BITS: the number of fractional bits of camera-relative
      fixed-point coordinates. Its value is left open; every proof holds for
      any precision from 0 to 16 bits. */
  type PrecisionBits = p: nat | p <= 16
  const CAMERA_PRECISION_BITS: PrecisionBits

  /** CAMERA_PRECISION_UNITY: one block in fixed-point units. */
  const CAMERA_PRECISION_UNITY: nat := Pow2(CAMERA_PRECISION_BITS)

  /** A face bitmask, held in a Java `int`. */
  type FaceMask = bv8

  // The face-bit values are this model's choice (Constants.java is not part
  // of this model). The tables name every key as a union of faces; what the
  // source needs of the values is that they are distinct single bits whose
  // union indexes a 128-entry table (FaceBitsWellFormed).
  const UP: FaceMask := 1
  const DOWN: FaceMask := 2
  const EAST: FaceMask := 4
  const WEST: FaceMask := 8
  const NORTH: FaceMask := 16
  const SOUTH: FaceMask := 32

  /** Size of each dispatch table. */
  const TABLE_SIZE: FaceMask := 128

  const FACES: seq<FaceMask> := [UP, DOWN, EAST, WEST, NORTH, SOUTH]

  predicate SingleBit(f: FaceMask) {
    f != 0 && f & (f - 1) == 0
  }

  predicate HasFace(mask: FaceMask, f: FaceMask) {
    mask & f != 0
  }

  /** The face constants are distinct single bits, and all of them together
      still index inside a table of TABLE_SIZE entries. */
  lemma FaceBitsWellFormed()
    ensures forall i :: 0 <= i < |FACES| ==> SingleBit(FACES[i])
    ensures forall i, j :: 0 <= i < j < |FACES| ==> FACES[i] & FACES[j] == 0
    ensures UP | DOWN | EAST | WEST | NORTH | SOUTH < TABLE_SIZE
  {
  }

  /** Which of a box's two bounds a coordinate takes on one axis. */
  datatype Bound = Lo | Hi

  /** A box corner, which also names the rasterizer's vertex slot for it:
      V<x><y><z> with 0 for the low bound and 1 for the high one. */
  datatype Corner = Corner(x: Bound, y: Bound, z: Bound)

  const V000: Corner := Corner(Lo, Lo, Lo)
  const V001: Corner := Corner(Lo, Lo, Hi)
  const V010: Corner := Corner(Lo, Hi, Lo)
  const V011: Corner := Corner(Lo, Hi, Hi)
  const V100: Corner := Corner(Hi, Lo, Lo)
  const V101: Corner := Corner(Hi, Lo, Hi)
  const V110: Corner := Corner(Hi, Hi, Lo)
  const V111: Corner := Corner(Hi, Hi, Hi)

  const ALL_CORNERS: seq<Corner> := [V000, V001, V010, V011, V100, V101, V110, V111]

  const VERTEX_SLOT_COUNT: nat := 8

  function BitOf(b: Bound): nat {
    if b == Hi then 1 else 0
  }

  /** The index of a corner's vertex slot. */
  function SlotIndex(c: Corner): (i: nat)
    ensures i < VERTEX_SLOT_COUNT
    ensures ALL_CORNERS[i] == c
  {
    4 * BitOf(c.x) + 2 * BitOf(c.y) + BitOf(c.z)
  }

  lemma SlotIndexInjective(c: Corner, d: Corner)
    ensures SlotIndex(c) == SlotIndex(d) <==> c == d
  {
  }
}

/** Face-visibility classification: which faces of an axis-aligned box the
    camera can see, computed from the camera-to-region offset and the box's
    bounds. Each bound's plane is computed exactly; PlaneIsJavaShift shows
    the occluder's 32-bit shift and negation give the same plane for every
    SmallCoord bound, padded by one or not (larger bounds wrap in the
    occluder and are classified differently). The resulting bitmask keys
    the BOX_TESTS and BOX_DRAWS tables. Also the
    distance heuristic backfaceVisibilityFlags, which reads only the
    offset. */
module FaceClassification {
  import opened FixedPoint
  import opened Constants
  import opened BoxTables

  /** A packed box as the occluder reads it through its accessors: six
      region-relative bounds and a distance-range band. The bit packing
      itself is not modelled. */
  datatype PackedBox = PackedBox(x0: int, y0: int, z0: int, x1: int, y1: int, z1: int, range: int)

  /** The bound range this model chooses for the shift agreement of
      PlaneIsJavaShift: small non-negative block coordinates relative to the
      region origin. The packed-box layout is not part of this model. */
  predicate SmallCoord(c: int) {
    0 <= c < 0x4000
  }

  /** A well-formed packed box: ordered bounds on every axis. */
  predicate ValidBox(p: PackedBox) {
    p.x0 <= p.x1 && p.y0 <= p.y1 && p.z0 <= p.z1
  }

  /** The bounds occludeInner draws with: the box as stored. */
  function ExactBounds(p: PackedBox): Bounds {
    Bounds(p.x0, p.y0, p.z0, p.x1, p.y1, p.z1)
  }

  /** The bounds isBoxVisible tests with: the box grown by one on every side. */
  function PaddedBounds(p: PackedBox): (b: Bounds)
    ensures b.x0 < p.x0 && b.y0 < p.y0 && b.z0 < p.z0
    ensures b.x1 > p.x1 && b.y1 > p.y1 && b.z1 > p.z1
  {
    Bounds(p.x0 - 1, p.y0 - 1, p.z0 - 1, p.x1 + 1, p.y1 + 1, p.z1 + 1)
  }

  /** `-(c << CAMERA_PRECISION_BITS)`: the plane of bound `c`, negated, in
      fixed-point units. Computed exactly; PlaneIsJavaShift shows the 32-bit
      shift and negation give the same value for every SmallCoord bound,
      padded by one or not. */
  function Plane(c: int): int {
    -(c * CAMERA_PRECISION_UNITY)
  }

  /** For bounds of magnitude up to 2^14 the `int` shift and negation never
      overflow. */
  lemma PlaneIsJavaShift(c: int)
    requires SmallCoord(c) || SmallCoord(c + 1) || SmallCoord(c - 1)
    ensures Neg32(Shl32(c, CAMERA_PRECISION_BITS)) == Plane(c)
  {
    ShiftIsExact(c, CAMERA_PRECISION_BITS);
  }

  /** One axis of the classification: the face on the high side shows when
      the offset is below the high plane, otherwise the face on the low side
      shows when the offset is above the low plane, otherwise neither. */
  function AxisFace(offset: int, lo: int, hi: int, posFace: FaceMask, negFace: FaceMask): FaceMask {
    if offset < Plane(hi) then posFace
    else if offset > Plane(lo) then negFace
    else 0
  }

  /** The visible-face key of bounds `b` seen from camera offset
      (ox, oy, oz): the `outcome` isBoxVisible and occludeInner compute. */
  function FaceKey(ox: int, oy: int, oz: int, b: Bounds): FaceMask {
    AxisFace(oy, b.y0, b.y1, UP, DOWN) | AxisFace(ox, b.x0, b.x1, EAST, WEST) | AxisFace(oz, b.z0, b.z1, SOUTH, NORTH)
  }

  /** Whatever the offset and bounds, the key is one of the 27 populated
      ones: each axis contributes at most one of its two faces. */
  lemma FaceKeyIsPopulated(ox: int, oy: int, oz: int, b: Bounds)
    ensures FaceKey(ox, oy, oz, b) in FACE_KEYS
    ensures BoxTests(FaceKey(ox, oy, oz, b)).Some? && BoxDraws(FaceKey(ox, oy, oz, b)).Some?
  {
    FaceKeyOfAxes(AxisFace(oy, b.y0, b.y1, UP, DOWN), AxisFace(ox, b.x0, b.x1, EAST, WEST),
                  AxisFace(oz, b.z0, b.z1, SOUTH, NORTH));
    TablesWellFormed(FaceKey(ox, oy, oz, b));
  }

  /** At most one face per axis always lands on a populated key. */
  lemma FaceKeyOfAxes(y: FaceMask, x: FaceMask, z: FaceMask)
    requires y == 0 || y == UP || y == DOWN
    requires x == 0 || x == EAST || x == WEST
    requires z == 0 || z == SOUTH || z == NORTH
    ensures y | x | z in FACE_KEYS
  {
  }

  /** The key isBoxVisible looks up in BOX_TESTS. */
  function TestKey(ox: int, oy: int, oz: int, p: PackedBox): FaceMask {
    FaceKey(ox, oy, oz, PaddedBounds(p))
  }

  /** The key occludeInner looks up in BOX_DRAWS. */
  function DrawKey(ox: int, oy: int, oz: int, p: PackedBox): FaceMask {
    FaceKey(ox, oy, oz, ExactBounds(p))
  }

  /** Both classifications always select a populated entry of their table. */
  lemma KeysArePopulated(ox: int, oy: int, oz: int, p: PackedBox)
    ensures BoxTests(TestKey(ox, oy, oz, p)).Some?
    ensures BoxDraws(DrawKey(ox, oy, oz, p)).Some?
  {
    FaceKeyIsPopulated(ox, oy, oz, PaddedBounds(p));
    FaceKeyIsPopulated(ox, oy, oz, ExactBounds(p));
  }

  /** The BOX_DRAWS entry occludeInner runs for box `p`: like every
      populated entry, it loads every corner its quads read. */
  function DrawEntry(ox: int, oy: int, oz: int, p: PackedBox): (r: Routine)
    ensures LoadsItsQuads(r)
  {
    FaceKeyIsPopulated(ox, oy, oz, ExactBounds(p));
    TablesWellFormed(DrawKey(ox, oy, oz, p));
    BoxDraws(DrawKey(ox, oy, oz, p)).value
  }

  /** DrawEntry is what both tables hold at the box's exact key. */
  lemma DrawEntryIsTableEntry(ox: int, oy: int, oz: int, p: PackedBox)
    ensures BoxDraws(DrawKey(ox, oy, oz, p)) == Some(DrawEntry(ox, oy, oz, p))
    ensures BoxTests(DrawKey(ox, oy, oz, p)) == Some(DrawEntry(ox, oy, oz, p))
  {
    FaceKeyIsPopulated(ox, oy, oz, ExactBounds(p));
    TablesWellFormed(DrawKey(ox, oy, oz, p));
  }

  /** One axis in exact arithmetic: with the camera at `-offset` (in
      fixed-point units, relative to the region origin), the high face shows
      exactly when the camera is beyond the high plane, the low face exactly
      when it is beyond the low plane, and the two never show together. */
  lemma AxisFaceMeaning(offset: int, lo: int, hi: int, posFace: FaceMask, negFace: FaceMask)
    requires lo <= hi
    requires posFace != 0 && negFace != 0 && posFace != negFace
    ensures AxisFace(offset, lo, hi, posFace, negFace) == posFace <==> -offset > hi * CAMERA_PRECISION_UNITY
    ensures AxisFace(offset, lo, hi, posFace, negFace) == negFace <==> -offset < lo * CAMERA_PRECISION_UNITY
    ensures AxisFace(offset, lo, hi, posFace, negFace) == 0 <==>
            lo * CAMERA_PRECISION_UNITY <= -offset <= hi * CAMERA_PRECISION_UNITY
  {
    MulMonotone(lo, hi, CAMERA_PRECISION_UNITY);
  }

  /** The key in terms of the camera's position: each face bit is set
      exactly when the camera lies strictly beyond that face's plane. */
  lemma FaceKeyMeaning(ox: int, oy: int, oz: int, b: Bounds)
    requires b.x0 <= b.x1 && b.y0 <= b.y1 && b.z0 <= b.z1
    ensures HasFace(FaceKey(ox, oy, oz, b), UP) <==> -oy > b.y1 * CAMERA_PRECISION_UNITY
    ensures HasFace(FaceKey(ox, oy, oz, b), DOWN) <==> -oy < b.y0 * CAMERA_PRECISION_UNITY
    ensures HasFace(FaceKey(ox, oy, oz, b), EAST) <==> -ox > b.x1 * CAMERA_PRECISION_UNITY
    ensures HasFace(FaceKey(ox, oy, oz, b), WEST) <==> -ox < b.x0 * CAMERA_PRECISION_UNITY
    ensures HasFace(FaceKey(ox, oy, oz, b), SOUTH) <==> -oz > b.z1 * CAMERA_PRECISION_UNITY
    ensures HasFace(FaceKey(ox, oy, oz, b), NORTH) <==> -oz < b.z0 * CAMERA_PRECISION_UNITY
  {
    AxisFaceMeaning(oy, b.y0, b.y1, UP, DOWN);
    AxisFaceMeaning(ox, b.x0, b.x1, EAST, WEST);
    AxisFaceMeaning(oz, b.z0, b.z1, SOUTH, NORTH);
    AxisBits(AxisFace(oy, b.y0, b.y1, UP, DOWN), AxisFace(ox, b.x0, b.x1, EAST, WEST),
             AxisFace(oz, b.z0, b.z1, SOUTH, NORTH));
  }

  /** Reading the face bits back out of a key built one axis at a time. */
  lemma AxisBits(y: FaceMask, x: FaceMask, z: FaceMask)
    requires y == 0 || y == UP || y == DOWN
    requires x == 0 || x == EAST || x == WEST
    requires z == 0 || z == SOUTH || z == NORTH
    ensures HasFace(y | x | z, UP) <==> y == UP
    ensures HasFace(y | x | z, DOWN) <==> y == DOWN
    ensures HasFace(y | x | z, EAST) <==> x == EAST
    ensures HasFace(y | x | z, WEST) <==> x == WEST
    ensures HasFace(y | x | z, SOUTH) <==> z == SOUTH
    ensures HasFace(y | x | z, NORTH) <==> z == NORTH
  {
  }

  /** The camera inside the (closed) box sees no face, and only then: key 0,
      whose entries test nothing and draw nothing. */
  lemma InsideBoxSeesNoFace(ox: int, oy: int, oz: int, b: Bounds)
    requires b.x0 <= b.x1 && b.y0 <= b.y1 && b.z0 <= b.z1
    ensures FaceKey(ox, oy, oz, b) == 0 <==>
            && b.x0 * CAMERA_PRECISION_UNITY <= -ox <= b.x1 * CAMERA_PRECISION_UNITY
            && b.y0 * CAMERA_PRECISION_UNITY <= -oy <= b.y1 * CAMERA_PRECISION_UNITY
            && b.z0 * CAMERA_PRECISION_UNITY <= -oz <= b.z1 * CAMERA_PRECISION_UNITY
  {
    AxisFaceMeaning(oy, b.y0, b.y1, UP, DOWN);
    AxisFaceMeaning(ox, b.x0, b.x1, EAST, WEST);
    AxisFaceMeaning(oz, b.z0, b.z1, SOUTH, NORTH);
    AxisBits(AxisFace(oy, b.y0, b.y1, UP, DOWN), AxisFace(ox, b.x0, b.x1, EAST, WEST),
             AxisFace(oz, b.z0, b.z1, SOUTH, NORTH));
  }

  /** On one axis, padding the bounds by one can only hide a face: the
      padded classification shows either no face or the exact one. */
  lemma PaddedAxisFace(offset: int, lo: int, hi: int, posFace: FaceMask, negFace: FaceMask)
    requires lo <= hi
    requires posFace != 0 && negFace != 0 && posFace != negFace
    ensures AxisFace(offset, lo - 1, hi + 1, posFace, negFace) == 0 ||
            AxisFace(offset, lo - 1, hi + 1, posFace, negFace) == AxisFace(offset, lo, hi, posFace, negFace)
  {
    AxisFaceMeaning(offset, lo, hi, posFace, negFace);
    AxisFaceMeaning(offset, lo - 1, hi + 1, posFace, negFace);
    MulMonotone(hi, hi + 1, CAMERA_PRECISION_UNITY);
    MulMonotone(lo - 1, lo, CAMERA_PRECISION_UNITY);
  }

  /** Dropping faces axis by axis keeps a subset of the bits. */
  lemma SubsetOfAxes(y': FaceMask, x': FaceMask, z': FaceMask, y: FaceMask, x: FaceMask, z: FaceMask)
    requires y' == 0 || y' == y
    requires x' == 0 || x' == x
    requires z' == 0 || z' == z
    ensures (y' | x' | z') & (y | x | z) == y' | x' | z'
  {
  }

  /** The padded classification of isBoxVisible agrees with the exact one
      of occludeInner up to the padding: every face visible around the
      padded box is visible on the box itself. */
  lemma PaddedFacesAreExactFaces(ox: int, oy: int, oz: int, p: PackedBox)
    requires ValidBox(p)
    ensures TestKey(ox, oy, oz, p) & DrawKey(ox, oy, oz, p) == TestKey(ox, oy, oz, p)
  {
    var b := PaddedBounds(p);
    PaddedAxisFace(oy, p.y0, p.y1, UP, DOWN);
    PaddedAxisFace(ox, p.x0, p.x1, EAST, WEST);
    PaddedAxisFace(oz, p.z0, p.z1, SOUTH, NORTH);
    SubsetOfAxes(AxisFace(oy, b.y0, b.y1, UP, DOWN), AxisFace(ox, b.x0, b.x1, EAST, WEST),
                 AxisFace(oz, b.z0, b.z1, SOUTH, NORTH), AxisFace(oy, p.y0, p.y1, UP, DOWN),
                 AxisFace(ox, p.x0, p.x1, EAST, WEST), AxisFace(oz, p.z0, p.z1, SOUTH, NORTH));
  }

  // ---------------------------------------------------------------------
  // backfaceVisibilityFlags

  /** One axis of the heuristic: the high face when the offset is below
      `48 << bits`, otherwise the low face when it is above `-(72 << bits)`. */
  function BackfaceAxis(offset: int, posFace: FaceMask, negFace: FaceMask): FaceMask {
    if offset < Shl32(48, CAMERA_PRECISION_BITS) then posFace
    else if offset > Neg32(Shl32(72, CAMERA_PRECISION_BITS)) then negFace
    else 0
  }

  /** backfaceVisibilityFlags: a face mask computed from the offset alone. */
  function BackfaceFlags(ox: int, oy: int, oz: int): FaceMask {
    BackfaceAxis(oy, UP, DOWN) | BackfaceAxis(ox, EAST, WEST) | BackfaceAxis(oz, SOUTH, NORTH)
  }

  /** Because 48 > -72, the second comparison never decides: the high face
      is flagged below 48 blocks of offset and the low face from there up,
      so exactly one face of each opposite pair is set. */
  lemma BackfaceMeaning(ox: int, oy: int, oz: int)
    ensures HasFace(BackfaceFlags(ox, oy, oz), UP) <==> oy < 48 * CAMERA_PRECISION_UNITY
    ensures HasFace(BackfaceFlags(ox, oy, oz), DOWN) <==> oy >= 48 * CAMERA_PRECISION_UNITY
    ensures HasFace(BackfaceFlags(ox, oy, oz), EAST) <==> ox < 48 * CAMERA_PRECISION_UNITY
    ensures HasFace(BackfaceFlags(ox, oy, oz), WEST) <==> ox >= 48 * CAMERA_PRECISION_UNITY
    ensures HasFace(BackfaceFlags(ox, oy, oz), SOUTH) <==> oz < 48 * CAMERA_PRECISION_UNITY
    ensures HasFace(BackfaceFlags(ox, oy, oz), NORTH) <==> oz >= 48 * CAMERA_PRECISION_UNITY
    ensures FaceCount(BackfaceFlags(ox, oy, oz)) == 3
  {
    ShiftIsExact(48, CAMERA_PRECISION_BITS);
    ShiftIsExact(72, CAMERA_PRECISION_BITS);
    var u: int := CAMERA_PRECISION_UNITY;
    assert -(72 * u) < 48 * u;
    var y := BackfaceAxis(oy, UP, DOWN);
    var x := BackfaceAxis(ox, EAST, WEST);
    var z := BackfaceAxis(oz, SOUTH, NORTH);
    assert y != 0 && x != 0 && z != 0;
    AxisBits(y, x, z);
  }
}

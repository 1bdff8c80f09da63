/** The two dispatch tables, BOX_TESTS and BOX_DRAWS, indexed by a
    visible-face bitmask. Each populated entry is data here: the vertex
    setups it performs, in order, and the quads it then tests or draws. One
    interpretation of that data gives the test (quads OR-ed, reading the
    buffer only) and one the draw (every quad marked). */
module BoxTables {
  import opened Constants
  import opened Rasterizer

  datatype Option<T> = None | Some(value: T)

  /** The six bounds an entry is applied to: (x0, y0, z0, x1, y1, z1). */
  datatype Bounds = Bounds(x0: int, y0: int, z0: int, x1: int, y1: int, z1: int)

  /** setupVertex(slot, x, y, z), where `Lo` passes the entry's x0 (y0, z0)
      and `Hi` its x1 (y1, z1). */
  datatype Setup = Setup(slot: Corner, x: Bound, y: Bound, z: Bound)

  /** One table entry: its vertex setups, then its quads, both in order. */
  datatype Routine = Routine(setups: seq<Setup>, quads: seq<Quad>)

  function Pick(b: Bound, lo: int, hi: int): int {
    if b == Lo then lo else hi
  }

  /** The vertex for box corner `c` of bounds `b` under matrix `m`. */
  function CornerVertex(m: Matrix, b: Bounds, c: Corner): Vertex {
    Vertex(m, Pick(c.x, b.x0, b.x1), Pick(c.y, b.y0, b.y1), Pick(c.z, b.z0, b.z1))
  }

  /** Rasterizer.setupVertex: project one point into one slot. */
  function SetupVertex(slots: Slots, s: Setup, m: Matrix, b: Bounds): Slots {
    slots[SlotIndex(s.slot) := Vertex(m, Pick(s.x, b.x0, b.x1), Pick(s.y, b.y0, b.y1), Pick(s.z, b.z0, b.z1))]
  }

  /** The vertex slots after performing setups `ss` in order. */
  function ApplySetups(slots: Slots, ss: seq<Setup>, m: Matrix, b: Bounds): Slots
    decreases |ss|
  {
    if |ss| == 0 then slots
    else SetupVertex(ApplySetups(slots, ss[..|ss| - 1], m, b), ss[|ss| - 1], m, b)
  }

  /** A BOX_TESTS entry applied to bounds `b`: after its setups, some quad
      still covers an open tile (the `||` of testQuad calls). */
  predicate TestRoutine(r: Routine, m: Matrix, b: Bounds, cov: Coverage, st: RasterState) {
    var slots := ApplySetups(st.slots, r.setups, m, b);
    exists i :: 0 <= i < |r.quads| && QuadVisible(cov, slots, r.quads[i], st.tiles)
  }

  /** The buffer after drawQuad on each of `qs` in order. */
  function MarkQuads(cov: Coverage, slots: Slots, qs: seq<Quad>, tiles: seq<bool>): (r: seq<bool>)
    ensures |r| == |tiles|
    decreases |qs|
  {
    if |qs| == 0 then tiles
    else MarkQuad(cov, slots, qs[|qs| - 1], MarkQuads(cov, slots, qs[..|qs| - 1], tiles))
  }

  /** A BOX_DRAWS entry applied to bounds `b`: its setups, then every quad drawn. */
  function DrawRoutine(r: Routine, m: Matrix, b: Bounds, cov: Coverage, st: RasterState): RasterState {
    var slots := ApplySetups(st.slots, r.setups, m, b);
    RasterState(MarkQuads(cov, slots, r.quads, st.tiles), slots)
  }

  // ---------------------------------------------------------------------
  // What a well-formed entry looks like

  /** Every setup loads the corner its slot is named after. */
  predicate SetupsMatchSlots(r: Routine) {
    forall i :: 0 <= i < |r.setups| ==> r.setups[i].slot == Corner(r.setups[i].x, r.setups[i].y, r.setups[i].z)
  }

  /** Some setup of `r` loads corner `c` into its own slot. */
  predicate SetsUp(r: Routine, c: Corner) {
    Setup(c, c.x, c.y, c.z) in r.setups
  }

  function FaceBit(mask: FaceMask, f: FaceMask): nat {
    if HasFace(mask, f) then 1 else 0
  }

  function FaceCount(key: FaceMask): nat {
    FaceBit(key, UP) + FaceBit(key, DOWN) + FaceBit(key, EAST) +
    FaceBit(key, WEST) + FaceBit(key, NORTH) + FaceBit(key, SOUTH)
  }

  /** Corner `c` lies on one of the faces `key` marks visible. */
  predicate OnVisibleFace(key: FaceMask, c: Corner) {
    || (HasFace(key, UP) && c.y == Hi) || (HasFace(key, DOWN) && c.y == Lo)
    || (HasFace(key, EAST) && c.x == Hi) || (HasFace(key, WEST) && c.x == Lo)
    || (HasFace(key, SOUTH) && c.z == Hi) || (HasFace(key, NORTH) && c.z == Lo)
  }

  /** The corner shared by the visible faces, nearest the camera when three
      faces show. */
  function NearestCorner(key: FaceMask): Corner {
    Corner(if HasFace(key, EAST) then Hi else Lo,
           if HasFace(key, UP) then Hi else Lo,
           if HasFace(key, SOUTH) then Hi else Lo)
  }

  /** The corners of the box's outline: those on a visible face, less the
      nearest one when three faces show. */
  predicate InOutline(key: FaceMask, c: Corner) {
    OnVisibleFace(key, c) && !(FaceCount(key) == 3 && c == NearestCorner(key))
  }

  predicate DistinctSlots(r: Routine) {
    forall i, j :: 0 <= i < j < |r.setups| ==> r.setups[i].slot != r.setups[j].slot
  }

  predicate ProperQuads(r: Routine) {
    forall i :: 0 <= i < |r.quads| ==> |QuadCorners(r.quads[i])| == 4
  }

  /** The entry for `key` sets up only outline corners, each once and each
      from its own bounds: four for one visible face, six for two (the
      faces share an edge) and six for three (seven visible corners less
      the nearest). It issues one quad per face up to two, and every quad
      is a proper quad over slots the entry itself sets up. */
  ghost predicate WellFormedEntry(key: FaceMask, r: Routine) {
    && SetupsMatchSlots(r)
    && DistinctSlots(r)
    && (forall i :: 0 <= i < |r.setups| ==> InOutline(key, r.setups[i].slot))
    && |r.setups| == (if FaceCount(key) == 0 then 0 else if FaceCount(key) == 1 then 4 else 6)
    && |r.quads| == (if FaceCount(key) <= 1 then FaceCount(key) else 2)
    && ProperQuads(r)
    && (forall i, c :: 0 <= i < |r.quads| && c in QuadCorners(r.quads[i]) ==> SetsUp(r, c))
  }

  /** The 27 visible-face keys: at most one of UP/DOWN, one of EAST/WEST
      and one of NORTH/SOUTH. */
  const FACE_KEYS: seq<FaceMask> := [
    0, UP, DOWN, EAST, WEST, NORTH, SOUTH,
    UP | EAST, UP | WEST, UP | NORTH, UP | SOUTH,
    DOWN | EAST, DOWN | WEST, DOWN | NORTH, DOWN | SOUTH,
    NORTH | EAST, NORTH | WEST, SOUTH | EAST, SOUTH | WEST,
    UP | EAST | NORTH, UP | WEST | NORTH, UP | EAST | SOUTH, UP | WEST | SOUTH,
    DOWN | EAST | NORTH, DOWN | WEST | NORTH, DOWN | EAST | SOUTH, DOWN | WEST | SOUTH]

  /** A populated slot of a dispatch table: the key it sits at and its routine. */
  datatype Entry = Entry(key: FaceMask, routine: Routine)

  /** The routine a table holds at `key`, if any (the first entry with that key). */
  function Lookup(table: seq<Entry>, key: FaceMask): Option<Routine>
    decreases |table|
  {
    if |table| == 0 then None
    else if table[0].key == key then Some(table[0].routine)
    else Lookup(table[1..], key)
  }

  /** BOX_TESTS: the routine of each populated key of the test table, in the order the source fills them. */
  const BOX_TESTS: seq<Entry> := [
    // TerrainOccluder.java:373-375
    Entry(0, Routine([], [])),
    // TerrainOccluder.java:377-383
    Entry(UP, Routine(
      [Setup(V010, Lo, Hi, Lo), Setup(V011, Lo, Hi, Hi),
       Setup(V110, Hi, Hi, Lo), Setup(V111, Hi, Hi, Hi)],
      [Quad(V110, V010, V011, V111)])),
    // TerrainOccluder.java:385-391
    Entry(DOWN, Routine(
      [Setup(V000, Lo, Lo, Lo), Setup(V001, Lo, Lo, Hi),
       Setup(V100, Hi, Lo, Lo), Setup(V101, Hi, Lo, Hi)],
      [Quad(V000, V100, V101, V001)])),
    // TerrainOccluder.java:393-399
    Entry(EAST, Routine(
      [Setup(V100, Hi, Lo, Lo), Setup(V101, Hi, Lo, Hi),
       Setup(V110, Hi, Hi, Lo), Setup(V111, Hi, Hi, Hi)],
      [Quad(V101, V100, V110, V111)])),
    // TerrainOccluder.java:401-407
    Entry(WEST, Routine(
      [Setup(V000, Lo, Lo, Lo), Setup(V001, Lo, Lo, Hi),
       Setup(V010, Lo, Hi, Lo), Setup(V011, Lo, Hi, Hi)],
      [Quad(V000, V001, V011, V010)])),
    // TerrainOccluder.java:409-415
    Entry(NORTH, Routine(
      [Setup(V000, Lo, Lo, Lo), Setup(V010, Lo, Hi, Lo),
       Setup(V100, Hi, Lo, Lo), Setup(V110, Hi, Hi, Lo)],
      [Quad(V100, V000, V010, V110)])),
    // TerrainOccluder.java:417-423
    Entry(SOUTH, Routine(
      [Setup(V001, Lo, Lo, Hi), Setup(V011, Lo, Hi, Hi),
       Setup(V101, Hi, Lo, Hi), Setup(V111, Hi, Hi, Hi)],
      [Quad(V001, V101, V111, V011)])),
    // TerrainOccluder.java:426-435
    Entry(UP | EAST, Routine(
      [Setup(V010, Lo, Hi, Lo), Setup(V011, Lo, Hi, Hi),
       Setup(V100, Hi, Lo, Lo), Setup(V101, Hi, Lo, Hi),
       Setup(V110, Hi, Hi, Lo), Setup(V111, Hi, Hi, Hi)],
      [Quad(V010, V011, V111, V101), Quad(V101, V100, V110, V010)])),
    // TerrainOccluder.java:437-446
    Entry(UP | WEST, Routine(
      [Setup(V000, Lo, Lo, Lo), Setup(V001, Lo, Lo, Hi),
       Setup(V010, Lo, Hi, Lo), Setup(V011, Lo, Hi, Hi),
       Setup(V110, Hi, Hi, Lo), Setup(V111, Hi, Hi, Hi)],
      [Quad(V111, V110, V010, V000), Quad(V000, V001, V011, V111)])),
    // TerrainOccluder.java:448-457
    Entry(UP | NORTH, Routine(
      [Setup(V000, Lo, Lo, Lo), Setup(V010, Lo, Hi, Lo),
       Setup(V011, Lo, Hi, Hi), Setup(V100, Hi, Lo, Lo),
       Setup(V110, Hi, Hi, Lo), Setup(V111, Hi, Hi, Hi)],
      [Quad(V011, V111, V110, V100), Quad(V100, V000, V010, V011)])),
    // TerrainOccluder.java:459-468
    Entry(UP | SOUTH, Routine(
      [Setup(V001, Lo, Lo, Hi), Setup(V010, Lo, Hi, Lo),
       Setup(V011, Lo, Hi, Hi), Setup(V101, Hi, Lo, Hi),
       Setup(V110, Hi, Hi, Lo), Setup(V111, Hi, Hi, Hi)],
      [Quad(V110, V010, V011, V001), Quad(V001, V101, V111, V110)])),
    // TerrainOccluder.java:470-479
    Entry(DOWN | EAST, Routine(
      [Setup(V000, Lo, Lo, Lo), Setup(V001, Lo, Lo, Hi),
       Setup(V100, Hi, Lo, Lo), Setup(V101, Hi, Lo, Hi),
       Setup(V110, Hi, Hi, Lo), Setup(V111, Hi, Hi, Hi)],
      [Quad(V001, V000, V100, V110), Quad(V110, V111, V101, V001)])),
    // TerrainOccluder.java:481-490
    Entry(DOWN | WEST, Routine(
      [Setup(V000, Lo, Lo, Lo), Setup(V001, Lo, Lo, Hi),
       Setup(V010, Lo, Hi, Lo), Setup(V011, Lo, Hi, Hi),
       Setup(V100, Hi, Lo, Lo), Setup(V101, Hi, Lo, Hi)],
      [Quad(V100, V101, V001, V011), Quad(V011, V010, V000, V100)])),
    // TerrainOccluder.java:492-501
    Entry(DOWN | NORTH, Routine(
      [Setup(V000, Lo, Lo, Lo), Setup(V001, Lo, Lo, Hi),
       Setup(V010, Lo, Hi, Lo), Setup(V100, Hi, Lo, Lo),
       Setup(V101, Hi, Lo, Hi), Setup(V110, Hi, Hi, Lo)],
      [Quad(V101, V001, V000, V010), Quad(V010, V110, V100, V101)])),
    // TerrainOccluder.java:503-512
    Entry(DOWN | SOUTH, Routine(
      [Setup(V000, Lo, Lo, Lo), Setup(V001, Lo, Lo, Hi),
       Setup(V011, Lo, Hi, Hi), Setup(V100, Hi, Lo, Lo),
       Setup(V101, Hi, Lo, Hi), Setup(V111, Hi, Hi, Hi)],
      [Quad(V000, V100, V101, V111), Quad(V111, V011, V001, V000)])),
    // TerrainOccluder.java:514-523
    Entry(NORTH | EAST, Routine(
      [Setup(V000, Lo, Lo, Lo), Setup(V010, Lo, Hi, Lo),
       Setup(V100, Hi, Lo, Lo), Setup(V101, Hi, Lo, Hi),
       Setup(V110, Hi, Hi, Lo), Setup(V111, Hi, Hi, Hi)],
      [Quad(V000, V010, V110, V111), Quad(V111, V101, V100, V000)])),
    // TerrainOccluder.java:525-534
    Entry(NORTH | WEST, Routine(
      [Setup(V000, Lo, Lo, Lo), Setup(V001, Lo, Lo, Hi),
       Setup(V010, Lo, Hi, Lo), Setup(V011, Lo, Hi, Hi),
       Setup(V100, Hi, Lo, Lo), Setup(V110, Hi, Hi, Lo)],
      [Quad(V110, V100, V000, V001), Quad(V001, V011, V010, V110)])),
    // TerrainOccluder.java:536-545
    Entry(SOUTH | EAST, Routine(
      [Setup(V001, Lo, Lo, Hi), Setup(V011, Lo, Hi, Hi),
       Setup(V100, Hi, Lo, Lo), Setup(V101, Hi, Lo, Hi),
       Setup(V110, Hi, Hi, Lo), Setup(V111, Hi, Hi, Hi)],
      [Quad(V011, V001, V101, V100), Quad(V100, V110, V111, V011)])),
    // TerrainOccluder.java:547-556
    Entry(SOUTH | WEST, Routine(
      [Setup(V000, Lo, Lo, Lo), Setup(V001, Lo, Lo, Hi),
       Setup(V010, Lo, Hi, Lo), Setup(V011, Lo, Hi, Hi),
       Setup(V101, Hi, Lo, Hi), Setup(V111, Hi, Hi, Hi)],
      [Quad(V101, V111, V011, V010), Quad(V010, V000, V001, V101)])),
    // TerrainOccluder.java:560-569
    Entry(UP | EAST | NORTH, Routine(
      [Setup(V000, Lo, Lo, Lo), Setup(V010, Lo, Hi, Lo),
       Setup(V011, Lo, Hi, Hi), Setup(V100, Hi, Lo, Lo),
       Setup(V101, Hi, Lo, Hi), Setup(V111, Hi, Hi, Hi)],
      [Quad(V011, V111, V101, V100), Quad(V100, V000, V010, V011)])),
    // TerrainOccluder.java:571-582
    Entry(UP | WEST | NORTH, Routine(
      [Setup(V000, Lo, Lo, Lo), Setup(V001, Lo, Lo, Hi),
       Setup(V011, Lo, Hi, Hi), Setup(V100, Hi, Lo, Lo),
       Setup(V110, Hi, Hi, Lo), Setup(V111, Hi, Hi, Hi)],
      [Quad(V111, V110, V100, V000), Quad(V000, V001, V011, V111)])),
    // TerrainOccluder.java:584-593
    Entry(UP | EAST | SOUTH, Routine(
      [Setup(V001, Lo, Lo, Hi), Setup(V010, Lo, Hi, Lo),
       Setup(V011, Lo, Hi, Hi), Setup(V100, Hi, Lo, Lo),
       Setup(V101, Hi, Lo, Hi), Setup(V110, Hi, Hi, Lo)],
      [Quad(V010, V011, V001, V101), Quad(V101, V100, V110, V010)])),
    // TerrainOccluder.java:595-604
    Entry(UP | WEST | SOUTH, Routine(
      [Setup(V000, Lo, Lo, Lo), Setup(V001, Lo, Lo, Hi),
       Setup(V010, Lo, Hi, Lo), Setup(V101, Hi, Lo, Hi),
       Setup(V110, Hi, Hi, Lo), Setup(V111, Hi, Hi, Hi)],
      [Quad(V110, V010, V000, V001), Quad(V001, V101, V111, V110)])),
    // TerrainOccluder.java:606-615
    Entry(DOWN | EAST | NORTH, Routine(
      [Setup(V000, Lo, Lo, Lo), Setup(V001, Lo, Lo, Hi),
       Setup(V010, Lo, Hi, Lo), Setup(V101, Hi, Lo, Hi),
       Setup(V110, Hi, Hi, Lo), Setup(V111, Hi, Hi, Hi)],
      [Quad(V001, V000, V010, V110), Quad(V110, V111, V101, V001)])),
    // TerrainOccluder.java:617-626
    Entry(DOWN | WEST | NORTH, Routine(
      [Setup(V001, Lo, Lo, Hi), Setup(V010, Lo, Hi, Lo),
       Setup(V011, Lo, Hi, Hi), Setup(V100, Hi, Lo, Lo),
       Setup(V101, Hi, Lo, Hi), Setup(V110, Hi, Hi, Lo)],
      [Quad(V101, V001, V011, V010), Quad(V010, V110, V100, V101)])),
    // TerrainOccluder.java:628-637
    Entry(DOWN | EAST | SOUTH, Routine(
      [Setup(V000, Lo, Lo, Lo), Setup(V001, Lo, Lo, Hi),
       Setup(V011, Lo, Hi, Hi), Setup(V100, Hi, Lo, Lo),
       Setup(V110, Hi, Hi, Lo), Setup(V111, Hi, Hi, Hi)],
      [Quad(V000, V100, V110, V111), Quad(V111, V011, V001, V000)])),
    // TerrainOccluder.java:639-648
    Entry(DOWN | WEST | SOUTH, Routine(
      [Setup(V000, Lo, Lo, Lo), Setup(V010, Lo, Hi, Lo),
       Setup(V011, Lo, Hi, Hi), Setup(V100, Hi, Lo, Lo),
       Setup(V101, Hi, Lo, Hi), Setup(V111, Hi, Hi, Hi)],
      [Quad(V100, V101, V111, V011), Quad(V011, V010, V000, V100)]))
  ]

  /** BOX_DRAWS: the routine of each populated key of the draw table, in the order the source fills them; each entry is transcribed from its own lines. */
  const BOX_DRAWS: seq<Entry> := [
    // TerrainOccluder.java:652-654
    Entry(0, Routine([], [])),
    // TerrainOccluder.java:656-662
    Entry(UP, Routine(
      [Setup(V010, Lo, Hi, Lo), Setup(V011, Lo, Hi, Hi),
       Setup(V110, Hi, Hi, Lo), Setup(V111, Hi, Hi, Hi)],
      [Quad(V110, V010, V011, V111)])),
    // TerrainOccluder.java:664-670
    Entry(DOWN, Routine(
      [Setup(V000, Lo, Lo, Lo), Setup(V001, Lo, Lo, Hi),
       Setup(V100, Hi, Lo, Lo), Setup(V101, Hi, Lo, Hi)],
      [Quad(V000, V100, V101, V001)])),
    // TerrainOccluder.java:672-678
    Entry(EAST, Routine(
      [Setup(V100, Hi, Lo, Lo), Setup(V101, Hi, Lo, Hi),
       Setup(V110, Hi, Hi, Lo), Setup(V111, Hi, Hi, Hi)],
      [Quad(V101, V100, V110, V111)])),
    // TerrainOccluder.java:680-686
    Entry(WEST, Routine(
      [Setup(V000, Lo, Lo, Lo), Setup(V001, Lo, Lo, Hi),
       Setup(V010, Lo, Hi, Lo), Setup(V011, Lo, Hi, Hi)],
      [Quad(V000, V001, V011, V010)])),
    // TerrainOccluder.java:688-694
    Entry(NORTH, Routine(
      [Setup(V000, Lo, Lo, Lo), Setup(V010, Lo, Hi, Lo),
       Setup(V100, Hi, Lo, Lo), Setup(V110, Hi, Hi, Lo)],
      [Quad(V100, V000, V010, V110)])),
    // TerrainOccluder.java:696-702
    Entry(SOUTH, Routine(
      [Setup(V001, Lo, Lo, Hi), Setup(V011, Lo, Hi, Hi),
       Setup(V101, Hi, Lo, Hi), Setup(V111, Hi, Hi, Hi)],
      [Quad(V001, V101, V111, V011)])),
    // TerrainOccluder.java:705-713
    Entry(UP | EAST, Routine(
      [Setup(V010, Lo, Hi, Lo), Setup(V011, Lo, Hi, Hi),
       Setup(V100, Hi, Lo, Lo), Setup(V101, Hi, Lo, Hi),
       Setup(V110, Hi, Hi, Lo), Setup(V111, Hi, Hi, Hi)],
      [Quad(V010, V011, V111, V101), Quad(V101, V100, V110, V010)])),
    // TerrainOccluder.java:715-724
    Entry(UP | WEST, Routine(
      [Setup(V000, Lo, Lo, Lo), Setup(V001, Lo, Lo, Hi),
       Setup(V010, Lo, Hi, Lo), Setup(V011, Lo, Hi, Hi),
       Setup(V110, Hi, Hi, Lo), Setup(V111, Hi, Hi, Hi)],
      [Quad(V111, V110, V010, V000), Quad(V000, V001, V011, V111)])),
    // TerrainOccluder.java:726-735
    Entry(UP | NORTH, Routine(
      [Setup(V000, Lo, Lo, Lo), Setup(V010, Lo, Hi, Lo),
       Setup(V011, Lo, Hi, Hi), Setup(V100, Hi, Lo, Lo),
       Setup(V110, Hi, Hi, Lo), Setup(V111, Hi, Hi, Hi)],
      [Quad(V011, V111, V110, V100), Quad(V100, V000, V010, V011)])),
    // TerrainOccluder.java:737-746
    Entry(UP | SOUTH, Routine(
      [Setup(V001, Lo, Lo, Hi), Setup(V010, Lo, Hi, Lo),
       Setup(V011, Lo, Hi, Hi), Setup(V101, Hi, Lo, Hi),
       Setup(V110, Hi, Hi, Lo), Setup(V111, Hi, Hi, Hi)],
      [Quad(V110, V010, V011, V001), Quad(V001, V101, V111, V110)])),
    // TerrainOccluder.java:748-757
    Entry(DOWN | EAST, Routine(
      [Setup(V000, Lo, Lo, Lo), Setup(V001, Lo, Lo, Hi),
       Setup(V100, Hi, Lo, Lo), Setup(V101, Hi, Lo, Hi),
       Setup(V110, Hi, Hi, Lo), Setup(V111, Hi, Hi, Hi)],
      [Quad(V001, V000, V100, V110), Quad(V110, V111, V101, V001)])),
    // TerrainOccluder.java:759-768
    Entry(DOWN | WEST, Routine(
      [Setup(V000, Lo, Lo, Lo), Setup(V001, Lo, Lo, Hi),
       Setup(V010, Lo, Hi, Lo), Setup(V011, Lo, Hi, Hi),
       Setup(V100, Hi, Lo, Lo), Setup(V101, Hi, Lo, Hi)],
      [Quad(V100, V101, V001, V011), Quad(V011, V010, V000, V100)])),
    // TerrainOccluder.java:770-779
    Entry(DOWN | NORTH, Routine(
      [Setup(V000, Lo, Lo, Lo), Setup(V001, Lo, Lo, Hi),
       Setup(V010, Lo, Hi, Lo), Setup(V100, Hi, Lo, Lo),
       Setup(V101, Hi, Lo, Hi), Setup(V110, Hi, Hi, Lo)],
      [Quad(V101, V001, V000, V010), Quad(V010, V110, V100, V101)])),
    // TerrainOccluder.java:781-790
    Entry(DOWN | SOUTH, Routine(
      [Setup(V000, Lo, Lo, Lo), Setup(V001, Lo, Lo, Hi),
       Setup(V011, Lo, Hi, Hi), Setup(V100, Hi, Lo, Lo),
       Setup(V101, Hi, Lo, Hi), Setup(V111, Hi, Hi, Hi)],
      [Quad(V000, V100, V101, V111), Quad(V111, V011, V001, V000)])),
    // TerrainOccluder.java:792-801
    Entry(NORTH | EAST, Routine(
      [Setup(V000, Lo, Lo, Lo), Setup(V010, Lo, Hi, Lo),
       Setup(V100, Hi, Lo, Lo), Setup(V101, Hi, Lo, Hi),
       Setup(V110, Hi, Hi, Lo), Setup(V111, Hi, Hi, Hi)],
      [Quad(V000, V010, V110, V111), Quad(V111, V101, V100, V000)])),
    // TerrainOccluder.java:803-812
    Entry(NORTH | WEST, Routine(
      [Setup(V000, Lo, Lo, Lo), Setup(V001, Lo, Lo, Hi),
       Setup(V010, Lo, Hi, Lo), Setup(V011, Lo, Hi, Hi),
       Setup(V100, Hi, Lo, Lo), Setup(V110, Hi, Hi, Lo)],
      [Quad(V110, V100, V000, V001), Quad(V001, V011, V010, V110)])),
    // TerrainOccluder.java:814-823
    Entry(SOUTH | EAST, Routine(
      [Setup(V001, Lo, Lo, Hi), Setup(V011, Lo, Hi, Hi),
       Setup(V100, Hi, Lo, Lo), Setup(V101, Hi, Lo, Hi),
       Setup(V110, Hi, Hi, Lo), Setup(V111, Hi, Hi, Hi)],
      [Quad(V011, V001, V101, V100), Quad(V100, V110, V111, V011)])),
    // TerrainOccluder.java:825-834
    Entry(SOUTH | WEST, Routine(
      [Setup(V000, Lo, Lo, Lo), Setup(V001, Lo, Lo, Hi),
       Setup(V010, Lo, Hi, Lo), Setup(V011, Lo, Hi, Hi),
       Setup(V101, Hi, Lo, Hi), Setup(V111, Hi, Hi, Hi)],
      [Quad(V101, V111, V011, V010), Quad(V010, V000, V001, V101)])),
    // TerrainOccluder.java:838-847
    Entry(UP | EAST | NORTH, Routine(
      [Setup(V000, Lo, Lo, Lo), Setup(V010, Lo, Hi, Lo),
       Setup(V011, Lo, Hi, Hi), Setup(V100, Hi, Lo, Lo),
       Setup(V101, Hi, Lo, Hi), Setup(V111, Hi, Hi, Hi)],
      [Quad(V011, V111, V101, V100), Quad(V100, V000, V010, V011)])),
    // TerrainOccluder.java:849-860
    Entry(UP | WEST | NORTH, Routine(
      [Setup(V000, Lo, Lo, Lo), Setup(V001, Lo, Lo, Hi),
       Setup(V011, Lo, Hi, Hi), Setup(V100, Hi, Lo, Lo),
       Setup(V110, Hi, Hi, Lo), Setup(V111, Hi, Hi, Hi)],
      [Quad(V111, V110, V100, V000), Quad(V000, V001, V011, V111)])),
    // TerrainOccluder.java:862-871
    Entry(UP | EAST | SOUTH, Routine(
      [Setup(V001, Lo, Lo, Hi), Setup(V010, Lo, Hi, Lo),
       Setup(V011, Lo, Hi, Hi), Setup(V100, Hi, Lo, Lo),
       Setup(V101, Hi, Lo, Hi), Setup(V110, Hi, Hi, Lo)],
      [Quad(V010, V011, V001, V101), Quad(V101, V100, V110, V010)])),
    // TerrainOccluder.java:873-882
    Entry(UP | WEST | SOUTH, Routine(
      [Setup(V000, Lo, Lo, Lo), Setup(V001, Lo, Lo, Hi),
       Setup(V010, Lo, Hi, Lo), Setup(V101, Hi, Lo, Hi),
       Setup(V110, Hi, Hi, Lo), Setup(V111, Hi, Hi, Hi)],
      [Quad(V110, V010, V000, V001), Quad(V001, V101, V111, V110)])),
    // TerrainOccluder.java:884-893
    Entry(DOWN | EAST | NORTH, Routine(
      [Setup(V000, Lo, Lo, Lo), Setup(V001, Lo, Lo, Hi),
       Setup(V010, Lo, Hi, Lo), Setup(V101, Hi, Lo, Hi),
       Setup(V110, Hi, Hi, Lo), Setup(V111, Hi, Hi, Hi)],
      [Quad(V001, V000, V010, V110), Quad(V110, V111, V101, V001)])),
    // TerrainOccluder.java:895-904
    Entry(DOWN | WEST | NORTH, Routine(
      [Setup(V001, Lo, Lo, Hi), Setup(V010, Lo, Hi, Lo),
       Setup(V011, Lo, Hi, Hi), Setup(V100, Hi, Lo, Lo),
       Setup(V101, Hi, Lo, Hi), Setup(V110, Hi, Hi, Lo)],
      [Quad(V101, V001, V011, V010), Quad(V010, V110, V100, V101)])),
    // TerrainOccluder.java:906-915
    Entry(DOWN | EAST | SOUTH, Routine(
      [Setup(V000, Lo, Lo, Lo), Setup(V001, Lo, Lo, Hi),
       Setup(V011, Lo, Hi, Hi), Setup(V100, Hi, Lo, Lo),
       Setup(V110, Hi, Hi, Lo), Setup(V111, Hi, Hi, Hi)],
      [Quad(V000, V100, V110, V111), Quad(V111, V011, V001, V000)])),
    // TerrainOccluder.java:917-926
    Entry(DOWN | WEST | SOUTH, Routine(
      [Setup(V000, Lo, Lo, Lo), Setup(V010, Lo, Hi, Lo),
       Setup(V011, Lo, Hi, Hi), Setup(V100, Hi, Lo, Lo),
       Setup(V101, Hi, Lo, Hi), Setup(V111, Hi, Hi, Hi)],
      [Quad(V100, V101, V111, V011), Quad(V011, V010, V000, V100)]))
  ]

  /** BOX_TESTS[key]. */
  function BoxTests(key: FaceMask): Option<Routine> {
    Lookup(BOX_TESTS, key)
  }

  /** BOX_DRAWS[key]. */
  function BoxDraws(key: FaceMask): Option<Routine> {
    Lookup(BOX_DRAWS, key)
  }

  /** A key some entry carries finds the routine of such an entry. */
  lemma {:induction false} LookupFinds(table: seq<Entry>, key: FaceMask)
    requires exists i :: 0 <= i < |table| && table[i].key == key
    ensures exists i :: 0 <= i < |table| && table[i].key == key && Lookup(table, key) == Some(table[i].routine)
  {
    if table[0].key != key {
      var i :| 0 <= i < |table| && table[i].key == key;
      assert table[1..][i - 1] == table[i];
      LookupFinds(table[1..], key);
      var j :| 0 <= j < |table| - 1 && table[1..][j].key == key && Lookup(table[1..], key) == Some(table[1..][j].routine);
      assert table[j + 1] == table[1..][j];
    } else {
      assert table[0].key == key && Lookup(table, key) == Some(table[0].routine);
    }
  }

  /** A key no entry carries finds nothing. */
  lemma {:induction false} LookupMisses(table: seq<Entry>, key: FaceMask)
    requires forall j :: 0 <= j < |table| ==> table[j].key != key
    ensures Lookup(table, key) == None
  {
    if |table| > 0 {
      assert forall j :: 0 <= j < |table| - 1 ==> table[1..][j] == table[j + 1];
      LookupMisses(table[1..], key);
    }
  }

  /** Both tables are populated at the 27 face keys, in that order, and the
      draw table holds, key by key, the same setups and quads as the test
      table. */
  lemma TableShape()
    ensures |BOX_TESTS| == |FACE_KEYS|
    ensures forall i :: 0 <= i < |BOX_TESTS| ==> BOX_TESTS[i].key == FACE_KEYS[i]
    ensures BOX_DRAWS == BOX_TESTS
  {
  }

  /** The entry at index `i` of BOX_TESTS is well formed for its key. */
  ghost predicate EntryWellFormed(i: nat) {
    i < |BOX_TESTS| && WellFormedEntry(BOX_TESTS[i].key, BOX_TESTS[i].routine)
  }

  // One lemma per populated key keeps each proof obligation small.

  lemma NoFaceEntryWellFormed() ensures EntryWellFormed(0) {}
  lemma UpEntryWellFormed() ensures EntryWellFormed(1) {}
  lemma DownEntryWellFormed() ensures EntryWellFormed(2) {}
  lemma EastEntryWellFormed() ensures EntryWellFormed(3) {}
  lemma WestEntryWellFormed() ensures EntryWellFormed(4) {}
  lemma NorthEntryWellFormed() ensures EntryWellFormed(5) {}
  lemma SouthEntryWellFormed() ensures EntryWellFormed(6) {}
  lemma UpEastEntryWellFormed() ensures EntryWellFormed(7) {}
  lemma UpWestEntryWellFormed() ensures EntryWellFormed(8) {}
  lemma UpNorthEntryWellFormed() ensures EntryWellFormed(9) {}
  lemma UpSouthEntryWellFormed() ensures EntryWellFormed(10) {}
  lemma DownEastEntryWellFormed() ensures EntryWellFormed(11) {}
  lemma DownWestEntryWellFormed() ensures EntryWellFormed(12) {}
  lemma DownNorthEntryWellFormed() ensures EntryWellFormed(13) {}
  lemma DownSouthEntryWellFormed() ensures EntryWellFormed(14) {}
  lemma NorthEastEntryWellFormed() ensures EntryWellFormed(15) {}
  lemma NorthWestEntryWellFormed() ensures EntryWellFormed(16) {}
  lemma SouthEastEntryWellFormed() ensures EntryWellFormed(17) {}
  lemma SouthWestEntryWellFormed() ensures EntryWellFormed(18) {}
  lemma UpEastNorthEntryWellFormed() ensures EntryWellFormed(19) {}
  lemma UpWestNorthEntryWellFormed() ensures EntryWellFormed(20) {}
  lemma UpEastSouthEntryWellFormed() ensures EntryWellFormed(21) {}
  lemma UpWestSouthEntryWellFormed() ensures EntryWellFormed(22) {}
  lemma DownEastNorthEntryWellFormed() ensures EntryWellFormed(23) {}
  lemma DownWestNorthEntryWellFormed() ensures EntryWellFormed(24) {}
  lemma DownEastSouthEntryWellFormed() ensures EntryWellFormed(25) {}
  lemma DownWestSouthEntryWellFormed() ensures EntryWellFormed(26) {}

  lemma AllEntriesWellFormed()
    ensures forall i :: 0 <= i < |BOX_TESTS| ==> EntryWellFormed(i)
  {
    forall i | 0 <= i < |BOX_TESTS|
      ensures EntryWellFormed(i)
    {
      if i == 0 {
        NoFaceEntryWellFormed();
      } else if i == 1 {
        UpEntryWellFormed();
      } else if i == 2 {
        DownEntryWellFormed();
      } else if i == 3 {
        EastEntryWellFormed();
      } else if i == 4 {
        WestEntryWellFormed();
      } else if i == 5 {
        NorthEntryWellFormed();
      } else if i == 6 {
        SouthEntryWellFormed();
      } else if i == 7 {
        UpEastEntryWellFormed();
      } else if i == 8 {
        UpWestEntryWellFormed();
      } else if i == 9 {
        UpNorthEntryWellFormed();
      } else if i == 10 {
        UpSouthEntryWellFormed();
      } else if i == 11 {
        DownEastEntryWellFormed();
      } else if i == 12 {
        DownWestEntryWellFormed();
      } else if i == 13 {
        DownNorthEntryWellFormed();
      } else if i == 14 {
        DownSouthEntryWellFormed();
      } else if i == 15 {
        NorthEastEntryWellFormed();
      } else if i == 16 {
        NorthWestEntryWellFormed();
      } else if i == 17 {
        SouthEastEntryWellFormed();
      } else if i == 18 {
        SouthWestEntryWellFormed();
      } else if i == 19 {
        UpEastNorthEntryWellFormed();
      } else if i == 20 {
        UpWestNorthEntryWellFormed();
      } else if i == 21 {
        UpEastSouthEntryWellFormed();
      } else if i == 22 {
        UpWestSouthEntryWellFormed();
      } else if i == 23 {
        DownEastNorthEntryWellFormed();
      } else if i == 24 {
        DownWestNorthEntryWellFormed();
      } else if i == 25 {
        DownEastSouthEntryWellFormed();
      } else if i == 26 {
        DownWestSouthEntryWellFormed();
      }
    }
  }

  /** Both tables are populated at exactly the 27 visible-face keys; every
      entry is well formed; and every draw entry performs the same setups
      and the same quads as the test entry for its key. */
  lemma TablesWellFormed(key: FaceMask)
    ensures BoxTests(key).Some? <==> key in FACE_KEYS
    ensures BoxDraws(key) == BoxTests(key)
    ensures key in FACE_KEYS ==> WellFormedEntry(key, BoxTests(key).value)
  {
    TableShape();
    if key in FACE_KEYS {
      var k :| 0 <= k < |FACE_KEYS| && FACE_KEYS[k] == key;
      assert BOX_TESTS[k].key == key;
      LookupFinds(BOX_TESTS, key);
      var i :| 0 <= i < |BOX_TESTS| && BOX_TESTS[i].key == key && BoxTests(key) == Some(BOX_TESTS[i].routine);
      AllEntriesWellFormed();
      assert EntryWellFormed(i);
    } else {
      LookupMisses(BOX_TESTS, key);
    }
  }

  // ---------------------------------------------------------------------
  // What the entries compute

  /** The vertex slots as they stand once every corner of box `b` has been
      projected through `m` into its own slot. */
  function BoxSlots(m: Matrix, b: Bounds): (s: Slots)
    ensures forall c: Corner :: s[SlotIndex(c)] == CornerVertex(m, b, c)
  {
    seq(VERTEX_SLOT_COUNT, k requires 0 <= k < VERTEX_SLOT_COUNT => CornerVertex(m, b, ALL_CORNERS[k]))
  }

  /** A setup that loads corner `c` into its own slot leaves that slot
      holding the box's vertex for `c`, whatever it held before and whatever
      the other setups (each loading its own corner) do. */
  lemma {:induction false} ApplySetupsLoads(s: Slots, ss: seq<Setup>, m: Matrix, b: Bounds, c: Corner)
    requires forall i :: 0 <= i < |ss| ==> ss[i].slot == Corner(ss[i].x, ss[i].y, ss[i].z)
    requires Setup(c, c.x, c.y, c.z) in ss
    ensures ApplySetups(s, ss, m, b)[SlotIndex(c)] == CornerVertex(m, b, c)
  {
    var n := |ss| - 1;
    var last := ss[n];
    if last.slot == c {
      assert last == Setup(c, c.x, c.y, c.z);
    } else {
      SlotIndexInjective(last.slot, c);
      assert Setup(c, c.x, c.y, c.z) in ss[..n] by {
        var j :| 0 <= j < |ss| && ss[j] == Setup(c, c.x, c.y, c.z);
        assert j != n;
        assert ss[..n][j] == ss[j];
      }
      forall i | 0 <= i < n
        ensures ss[..n][i].slot == Corner(ss[..n][i].x, ss[..n][i].y, ss[..n][i].z)
      {
        assert ss[..n][i] == ss[i];
      }
      ApplySetupsLoads(s, ss[..n], m, b, c);
    }
  }

  /** The tiles a quad covers depend only on the four slots it names. */
  lemma QuadTilesAgree(cov: Coverage, s1: Slots, s2: Slots, q: Quad, n: nat)
    requires forall c :: c in QuadCorners(q) ==> s1[SlotIndex(c)] == s2[SlotIndex(c)]
    ensures QuadTiles(cov, s1, q, n) == QuadTiles(cov, s2, q, n)
  {
    assert q.v0 in QuadCorners(q) && q.v1 in QuadCorners(q);
    assert q.v2 in QuadCorners(q) && q.v3 in QuadCorners(q);
  }

  /** Some quad of `qs` covers tile `t`. */
  predicate SomeQuadCovers(cov: Coverage, slots: Slots, qs: seq<Quad>, n: nat, t: nat) {
    exists i :: 0 <= i < |qs| && t in QuadTiles(cov, slots, qs[i], n)
  }

  /** Splitting off the last quad of a non-empty list. */
  lemma SomeQuadCoversSnoc(cov: Coverage, slots: Slots, qs: seq<Quad>, n: nat, t: nat)
    requires |qs| > 0
    ensures SomeQuadCovers(cov, slots, qs, n, t) <==>
            SomeQuadCovers(cov, slots, qs[..|qs| - 1], n, t) || t in QuadTiles(cov, slots, qs[|qs| - 1], n)
  {
    var k := |qs| - 1;
    if SomeQuadCovers(cov, slots, qs, n, t) && t !in QuadTiles(cov, slots, qs[k], n) {
      var i :| 0 <= i < |qs| && t in QuadTiles(cov, slots, qs[i], n);
      assert qs[..k][i] == qs[i];
    }
    if SomeQuadCovers(cov, slots, qs[..k], n, t) {
      var i :| 0 <= i < k && t in QuadTiles(cov, slots, qs[..k][i], n);
      assert qs[..k][i] == qs[i];
    }
  }

  /** Drawing quads `qs` in order closes exactly the tiles some quad covers
      and reopens none. */
  lemma {:induction false} MarkQuadsExactly(cov: Coverage, slots: Slots, qs: seq<Quad>, tiles: seq<bool>, t: nat)
    requires t < |tiles|
    ensures MarkQuads(cov, slots, qs, tiles)[t] <==> tiles[t] || SomeQuadCovers(cov, slots, qs, |tiles|, t)
    decreases |qs|
  {
    if |qs| > 0 {
      var k := |qs| - 1;
      MarkQuadsExactly(cov, slots, qs[..k], tiles, t);
      MarkQuadExactly(cov, slots, qs[k], MarkQuads(cov, slots, qs[..k], tiles), t);
      SomeQuadCoversSnoc(cov, slots, qs, |tiles|, t);
    }
  }

  /** Every setup loads its own corner, and every quad reads only slots
      the routine itself sets up. */
  predicate LoadsItsQuads(r: Routine) {
    && SetupsMatchSlots(r)
    && (forall i, c :: 0 <= i < |r.quads| && c in QuadCorners(r.quads[i]) ==> SetsUp(r, c))
  }

  /** After the setups of such a routine, each of its quads covers the
      same tiles as over the true corners of the box. */
  lemma RoutineQuadsSeeBox(r: Routine, m: Matrix, b: Bounds, cov: Coverage, st: RasterState)
    requires LoadsItsQuads(r)
    ensures forall i :: 0 <= i < |r.quads| ==>
              QuadTiles(cov, ApplySetups(st.slots, r.setups, m, b), r.quads[i], |st.tiles|) ==
              QuadTiles(cov, BoxSlots(m, b), r.quads[i], |st.tiles|)
  {
    var slots := ApplySetups(st.slots, r.setups, m, b);
    forall i | 0 <= i < |r.quads|
      ensures QuadTiles(cov, slots, r.quads[i], |st.tiles|) == QuadTiles(cov, BoxSlots(m, b), r.quads[i], |st.tiles|)
    {
      forall c | c in QuadCorners(r.quads[i])
        ensures slots[SlotIndex(c)] == BoxSlots(m, b)[SlotIndex(c)]
      {
        assert SetsUp(r, c);
        ApplySetupsLoads(st.slots, r.setups, m, b, c);
      }
      QuadTilesAgree(cov, slots, BoxSlots(m, b), r.quads[i], |st.tiles|);
    }
  }

  /** A routine that loads its quads tests and draws them over the true
      corners of the box, whatever the slots held before. */
  lemma RoutineMeaning(r: Routine, m: Matrix, b: Bounds, cov: Coverage, st: RasterState)
    requires LoadsItsQuads(r)
    ensures TestRoutine(r, m, b, cov, st) <==>
            exists i :: 0 <= i < |r.quads| && QuadVisible(cov, BoxSlots(m, b), r.quads[i], st.tiles)
    ensures DrawRoutine(r, m, b, cov, st).tiles == MarkQuads(cov, BoxSlots(m, b), r.quads, st.tiles)
  {
    RoutineQuadsSeeBox(r, m, b, cov, st);
    MarkQuadsAgree(cov, ApplySetups(st.slots, r.setups, m, b), BoxSlots(m, b), r.quads, st.tiles);
  }

  /** For every populated key, the test entry asks whether any of its quads,
      over the true corners of the box, still covers an open tile; the draw
      entry marks exactly those quads' tiles. Neither depends on what the
      vertex slots held before. */
  lemma BoxEntryMeaning(key: FaceMask, m: Matrix, b: Bounds, cov: Coverage, st: RasterState)
    requires key in FACE_KEYS
    ensures BoxTests(key).Some? && BoxDraws(key).Some?
    ensures TestRoutine(BoxTests(key).value, m, b, cov, st) <==>
            exists i :: 0 <= i < |BoxTests(key).value.quads| &&
                        QuadVisible(cov, BoxSlots(m, b), BoxTests(key).value.quads[i], st.tiles)
    ensures DrawRoutine(BoxDraws(key).value, m, b, cov, st).tiles ==
            MarkQuads(cov, BoxSlots(m, b), BoxDraws(key).value.quads, st.tiles)
  {
    TablesWellFormed(key);
    RoutineMeaning(BoxTests(key).value, m, b, cov, st);
  }

  /** Quads that cover the same tiles under two slot contents mark the same
      tiles. */
  lemma {:induction false} MarkQuadsAgree(cov: Coverage, s1: Slots, s2: Slots, qs: seq<Quad>, tiles: seq<bool>)
    requires forall i :: 0 <= i < |qs| ==> QuadTiles(cov, s1, qs[i], |tiles|) == QuadTiles(cov, s2, qs[i], |tiles|)
    ensures MarkQuads(cov, s1, qs, tiles) == MarkQuads(cov, s2, qs, tiles)
  {
    if |qs| > 0 {
      var n := |qs| - 1;
      forall i | 0 <= i < n
        ensures QuadTiles(cov, s1, qs[..n][i], |tiles|) == QuadTiles(cov, s2, qs[..n][i], |tiles|)
      {
        assert qs[..n][i] == qs[i];
      }
      MarkQuadsAgree(cov, s1, s2, qs[..n], tiles);
    }
  }

  /** After quads `qs` are drawn, none of them covers an open tile. */
  lemma DrawnQuadsAreHidden(cov: Coverage, slots: Slots, qs: seq<Quad>, tiles: seq<bool>)
    ensures forall i :: 0 <= i < |qs| ==> !QuadVisible(cov, slots, qs[i], MarkQuads(cov, slots, qs, tiles))
  {
    var drawn := MarkQuads(cov, slots, qs, tiles);
    forall i, t | 0 <= i < |qs| && t in QuadTiles(cov, slots, qs[i], |drawn|)
      ensures drawn[t]
    {
      MarkQuadsExactly(cov, slots, qs, tiles, t);
    }
  }

  /** Once a routine that loads its quads has been drawn, testing it on the
      same bounds finds nothing open. */
  lemma DrawnRoutineIsHidden(r: Routine, m: Matrix, b: Bounds, cov: Coverage, st: RasterState)
    requires LoadsItsQuads(r)
    ensures !TestRoutine(r, m, b, cov, DrawRoutine(r, m, b, cov, st))
  {
    RoutineMeaning(r, m, b, cov, st);
    RoutineMeaning(r, m, b, cov, DrawRoutine(r, m, b, cov, st));
    DrawnQuadsAreHidden(cov, BoxSlots(m, b), r.quads, st.tiles);
  }

  /** Once a box has been drawn, testing the same box finds it hidden. */
  lemma DrawnBoxIsHidden(key: FaceMask, m: Matrix, b: Bounds, cov: Coverage, st: RasterState)
    requires key in FACE_KEYS
    ensures BoxTests(key).Some? && BoxDraws(key).Some?
    ensures !TestRoutine(BoxTests(key).value, m, b, cov, DrawRoutine(BoxDraws(key).value, m, b, cov, st))
  {
    TablesWellFormed(key);
    DrawnRoutineIsHidden(BoxTests(key).value, m, b, cov, st);
  }

  /** Key 0 (the camera inside the box): the test reports nothing visible
      and the draw changes neither the buffer nor the slots. */
  lemma EmptyKeyIsNoOp(m: Matrix, b: Bounds, cov: Coverage, st: RasterState)
    ensures BoxTests(0) == BoxDraws(0) == Some(Routine([], []))
    ensures !TestRoutine(BoxTests(0).value, m, b, cov, st)
    ensures DrawRoutine(BoxDraws(0).value, m, b, cov, st) == st
  {
  }
}

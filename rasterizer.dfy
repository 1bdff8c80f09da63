/** The rasterizer, seen only at its boundary. Projection and scan
    conversion are not modelled: a projected vertex is kept symbolic, and the
    tiles a quad covers come from a coverage function that the occluder is
    given and never looks inside. What is modelled is what the two quad
    primitives do with that coverage: `testQuad` asks whether some covered
    tile is still open and changes nothing, `drawQuad` closes exactly the
    covered tiles. */
module Rasterizer {
  import opened Constants

  /** A projection or model matrix as the frustum supplies it, in floating
      point; its entries are not modelled. */
  datatype FloatMatrix = FloatMatrix(id: int)

  /** A fixed-point 4x4 matrix (Matrix4L), recorded as the sequence of
      operations that built it. */
  datatype Matrix =
    | Identity                                                  // loadIdentity()
    | Fixed(source: FloatMatrix)                                // copyFrom(floating-point matrix)
    | Product(left: Matrix, right: Matrix)                      // left.multiply(right)
    | Translated(base: Matrix, dx: int, dy: int, dz: int, bits: nat)  // translate(dx, dy, dz, bits)

  /** Box-local point (x, y, z) projected into tile space through `mvp`, as
      setupVertex stores it in a vertex slot. */
  datatype Vertex = Vertex(mvp: Matrix, x: int, y: int, z: int)

  const UNSET_VERTEX: Vertex := Vertex(Identity, 0, 0, 0)

  /** The eight vertex slots, indexed by SlotIndex. */
  type Slots = s: seq<Vertex> | |s| == VERTEX_SLOT_COUNT
    witness [UNSET_VERTEX, UNSET_VERTEX, UNSET_VERTEX, UNSET_VERTEX,
             UNSET_VERTEX, UNSET_VERTEX, UNSET_VERTEX, UNSET_VERTEX]

  /** A convex quad named by four vertex slots in winding order. */
  datatype Quad = Quad(v0: Corner, v1: Corner, v2: Corner, v3: Corner)

  function QuadCorners(q: Quad): set<Corner> {
    {q.v0, q.v1, q.v2, q.v3}
  }

  /** Scan conversion: the tiles a projected quad touches. */
  type Coverage = (Vertex, Vertex, Vertex, Vertex) -> set<nat>

  /** The coverage buffer (one flag per tile, true when occluded) together
      with the vertex slots. */
  datatype RasterState = RasterState(tiles: seq<bool>, slots: Slots)

  /** The tiles of the buffer that quad `q`, read from `slots`, covers.
      Tiles outside the buffer are clipped away. */
  function QuadTiles(cov: Coverage, slots: Slots, q: Quad, tileCount: nat): (ts: set<nat>)
    ensures forall t :: t in ts ==> t < tileCount
  {
    set t | t in cov(slots[SlotIndex(q.v0)], slots[SlotIndex(q.v1)],
                     slots[SlotIndex(q.v2)], slots[SlotIndex(q.v3)]) && t < tileCount
  }

  /** testQuad: some covered tile is not yet occluded. */
  predicate QuadVisible(cov: Coverage, slots: Slots, q: Quad, tiles: seq<bool>) {
    exists t :: t in QuadTiles(cov, slots, q, |tiles|) && !tiles[t]
  }

  /** drawQuad: the buffer after marking every covered tile occluded. */
  function MarkQuad(cov: Coverage, slots: Slots, q: Quad, tiles: seq<bool>): (r: seq<bool>)
    ensures |r| == |tiles|
  {
    seq(|tiles|, t requires 0 <= t < |tiles| => tiles[t] || t in QuadTiles(cov, slots, q, |tiles|))
  }

  /** The all-empty buffer that EMPTY_BITS is copied from. */
  function ClearedTiles(n: nat): (r: seq<bool>)
    ensures |r| == n
  {
    seq(n, _ => false)
  }

  /** drawQuad closes exactly the covered tiles and reopens none. */
  lemma MarkQuadExactly(cov: Coverage, slots: Slots, q: Quad, tiles: seq<bool>, t: nat)
    requires t < |tiles|
    ensures MarkQuad(cov, slots, q, tiles)[t] <==> tiles[t] || t in QuadTiles(cov, slots, q, |tiles|)
  {
  }

  /** Once a quad is drawn, testing the same quad finds nothing open. */
  lemma DrawnQuadIsHidden(cov: Coverage, slots: Slots, q: Quad, tiles: seq<bool>)
    ensures !QuadVisible(cov, slots, q, MarkQuad(cov, slots, q, tiles))
  {
  }

  /** On a freshly cleared buffer a quad is visible exactly when it covers
      some tile of the buffer. */
  lemma ClearedBufferShowsEveryQuad(cov: Coverage, slots: Slots, q: Quad, n: nat)
    ensures QuadVisible(cov, slots, q, ClearedTiles(n)) <==> QuadTiles(cov, slots, q, n) != {}
  {
    if QuadTiles(cov, slots, q, n) != {} {
      var t :| t in QuadTiles(cov, slots, q, n);
      assert !ClearedTiles(n)[t];
    }
  }
}

/** TerrainOccluder: the occluder's shared state (the fields the source
    keeps in its Data holder) and the operations that update it in place. */
module Occluder {
  import opened FixedPoint
  import opened Constants
  import opened Rasterizer
  import opened BoxTables
  import opened FaceClassification
  import opened SceneVersions
  import opened RegionOffset
  import opened OccludeScan

  /** The per-region part of the state, which the versioning operations
      leave alone. */
  datatype RegionState = RegionState(
    offsetX: int, offsetY: int, offsetZ: int,
    viewX: int, viewY: int, viewZ: int,
    occlusionRange: int,
    baseMvpMatrix: Matrix, mvpMatrix: Matrix,
    slots: Slots)

  class TerrainOccluder {
    var occluderVersion: int
    var forceRedraw: bool
    var needsRedraw: bool
    var viewVersion: int
    var positionVersion: int
    var regionVersion: int

    /** Region origin minus camera position, in fixed-point units. */
    var offsetX: int
    var offsetY: int
    var offsetZ: int

    /** Camera position, in fixed-point units. */
    var viewX: int
    var viewY: int
    var viewZ: int

    var occlusionRange: int
    var baseMvpMatrix: Matrix
    var mvpMatrix: Matrix

    /** The rasterizer's eight vertex slots. */
    var slots: Slots

    /** The coverage buffer: one flag per tile, true once occluded. */
    const tiles: array<bool>

    /** The rasterizer's scan conversion. */
    const coverage: Coverage

    /** The version counter holds a Java `int`. */
    predicate Valid()
      reads this
    {
      IsInt32(occluderVersion)
    }

    function Scene(): SceneState
      reads this
    {
      SceneState(occluderVersion, forceRedraw, needsRedraw, viewVersion, positionVersion, regionVersion)
    }

    function Region(): RegionState
      reads this
    {
      RegionState(offsetX, offsetY, offsetZ, viewX, viewY, viewZ, occlusionRange, baseMvpMatrix, mvpMatrix, slots)
    }

    function Raster(): RasterState
      reads this, tiles
    {
      RasterState(tiles[..], slots)
    }

    /** A fresh occluder over a cleared buffer of `tileCount` tiles. */
    constructor (tileCount: nat, coverage: Coverage)
      ensures fresh(tiles) && tiles[..] == ClearedTiles(tileCount)
      ensures this.coverage == coverage
      ensures Scene() == SceneState(0, false, false, 0, 0, 0)
      ensures Valid()
    {
      occluderVersion := 0;
      forceRedraw := false;
      needsRedraw := false;
      viewVersion := 0;
      positionVersion := 0;
      regionVersion := 0;
      offsetX, offsetY, offsetZ := 0, 0, 0;
      viewX, viewY, viewZ := 0, 0, 0;
      occlusionRange := 0;
      baseMvpMatrix := Identity;
      mvpMatrix := Identity;
      slots := [UNSET_VERTEX, UNSET_VERTEX, UNSET_VERTEX, UNSET_VERTEX,
                UNSET_VERTEX, UNSET_VERTEX, UNSET_VERTEX, UNSET_VERTEX];
      tiles := new bool[tileCount](_ => false);
      this.coverage := coverage;
    }

    /** version(): the current occluder version. */
    function Version(): (v: int)
      reads this
      ensures v == Scene().occluderVersion
    {
      occluderVersion
    }

    /** needsRedraw(): whether the last prepareScene cleared the buffer for
        a redraw. */
    function NeedsRedraw(): (b: bool)
      reads this
      ensures b == Scene().needsRedraw
    {
      needsRedraw
    }

    /** invalidate(): bump the version and force a redraw. */
    method Invalidate()
      requires Valid()
      modifies this
      ensures Valid()
      ensures Scene() == Invalidated(old(Scene()))
      ensures Region() == old(Region())
    {
      occluderVersion := Inc32(occluderVersion);
      forceRedraw := true;
    }

    /** invalidate(invalidVersion): the same, only while the version is
      still `invalidVersion`. */
    method InvalidateIf(invalidVersion: int)
      requires Valid()
      modifies this
      ensures Valid()
      ensures Scene() == InvalidatedIf(old(Scene()), invalidVersion)
      ensures Region() == old(Region())
    {
      if occluderVersion == invalidVersion {
        occluderVersion := Inc32(invalidVersion);
        forceRedraw := true;
      }
    }

    /** System.arraycopy of EMPTY_BITS over the buffer. */
    method ClearTiles()
      modifies tiles
      ensures tiles[..] == ClearedTiles(tiles.Length)
    {
      forall t | 0 <= t < tiles.Length {
        tiles[t] := false;
      }
    }

    /** prepareScene: rebuild the base matrix and camera position when the
        view changed, then take one of the four version branches, clearing
        the buffer whenever a redraw is needed. The camera position arrives
        already scaled to fixed point and rounded. */
    method PrepareScene(frustumViewVersion: int, frustumPositionVersion: int, sceneRegionVersion: int,
                        projection: FloatMatrix, model: FloatMatrix, cameraX: int, cameraY: int, cameraZ: int)
      requires Valid()
      modifies this, tiles
      ensures Valid()
      ensures Scene() == PreparedScene(old(Scene()), SceneInput(frustumViewVersion, frustumPositionVersion, sceneRegionVersion))
      ensures needsRedraw ==> tiles[..] == ClearedTiles(tiles.Length)
      ensures !needsRedraw ==> tiles[..] == old(tiles[..])
      ensures old(viewVersion) != frustumViewVersion ==>
                Region() == old(Region()).(baseMvpMatrix := Product(Product(Identity, Fixed(projection)), Fixed(model)),
                                           mvpMatrix := Fixed(model),
                                           viewX := cameraX, viewY := cameraY, viewZ := cameraZ)
      ensures old(viewVersion) == frustumViewVersion ==> Region() == old(Region())
    {
      if viewVersion != frustumViewVersion {
        RebuildView(projection, model, cameraX, cameraY, cameraZ);
      }
      SyncVersions(SceneInput(frustumViewVersion, frustumPositionVersion, sceneRegionVersion));
    }

    /** The view-change part of prepareScene: the base matrix becomes
        projection times model (the working matrix is left holding the
        model matrix it was used to convert), and the camera position is
        replaced. */
    method RebuildView(projection: FloatMatrix, model: FloatMatrix, cameraX: int, cameraY: int, cameraZ: int)
      modifies this`baseMvpMatrix, this`mvpMatrix, this`viewX, this`viewY, this`viewZ
      ensures baseMvpMatrix == Product(Product(Identity, Fixed(projection)), Fixed(model))
      ensures mvpMatrix == Fixed(model)
      ensures viewX == cameraX && viewY == cameraY && viewZ == cameraZ
    {
      baseMvpMatrix := Identity;
      mvpMatrix := Fixed(projection);
      baseMvpMatrix := Product(baseMvpMatrix, mvpMatrix);
      mvpMatrix := Fixed(model);
      baseMvpMatrix := Product(baseMvpMatrix, mvpMatrix);
      viewX, viewY, viewZ := cameraX, cameraY, cameraZ;
    }

    /** The four version branches of prepareScene. */
    method SyncVersions(input: SceneInput)
      modifies this`occluderVersion, this`forceRedraw, this`needsRedraw,
               this`viewVersion, this`positionVersion, this`regionVersion, tiles
      ensures Scene() == PreparedScene(old(Scene()), input)
      ensures needsRedraw ==> tiles[..] == ClearedTiles(tiles.Length)
      ensures !needsRedraw ==> tiles[..] == old(tiles[..])
    {
      if forceRedraw {
        viewVersion := input.viewVersion;
        positionVersion := input.positionVersion;
        regionVersion := input.regionVersion;
        ClearTiles();
        forceRedraw := false;
        needsRedraw := true;
      } else if positionVersion != input.positionVersion || regionVersion != input.regionVersion {
        occluderVersion := Inc32(occluderVersion);
        viewVersion := input.viewVersion;
        positionVersion := input.positionVersion;
        regionVersion := input.regionVersion;
        ClearTiles();
        needsRedraw := true;
      } else if viewVersion != input.viewVersion {
        viewVersion := input.viewVersion;
        ClearTiles();
        needsRedraw := true;
      } else {
        needsRedraw := false;
      }
    }

    /** prepareRegion: store the occlusion range, compute the offset from the
        camera to the region origin, and translate the base matrix by it. */
    method PrepareRegion(originX: int, originY: int, originZ: int, range: int)
      modifies this`occlusionRange, this`offsetX, this`offsetY, this`offsetZ, this`mvpMatrix
      ensures Scene() == old(Scene())
      ensures Region() == old(Region()).(
                occlusionRange := range,
                offsetX := Offset(originX, viewX), offsetY := Offset(originY, viewY), offsetZ := Offset(originZ, viewZ),
                mvpMatrix := Translated(baseMvpMatrix, offsetX, offsetY, offsetZ, CAMERA_PRECISION_BITS))
    {
      var x, y, z := Offset(originX, viewX), Offset(originY, viewY), Offset(originZ, viewZ);
      occlusionRange, offsetX, offsetY, offsetZ := range, x, y, z;
      mvpMatrix := Translated(baseMvpMatrix, x, y, z, CAMERA_PRECISION_BITS);
    }

    /** setupVertex for each of `ss`, in order. */
    method RunSetups(ss: seq<Setup>, b: Bounds)
      modifies this`slots
      ensures slots == ApplySetups(old(slots), ss, mvpMatrix, b)
    {
      var i := 0;
      while i < |ss|
        invariant 0 <= i <= |ss|
        invariant slots == ApplySetups(old(slots), ss[..i], mvpMatrix, b)
      {
        assert ss[..i + 1][..i] == ss[..i];
        slots := SetupVertex(slots, ss[i], mvpMatrix, b);
        i := i + 1;
      }
      assert ss[..|ss|] == ss;
    }

    /** testQuad: read-only. */
    method TestQuad(q: Quad) returns (visible: bool)
      ensures visible == QuadVisible(coverage, slots, q, tiles[..])
    {
      visible := QuadVisible(coverage, slots, q, tiles[..]);
    }

    /** drawQuad: mark every covered tile occluded. */
    method DrawQuad(q: Quad)
      modifies tiles
      ensures tiles[..] == MarkQuad(coverage, slots, q, old(tiles[..]))
    {
      var covered := QuadTiles(coverage, slots, q, tiles.Length);
      forall t | 0 <= t < tiles.Length {
        tiles[t] := tiles[t] || t in covered;
      }
    }

    /** The `||` of testQuad over `qs`, stopping at the first true. */
    method TestQuads(qs: seq<Quad>) returns (visible: bool)
      ensures visible <==> exists i :: 0 <= i < |qs| && QuadVisible(coverage, slots, qs[i], tiles[..])
    {
      visible := false;
      var i := 0;
      while i < |qs| && !visible
        invariant 0 <= i <= |qs|
        invariant visible <==> exists j :: 0 <= j < i && QuadVisible(coverage, slots, qs[j], tiles[..])
      {
        visible := TestQuad(qs[i]);
        i := i + 1;
      }
    }

    /** drawQuad on each of `qs`, in order. */
    method DrawQuads(qs: seq<Quad>)
      modifies tiles
      ensures tiles[..] == MarkQuads(coverage, slots, qs, old(tiles[..]))
    {
      var i := 0;
      while i < |qs|
        invariant 0 <= i <= |qs|
        invariant tiles[..] == MarkQuads(coverage, slots, qs[..i], old(tiles[..]))
      {
        assert qs[..i + 1][..i] == qs[..i];
        DrawQuad(qs[i]);
        i := i + 1;
      }
      assert qs[..|qs|] == qs;
    }

    /** isBoxVisible: classify the box grown by one and run its BOX_TESTS
        entry. Only the vertex slots change. */
    method IsBoxVisible(p: PackedBox) returns (visible: bool)
      modifies this`slots
      ensures BoxTests(TestKey(offsetX, offsetY, offsetZ, p)).Some?
      ensures visible == TestRoutine(BoxTests(TestKey(offsetX, offsetY, offsetZ, p)).value,
                                     mvpMatrix, PaddedBounds(p), coverage, old(Raster()))
      ensures tiles[..] == old(tiles[..])
      ensures slots == ApplySetups(old(slots), BoxTests(TestKey(offsetX, offsetY, offsetZ, p)).value.setups,
                                   mvpMatrix, PaddedBounds(p))
    {
      var b := PaddedBounds(p);
      var key := FaceKey(offsetX, offsetY, offsetZ, b);
      KeysArePopulated(offsetX, offsetY, offsetZ, p);
      var entry := BoxTests(key).value;
      RunSetups(entry.setups, b);
      visible := TestQuads(entry.quads);
    }

    /** occludeInner: classify the exact box and run its BOX_DRAWS entry. */
    method OccludeInner(p: PackedBox)
      modifies this`slots, tiles
      ensures Raster() == DrawBox(old(Raster()), coverage, mvpMatrix, offsetX, offsetY, offsetZ, p)
    {
      var b := ExactBounds(p);
      var key := FaceKey(offsetX, offsetY, offsetZ, b);
      DrawEntryIsTableEntry(offsetX, offsetY, offsetZ, p);
      var entry := BoxDraws(key).value;
      RunSetups(entry.setups, b);
      DrawQuads(entry.quads);
    }

    /** One step of occlude's scan: draw box `i`, extending the drawing of
        the boxes before it. */
    method OccludeNext(ghost start: RasterState, ghost boxes: seq<PackedBox>, i: nat, box: PackedBox)
      requires 1 <= i < |boxes| && boxes[i] == box
      requires Raster() == DrawBoxes(start, coverage, mvpMatrix, offsetX, offsetY, offsetZ, boxes[1..i])
      modifies this`slots, tiles
      ensures Raster() == DrawBoxes(start, coverage, mvpMatrix, offsetX, offsetY, offsetZ, boxes[1..i + 1])
    {
      DrawBoxesStep(start, coverage, mvpMatrix, offsetX, offsetY, offsetZ, boxes, i);
      OccludeInner(box);
    }

    /** occlude(visData): draw the boxes from index 1 until the first whose
        range is below the occlusion range. */
    method Occlude(visData: array<PackedBox>)
      modifies this`slots, tiles
      ensures Raster() == DrawBoxes(old(Raster()), coverage, mvpMatrix, offsetX, offsetY, offsetZ,
                                    OccluderBoxes(visData[..], occlusionRange))
    {
      var occlusionRange := this.occlusionRange;
      ghost var boxes := visData[..];
      ghost var start := Raster();
      ghost var m, ox, oy, oz := mvpMatrix, offsetX, offsetY, offsetZ;
      var limit := visData.Length;
      if limit > 1 {
        var i := 1;
        while i < limit
          invariant 1 <= i <= limit
          invariant m == mvpMatrix && ox == offsetX && oy == offsetY && oz == offsetZ
          invariant i <= ScanEnd(boxes, occlusionRange, 1)
          invariant Raster() == DrawBoxes(start, coverage, m, ox, oy, oz, boxes[1..i])
        {
          var box := visData[i];
          assert box == boxes[i];
          if occlusionRange > box.range {
            ScanEndAt(boxes, occlusionRange, i);
            break;
          }
          ScanContinues(boxes, occlusionRange, i);
          OccludeNext(start, boxes, i, box);
          i := i + 1;
        }
        ScanStopsAt(boxes, occlusionRange, i);
      }
    }

    /** backfaceVisibilityFlags: the heuristic on the stored offsets; the
        region argument is not read. */
    function BackfaceVisibilityFlags(): (flags: FaceMask)
      reads this`offsetX, this`offsetY, this`offsetZ
      ensures FaceCount(flags) == 3
    {
      BackfaceMeaning(offsetX, offsetY, offsetZ);
      BackfaceFlags(offsetX, offsetY, offsetZ)
    }
  }
}

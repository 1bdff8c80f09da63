/** What occlude(visData) draws: the boxes from index 1 (index 0 is the
    region's aggregate box) up to the first box whose range band falls
    below the region's occlusion range, each classified with exact bounds
    and drawn through its BOX_DRAWS entry. */
module OccludeScan {
  import opened Constants
  import opened Rasterizer
  import opened BoxTables
  import opened FaceClassification

  /** Where the scan starting at index `i` stops: the first index from `i`
      on whose box has a range below `occlusionRange`, or the end. */
  function ScanEnd(boxes: seq<PackedBox>, occlusionRange: int, i: nat): (e: nat)
    requires i <= |boxes|
    ensures i <= e <= |boxes|
    ensures forall j :: i <= j < e ==> boxes[j].range >= occlusionRange
    ensures e < |boxes| ==> occlusionRange > boxes[e].range
    decreases |boxes| - i
  {
    if i == |boxes| then i
    else if occlusionRange > boxes[i].range then i
    else ScanEnd(boxes, occlusionRange, i + 1)
  }

  /** The boxes occlude draws, in order. */
  function OccluderBoxes(boxes: seq<PackedBox>, occlusionRange: int): (drawn: seq<PackedBox>)
    ensures |boxes| <= 1 ==> drawn == []
    ensures |drawn| < |boxes| || |drawn| == 0
    ensures forall k :: 0 <= k < |drawn| ==> drawn[k] == boxes[k + 1] && boxes[k + 1].range >= occlusionRange
    ensures 1 <= |drawn| + 1 < |boxes| ==> occlusionRange > boxes[|drawn| + 1].range
  {
    if |boxes| <= 1 then [] else boxes[1..ScanEnd(boxes, occlusionRange, 1)]
  }

  /** Ranges that never increase after the aggregate box. */
  predicate RangesNonIncreasing(boxes: seq<PackedBox>) {
    forall i, j :: 1 <= i < j < |boxes| ==> boxes[i].range >= boxes[j].range
  }

  /** With the boxes after index 0 ordered by non-increasing range, occlude
      draws exactly those whose range reaches the occlusion range. */
  lemma SortedScanDrawsInRange(boxes: seq<PackedBox>, occlusionRange: int, k: nat)
    requires RangesNonIncreasing(boxes)
    requires 1 <= k < |boxes|
    ensures k <= |OccluderBoxes(boxes, occlusionRange)| <==> boxes[k].range >= occlusionRange
  {
    var n := |OccluderBoxes(boxes, occlusionRange)|;
    if k > n {
      assert boxes[n + 1].range >= boxes[k].range || n + 1 == k;
    }
  }

  /** occludeInner on box `p`: the BOX_DRAWS entry of its exact
      classification, applied to its exact bounds. */
  function DrawBox(st: RasterState, cov: Coverage, m: Matrix, ox: int, oy: int, oz: int, p: PackedBox): (r: RasterState)
    ensures |r.tiles| == |st.tiles|
  {
    DrawRoutine(DrawEntry(ox, oy, oz, p), m, ExactBounds(p), cov, st)
  }

  /** The buffer and slots after drawing boxes `bs`, in order. */
  function DrawBoxes(st: RasterState, cov: Coverage, m: Matrix, ox: int, oy: int, oz: int,
                     bs: seq<PackedBox>): (r: RasterState)
    ensures |r.tiles| == |st.tiles|
    decreases |bs|
  {
    if |bs| == 0 then st
    else DrawBox(DrawBoxes(st, cov, m, ox, oy, oz, bs[..|bs| - 1]), cov, m, ox, oy, oz, bs[|bs| - 1])
  }

  /** Drawing one more box of `boxes` extends the drawing of the boxes before it. */
  lemma DrawBoxesStep(st: RasterState, cov: Coverage, m: Matrix, ox: int, oy: int, oz: int,
                      boxes: seq<PackedBox>, i: nat)
    requires 1 <= i < |boxes|
    ensures DrawBoxes(st, cov, m, ox, oy, oz, boxes[1..i + 1]) ==
            DrawBox(DrawBoxes(st, cov, m, ox, oy, oz, boxes[1..i]), cov, m, ox, oy, oz, boxes[i])
  {
    assert boxes[1..i + 1][..i - 1] == boxes[1..i];
  }

  /** A box in range moves the scan on. */
  lemma ScanContinues(boxes: seq<PackedBox>, occlusionRange: int, i: nat)
    requires 1 <= i < |boxes| && i <= ScanEnd(boxes, occlusionRange, 1)
    requires boxes[i].range >= occlusionRange
    ensures i + 1 <= ScanEnd(boxes, occlusionRange, 1)
  {
  }

  /** A box below the range ends the scan. */
  lemma ScanEndAt(boxes: seq<PackedBox>, occlusionRange: int, i: nat)
    requires 1 <= i < |boxes| && i <= ScanEnd(boxes, occlusionRange, 1)
    requires occlusionRange > boxes[i].range
    ensures ScanEnd(boxes, occlusionRange, 1) == i
  {
  }

  /** The scan's stopping point. */
  lemma ScanStopsAt(boxes: seq<PackedBox>, occlusionRange: int, i: nat)
    requires 1 <= i <= |boxes|
    requires ScanEnd(boxes, occlusionRange, 1) == i
    ensures OccluderBoxes(boxes, occlusionRange) == boxes[1..i]
  {
  }

  /** `st2` has every tile of `st1` occluded, and possibly more. */
  predicate Covers(st2: RasterState, st1: RasterState) {
    |st2.tiles| == |st1.tiles| && forall t :: 0 <= t < |st1.tiles| && st1.tiles[t] ==> st2.tiles[t]
  }

  /** Drawing a routine never reopens a tile. */
  lemma DrawRoutineCovers(r: Routine, m: Matrix, b: Bounds, cov: Coverage, st: RasterState)
    requires LoadsItsQuads(r)
    ensures Covers(DrawRoutine(r, m, b, cov, st), st)
  {
    RoutineMeaning(r, m, b, cov, st);
    forall t | 0 <= t < |st.tiles| && st.tiles[t]
      ensures DrawRoutine(r, m, b, cov, st).tiles[t]
    {
      MarkQuadsExactly(cov, BoxSlots(m, b), r.quads, st.tiles, t);
    }
  }

  /** A routine whose test finds nothing open stays hidden as more tiles close. */
  lemma HiddenStaysHidden(r: Routine, m: Matrix, b: Bounds, cov: Coverage, st1: RasterState, st2: RasterState)
    requires LoadsItsQuads(r)
    requires Covers(st2, st1)
    requires !TestRoutine(r, m, b, cov, st1)
    ensures !TestRoutine(r, m, b, cov, st2)
  {
    RoutineMeaning(r, m, b, cov, st1);
    RoutineMeaning(r, m, b, cov, st2);
    forall i | 0 <= i < |r.quads|
      ensures !QuadVisible(cov, BoxSlots(m, b), r.quads[i], st2.tiles)
    {
      assert !QuadVisible(cov, BoxSlots(m, b), r.quads[i], st1.tiles);
    }
  }

  /** Drawing boxes never reopens a tile. */
  lemma {:induction false} DrawBoxesCovers(st: RasterState, cov: Coverage, m: Matrix, ox: int, oy: int, oz: int,
                                           bs: seq<PackedBox>)
    ensures Covers(DrawBoxes(st, cov, m, ox, oy, oz, bs), st)
    decreases |bs|
  {
    if |bs| > 0 {
      var p := bs[|bs| - 1];
      var before := DrawBoxes(st, cov, m, ox, oy, oz, bs[..|bs| - 1]);
      DrawBoxesCovers(st, cov, m, ox, oy, oz, bs[..|bs| - 1]);
      DrawRoutineCovers(DrawEntry(ox, oy, oz, p), m, ExactBounds(p), cov, before);
    }
  }

  /** After occlude draws its boxes, each of them, tested with the entry and
      bounds it was drawn with, is hidden. (DrawEntryIsTableEntry: that entry
      is also the BOX_TESTS entry for the same key.) */
  lemma {:induction false} DrawnBoxesAreHidden(st: RasterState, cov: Coverage, m: Matrix, ox: int, oy: int, oz: int,
                                               bs: seq<PackedBox>, k: nat)
    requires k < |bs|
    ensures !TestRoutine(DrawEntry(ox, oy, oz, bs[k]), m, ExactBounds(bs[k]), cov,
                         DrawBoxes(st, cov, m, ox, oy, oz, bs))
    decreases |bs|
  {
    var n := |bs| - 1;
    var p := bs[k];
    var r := DrawEntry(ox, oy, oz, p);
    var before := DrawBoxes(st, cov, m, ox, oy, oz, bs[..n]);
    if k == n {
      DrawnRoutineIsHidden(r, m, ExactBounds(p), cov, before);
    } else {
      assert bs[..n][k] == p;
      DrawnBoxesAreHidden(st, cov, m, ox, oy, oz, bs[..n], k);
      DrawRoutineCovers(DrawEntry(ox, oy, oz, bs[n]), m, ExactBounds(bs[n]), cov, before);
      HiddenStaysHidden(r, m, ExactBounds(p), cov, before, DrawBoxes(st, cov, m, ox, oy, oz, bs));
    }
  }
}

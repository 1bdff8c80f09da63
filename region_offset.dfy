/** prepareRegion's camera-to-region offset: the region origin shifted into
    fixed point as a 32-bit `int`, minus the camera position as a 64-bit
    `long`, narrowed back to `int`. */
module RegionOffset {
  import opened FixedPoint
  import opened Constants

  /** `(int) ((origin << CAMERA_PRECISION_BITS) - view)`. */
  function Offset(origin: int, view: int): (offset: int)
    ensures IsInt32(offset)
  {
    Wrap32(Wrap64(Shl32(origin, CAMERA_PRECISION_BITS) - view))
  }

  /** Whenever the true offset fits in an `int`, the computed one is exact:
      an overflow of the 32-bit shift, or of the 64-bit subtraction, is
      undone by the final narrowing. */
  lemma {:induction false} OffsetIsExact(origin: int, view: int)
    requires IsInt32(origin * CAMERA_PRECISION_UNITY - view)
    ensures Offset(origin, view) == origin * CAMERA_PRECISION_UNITY - view
  {
    var exact := origin * CAMERA_PRECISION_UNITY - view;
    var shifted := Shl32(origin, CAMERA_PRECISION_BITS);
    Shl32IsLowBits(origin, CAMERA_PRECISION_BITS);
    var k := (origin * CAMERA_PRECISION_UNITY + TWO_31) / TWO_32;
    assert shifted == origin * CAMERA_PRECISION_UNITY - k * TWO_32;
    NarrowWrap64(shifted - view);
    Wrap32Congruent(shifted - view, exact, -k);
  }

  /** The offset is the origin's position relative to the camera: moving the
      origin one block moves the offset by one block of fixed-point units. */
  lemma OffsetTracksOrigin(origin: int, view: int)
    requires IsInt32(origin * CAMERA_PRECISION_UNITY - view)
    requires IsInt32((origin + 1) * CAMERA_PRECISION_UNITY - view)
    ensures Offset(origin + 1, view) == Offset(origin, view) + CAMERA_PRECISION_UNITY
  {
    OffsetIsExact(origin, view);
    OffsetIsExact(origin + 1, view);
  }
}

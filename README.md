# Terrain occluder: a verified model

This project models the software occlusion-culling engine of the Canvas renderer, `TerrainOccluder`. Once per frame, the occluder decides whether its tile coverage buffer must be redrawn. It tracks this with an occluder version counter, `forceRedraw` and `needsRedraw` flags, and the view, position and region versions the buffer was drawn against.

Once per region, it computes the fixed-point offset from the camera to the region origin. It then classifies each packed box by the faces the camera can see, and dispatches on that six-bit face mask into one of two 128-entry tables:

- `BOX_TESTS` projects the box's outline corners and asks whether any of one or two quads still covers an open tile;
- `BOX_DRAWS` projects the same corners and marks those quads' tiles occluded.

`occlude` draws a region's boxes from index 1 until the first one whose range band falls below the region's occlusion range. `backfaceVisibilityFlags` is a distance heuristic on the offset alone.

Modules, in dependency order:

- `FixedPoint`: Java `int` and `long` wrap-around, `x << n` on an `int`, and the facts that make the occluder's shifts exact.
- `Constants`: the precision constant, the face bits and the eight corner slots.
- `Rasterizer`: the rasterizer at its boundary:
  - an uninterpreted coverage function gives the tiles a quad covers;
  - `testQuad` asks whether one of them is open;
  - `drawQuad` closes exactly those tiles.
- `BoxTables`: the two dispatch tables as data (setups, then quads), with their test and draw meaning, and the proofs that every entry is well formed and that each draw entry mirrors its test entry.
- `FaceClassification`: the face mask of a box seen from an offset, the padded and exact variants, and the backface heuristic.
- `SceneVersions`: `invalidate` and `prepareScene` as state transitions, with their properties.
- `RegionOffset`: the camera-to-region offset of `prepareRegion`.
- `OccludeScan`: which boxes `occlude` draws and what the buffer holds afterwards.
- `Occluder`: the class `TerrainOccluder`. It holds the occluder's state and its operations, written as methods that update the fields and the tile array in place, each proved against the functions above.

Notes on the code as written:

- `occlude` breaks at the first box whose range is below `occlusionRange`. It draws exactly the in-range boxes when the ranges after index 0 do not increase (`OccludeScan.SortedScanDrawsInRange`).
- In `backfaceVisibilityFlags`, the low-face comparison against `-(72 << CAMERA_PRECISION_BITS)` is only reached when the offset is at least `48 << CAMERA_PRECISION_BITS`, so it always holds. Exactly one face of each opposite pair is set (`FaceClassification.BackfaceMeaning`).

## Model

| member | source | states |
|---|---|---|
| FixedPoint.Wrap32 | src/main/java/grondag/canvas/terrain/occlusion/TerrainOccluder.java:83-85 | An `(int)` narrowing always yields an `int`, and leaves unchanged any value that already fits |
| FixedPoint.Wrap64 | src/main/java/grondag/canvas/terrain/occlusion/TerrainOccluder.java:83-85 | `long` arithmetic always yields a `long`, and leaves unchanged any value that already fits |
| FixedPoint.Shl32IsLowBits | src/main/java/grondag/canvas/terrain/occlusion/TerrainOccluder.java:83 | The `int` shift `x << n` is the low 32 bits of x·2^n |
| FixedPoint.NarrowWrap64 | src/main/java/grondag/canvas/terrain/occlusion/TerrainOccluder.java:83-85 | Narrowing a wrapped `long` to `int` gives the low 32 bits of the exact value |
| FixedPoint.Inc32Step | src/main/java/grondag/canvas/terrain/occlusion/TerrainOccluder.java:74-77 | `incrementAndGet` raises an `int` by exactly one, except that INT_MAX wraps to INT_MIN |
| FixedPoint.ShiftIsExact | src/main/java/grondag/canvas/terrain/occlusion/TerrainOccluder.java:209-224 | For a precision of at most 16 bits and a value of magnitude at most 2^14, the `int` shift and its negation equal exact multiplication by 2^bits |
| Constants.FaceBitsWellFormed | src/main/java/grondag/canvas/terrain/occlusion/TerrainOccluder.java:369-370 | UP, DOWN, EAST, WEST, NORTH and SOUTH are distinct single bits whose union indexes inside a 128-entry table |
| Constants.SlotIndexInjective | src/main/java/grondag/canvas/terrain/occlusion/TerrainOccluder.java:377-383 | Distinct corners have distinct vertex slots |
| Rasterizer.ClearedTiles | src/main/java/grondag/canvas/terrain/occlusion/TerrainOccluder.java:165 | The buffer copied from EMPTY_BITS has the buffer's length |
| Rasterizer.MarkQuadExactly | src/main/java/grondag/canvas/terrain/occlusion/TerrainOccluder.java:656-662 | `drawQuad` closes exactly the tiles the quad covers and reopens none |
| Rasterizer.DrawnQuadIsHidden | src/main/java/grondag/canvas/terrain/occlusion/TerrainOccluder.java:656-662 | After `drawQuad`, `testQuad` on the same quad finds no open tile |
| Rasterizer.ClearedBufferShowsEveryQuad | src/main/java/grondag/canvas/terrain/occlusion/TerrainOccluder.java:165 | On a cleared buffer, `testQuad` is true exactly when the quad covers some tile |
| BoxTables.LookupFinds | src/main/java/grondag/canvas/terrain/occlusion/TerrainOccluder.java:369-370 | A key some table entry carries selects that entry's routine |
| BoxTables.LookupMisses | src/main/java/grondag/canvas/terrain/occlusion/TerrainOccluder.java:369-370 | A key no entry carries selects nothing |
| BoxTables.TableShape | src/main/java/grondag/canvas/terrain/occlusion/TerrainOccluder.java:373-926 | Both tables are populated at the 27 visible-face keys, in source order, and BOX_DRAWS holds, key by key, the same setups and quads as BOX_TESTS |
| BoxTables.AllEntriesWellFormed | src/main/java/grondag/canvas/terrain/occlusion/TerrainOccluder.java:373-648 | Every populated entry is well formed for its key (the 27 lemmas below) |
| BoxTables.NoFaceEntryWellFormed | src/main/java/grondag/canvas/terrain/occlusion/TerrainOccluder.java:373-375 | The entry at key 0 sets up nothing and has no quads |
| BoxTables.UpEntryWellFormed | src/main/java/grondag/canvas/terrain/occlusion/TerrainOccluder.java:377-383 | The UP entry sets up the four corners of the UP face, each once and into its own slot, and has one proper quad over them |
| BoxTables.DownEntryWellFormed | src/main/java/grondag/canvas/terrain/occlusion/TerrainOccluder.java:385-391 | The DOWN entry sets up the four corners of the DOWN face, each once and into its own slot, and has one proper quad over them |
| BoxTables.EastEntryWellFormed | src/main/java/grondag/canvas/terrain/occlusion/TerrainOccluder.java:393-399 | The EAST entry sets up the four corners of the EAST face, each once and into its own slot, and has one proper quad over them |
| BoxTables.WestEntryWellFormed | src/main/java/grondag/canvas/terrain/occlusion/TerrainOccluder.java:401-407 | The WEST entry sets up the four corners of the WEST face, each once and into its own slot, and has one proper quad over them |
| BoxTables.NorthEntryWellFormed | src/main/java/grondag/canvas/terrain/occlusion/TerrainOccluder.java:409-415 | The NORTH entry sets up the four corners of the NORTH face, each once and into its own slot, and has one proper quad over them |
| BoxTables.SouthEntryWellFormed | src/main/java/grondag/canvas/terrain/occlusion/TerrainOccluder.java:417-423 | The SOUTH entry sets up the four corners of the SOUTH face, each once and into its own slot, and has one proper quad over them |
| BoxTables.UpEastEntryWellFormed | src/main/java/grondag/canvas/terrain/occlusion/TerrainOccluder.java:426-435 | The UP+EAST entry sets up the six corners of the two visible faces, each once and into its own slot, and has two proper quads over slots it sets up |
| BoxTables.UpWestEntryWellFormed | src/main/java/grondag/canvas/terrain/occlusion/TerrainOccluder.java:437-446 | The UP+WEST entry sets up the six corners of the two visible faces, each once and into its own slot, and has two proper quads over slots it sets up |
| BoxTables.UpNorthEntryWellFormed | src/main/java/grondag/canvas/terrain/occlusion/TerrainOccluder.java:448-457 | The UP+NORTH entry sets up the six corners of the two visible faces, each once and into its own slot, and has two proper quads over slots it sets up |
| BoxTables.UpSouthEntryWellFormed | src/main/java/grondag/canvas/terrain/occlusion/TerrainOccluder.java:459-468 | The UP+SOUTH entry sets up the six corners of the two visible faces, each once and into its own slot, and has two proper quads over slots it sets up |
| BoxTables.DownEastEntryWellFormed | src/main/java/grondag/canvas/terrain/occlusion/TerrainOccluder.java:470-479 | The DOWN+EAST entry sets up the six corners of the two visible faces, each once and into its own slot, and has two proper quads over slots it sets up |
| BoxTables.DownWestEntryWellFormed | src/main/java/grondag/canvas/terrain/occlusion/TerrainOccluder.java:481-490 | The DOWN+WEST entry sets up the six corners of the two visible faces, each once and into its own slot, and has two proper quads over slots it sets up |
| BoxTables.DownNorthEntryWellFormed | src/main/java/grondag/canvas/terrain/occlusion/TerrainOccluder.java:492-501 | The DOWN+NORTH entry sets up the six corners of the two visible faces, each once and into its own slot, and has two proper quads over slots it sets up |
| BoxTables.DownSouthEntryWellFormed | src/main/java/grondag/canvas/terrain/occlusion/TerrainOccluder.java:503-512 | The DOWN+SOUTH entry sets up the six corners of the two visible faces, each once and into its own slot, and has two proper quads over slots it sets up |
| BoxTables.NorthEastEntryWellFormed | src/main/java/grondag/canvas/terrain/occlusion/TerrainOccluder.java:514-523 | The NORTH+EAST entry sets up the six corners of the two visible faces, each once and into its own slot, and has two proper quads over slots it sets up |
| BoxTables.NorthWestEntryWellFormed | src/main/java/grondag/canvas/terrain/occlusion/TerrainOccluder.java:525-534 | The NORTH+WEST entry sets up the six corners of the two visible faces, each once and into its own slot, and has two proper quads over slots it sets up |
| BoxTables.SouthEastEntryWellFormed | src/main/java/grondag/canvas/terrain/occlusion/TerrainOccluder.java:536-545 | The SOUTH+EAST entry sets up the six corners of the two visible faces, each once and into its own slot, and has two proper quads over slots it sets up |
| BoxTables.SouthWestEntryWellFormed | src/main/java/grondag/canvas/terrain/occlusion/TerrainOccluder.java:547-556 | The SOUTH+WEST entry sets up the six corners of the two visible faces, each once and into its own slot, and has two proper quads over slots it sets up |
| BoxTables.UpEastNorthEntryWellFormed | src/main/java/grondag/canvas/terrain/occlusion/TerrainOccluder.java:560-569 | The UP+EAST+NORTH entry sets up the six outline corners, each once and into its own slot, never the nearest corner V110, and has two proper quads over slots it sets up |
| BoxTables.UpWestNorthEntryWellFormed | src/main/java/grondag/canvas/terrain/occlusion/TerrainOccluder.java:571-582 | The UP+WEST+NORTH entry sets up the six outline corners, each once and into its own slot, never the nearest corner V010, and has two proper quads over slots it sets up |
| BoxTables.UpEastSouthEntryWellFormed | src/main/java/grondag/canvas/terrain/occlusion/TerrainOccluder.java:584-593 | The UP+EAST+SOUTH entry sets up the six outline corners, each once and into its own slot, never the nearest corner V111, and has two proper quads over slots it sets up |
| BoxTables.UpWestSouthEntryWellFormed | src/main/java/grondag/canvas/terrain/occlusion/TerrainOccluder.java:595-604 | The UP+WEST+SOUTH entry sets up the six outline corners, each once and into its own slot, never the nearest corner V011, and has two proper quads over slots it sets up |
| BoxTables.DownEastNorthEntryWellFormed | src/main/java/grondag/canvas/terrain/occlusion/TerrainOccluder.java:606-615 | The DOWN+EAST+NORTH entry sets up the six outline corners, each once and into its own slot, never the nearest corner V100, and has two proper quads over slots it sets up |
| BoxTables.DownWestNorthEntryWellFormed | src/main/java/grondag/canvas/terrain/occlusion/TerrainOccluder.java:617-626 | The DOWN+WEST+NORTH entry sets up the six outline corners, each once and into its own slot, never the nearest corner V000, and has two proper quads over slots it sets up |
| BoxTables.DownEastSouthEntryWellFormed | src/main/java/grondag/canvas/terrain/occlusion/TerrainOccluder.java:628-637 | The DOWN+EAST+SOUTH entry sets up the six outline corners, each once and into its own slot, never the nearest corner V101, and has two proper quads over slots it sets up |
| BoxTables.DownWestSouthEntryWellFormed | src/main/java/grondag/canvas/terrain/occlusion/TerrainOccluder.java:639-648 | The DOWN+WEST+SOUTH entry sets up the six outline corners, each once and into its own slot, never the nearest corner V001, and has two proper quads over slots it sets up |
| BoxTables.TablesWellFormed | src/main/java/grondag/canvas/terrain/occlusion/TerrainOccluder.java:369-926 | A key has an entry if and only if it is one of the 27 visible-face keys. Every populated entry is well formed: outline corners only, each set up once into its own slot; 4 or 6 setups; one quad per face up to two; each quad a proper quad over slots the entry sets up. Each draw entry equals the test entry for its key |
| BoxTables.BoxSlots | src/main/java/grondag/canvas/terrain/occlusion/TerrainOccluder.java:377-383 | The slots of a fully projected box hold each corner's vertex in that corner's own slot |
| BoxTables.ApplySetupsLoads | src/main/java/grondag/canvas/terrain/occlusion/TerrainOccluder.java:377-383 | Whatever the slots held before, a setup that loads corner c into its own slot leaves that slot holding c's vertex after all the entry's setups |
| BoxTables.MarkQuadsExactly | src/main/java/grondag/canvas/terrain/occlusion/TerrainOccluder.java:917-926 | Drawing an entry's quads in order closes exactly the tiles some quad covers and reopens none |
| BoxTables.RoutineQuadsSeeBox | src/main/java/grondag/canvas/terrain/occlusion/TerrainOccluder.java:373-648 | After the setups of an entry that loads its quads' corners, each quad covers the same tiles as over the box's true corners |
| BoxTables.RoutineMeaning | src/main/java/grondag/canvas/terrain/occlusion/TerrainOccluder.java:373-926 | Such an entry's test is true if and only if some quad over the box's true corners covers an open tile. Its draw marks exactly those quads' tiles. Neither depends on earlier slot contents |
| BoxTables.BoxEntryMeaning | src/main/java/grondag/canvas/terrain/occlusion/TerrainOccluder.java:373-926 | The above, for the BOX_TESTS and BOX_DRAWS entries of every populated key |
| BoxTables.MarkQuadsAgree | src/main/java/grondag/canvas/terrain/occlusion/TerrainOccluder.java:656-926 | Quads that cover the same tiles under two slot contents mark the same buffer |
| BoxTables.DrawnQuadsAreHidden | src/main/java/grondag/canvas/terrain/occlusion/TerrainOccluder.java:917-926 | After an entry's quads are drawn, none of them covers an open tile |
| BoxTables.DrawnRoutineIsHidden | src/main/java/grondag/canvas/terrain/occlusion/TerrainOccluder.java:373-926 | Testing an entry right after drawing it on the same bounds returns false |
| BoxTables.DrawnBoxIsHidden | src/main/java/grondag/canvas/terrain/occlusion/TerrainOccluder.java:373-926 | For every populated key, the BOX_TESTS entry tested right after the BOX_DRAWS entry was drawn on the same bounds returns false |
| BoxTables.EmptyKeyIsNoOp | src/main/java/grondag/canvas/terrain/occlusion/TerrainOccluder.java:373-375 | Key 0's test returns false, and its draw (lines 652-654) changes neither the buffer nor the slots |
| FaceClassification.PaddedBounds | src/main/java/grondag/canvas/terrain/occlusion/TerrainOccluder.java:195-200 | isBoxVisible's bounds lie strictly outside the box on every side |
| FaceClassification.PlaneIsJavaShift | src/main/java/grondag/canvas/terrain/occlusion/TerrainOccluder.java:209-224 | For SmallCoord bounds, padded by one or not, `-(c << CAMERA_PRECISION_BITS)` on an `int` equals the exact plane value the model classifies with |
| FaceClassification.AxisFaceMeaning | src/main/java/grondag/canvas/terrain/occlusion/TerrainOccluder.java:209-213 | On one axis, the high face shows if and only if the camera is beyond the high plane, the low face if and only if it is beyond the low plane, and neither if and only if the camera is between them |
| FaceClassification.AxisBits | src/main/java/grondag/canvas/terrain/occlusion/TerrainOccluder.java:206-225 | Each face bit of a mask built one axis at a time is set exactly when that axis chose that face |
| FaceClassification.FaceKeyOfAxes | src/main/java/grondag/canvas/terrain/occlusion/TerrainOccluder.java:206-225 | At most one face from each axis always gives one of the 27 populated keys |
| FaceClassification.FaceKeyIsPopulated | src/main/java/grondag/canvas/terrain/occlusion/TerrainOccluder.java:206-227 | For every offset and bounds, the face mask is one of the 27 populated keys, so both table lookups find an entry |
| FaceClassification.KeysArePopulated | src/main/java/grondag/canvas/terrain/occlusion/TerrainOccluder.java:194-267 | The padded key of isBoxVisible and the exact key of occludeInner both select a populated entry |
| FaceClassification.DrawEntry | src/main/java/grondag/canvas/terrain/occlusion/TerrainOccluder.java:267 | The entry occludeInner runs loads every corner its quads read |
| FaceClassification.DrawEntryIsTableEntry | src/main/java/grondag/canvas/terrain/occlusion/TerrainOccluder.java:267 | That entry is what both BOX_DRAWS and BOX_TESTS hold at the box's exact key |
| FaceClassification.FaceKeyMeaning | src/main/java/grondag/canvas/terrain/occlusion/TerrainOccluder.java:246-265 | Each of the six face bits is set if and only if the camera lies strictly beyond that face's plane |
| FaceClassification.InsideBoxSeesNoFace | src/main/java/grondag/canvas/terrain/occlusion/TerrainOccluder.java:246-267 | The key is 0 if and only if the camera lies inside the closed box |
| FaceClassification.PaddedAxisFace | src/main/java/grondag/canvas/terrain/occlusion/TerrainOccluder.java:195-213 | On one axis, padding by one can only hide a face: it yields no face or the exact one |
| FaceClassification.PaddedFacesAreExactFaces | src/main/java/grondag/canvas/terrain/occlusion/TerrainOccluder.java:194-265 | For an ordered box, every face in isBoxVisible's padded key is also in occludeInner's exact key |
| FaceClassification.BackfaceMeaning | src/main/java/grondag/canvas/terrain/occlusion/TerrainOccluder.java:340-356 | The high face of each axis is flagged if and only if the offset is below 48 blocks; otherwise the low face is. Exactly three flags are set |
| SceneVersions.InvalidateBumpsOnce | src/main/java/grondag/canvas/terrain/occlusion/TerrainOccluder.java:74-77 | `invalidate()` raises the version by exactly one (wrapping at INT_MAX), sets `forceRedraw`, and changes nothing else |
| SceneVersions.InvalidateIfMatches | src/main/java/grondag/canvas/terrain/occlusion/TerrainOccluder.java:65-69 | `invalidate(v)` acts as `invalidate()` when the version is v, and changes nothing otherwise |
| SceneVersions.PrepareSceneSynchronizes | src/main/java/grondag/canvas/terrain/occlusion/TerrainOccluder.java:161-181 | In every branch, the stored view, position and region versions end equal to the supplied ones and `forceRedraw` ends false. `needsRedraw` is set if and only if the redraw was forced or some version changed |
| SceneVersions.PrepareSceneVersion | src/main/java/grondag/canvas/terrain/occlusion/TerrainOccluder.java:161-181 | The occluder version changes if and only if the redraw was not forced and the position or region version changed, and then by exactly one step |
| SceneVersions.PrepareSceneIdempotent | src/main/java/grondag/canvas/terrain/occlusion/TerrainOccluder.java:137-184 | A second `prepareScene` with the same input clears `needsRedraw` and changes nothing else |
| SceneVersions.InvalidateThenPrepare | src/main/java/grondag/canvas/terrain/occlusion/TerrainOccluder.java:161-174 | `invalidate()` followed by `prepareScene` bumps the version exactly once and redraws, even if the position also changed |
| RegionOffset.Offset | src/main/java/grondag/canvas/terrain/occlusion/TerrainOccluder.java:83-85 | The computed offset is always an `int` |
| RegionOffset.OffsetIsExact | src/main/java/grondag/canvas/terrain/occlusion/TerrainOccluder.java:83-85 | Whenever the true offset fits in an `int`, the computed one equals origin·2^bits − view, despite any overflow of the shift or of the `long` subtraction |
| RegionOffset.OffsetTracksOrigin | src/main/java/grondag/canvas/terrain/occlusion/TerrainOccluder.java:83-85 | Moving the origin by one block moves the offset by one block of fixed-point units |
| OccludeScan.ScanEnd | src/main/java/grondag/canvas/terrain/occlusion/TerrainOccluder.java:275-279 | The scan stops at the first index whose range is below the occlusion range, or at the end. Every box before it is in range |
| OccludeScan.OccluderBoxes | src/main/java/grondag/canvas/terrain/occlusion/TerrainOccluder.java:270-284 | `occlude` draws nothing for arrays of length at most one and never draws index 0. It draws boxes 1, 2, … in order, each in range, up to the first box whose range is below the occlusion range |
| OccludeScan.SortedScanDrawsInRange | src/main/java/grondag/canvas/terrain/occlusion/TerrainOccluder.java:270-284 | With ranges non-increasing after index 0, box k is drawn if and only if its range reaches the occlusion range |
| OccludeScan.DrawBox | src/main/java/grondag/canvas/terrain/occlusion/TerrainOccluder.java:234-267 | occludeInner keeps the buffer's size |
| OccludeScan.DrawBoxes | src/main/java/grondag/canvas/terrain/occlusion/TerrainOccluder.java:275-282 | Drawing a sequence of boxes keeps the buffer's size |
| OccludeScan.DrawBoxesStep | src/main/java/grondag/canvas/terrain/occlusion/TerrainOccluder.java:275-282 | Drawing one more box extends the drawing of the boxes before it |
| OccludeScan.ScanContinues | src/main/java/grondag/canvas/terrain/occlusion/TerrainOccluder.java:277-281 | A box in range moves the scan past it |
| OccludeScan.ScanEndAt | src/main/java/grondag/canvas/terrain/occlusion/TerrainOccluder.java:277-278 | A box below the range ends the scan at its index |
| OccludeScan.ScanStopsAt | src/main/java/grondag/canvas/terrain/occlusion/TerrainOccluder.java:275-283 | The boxes drawn are those between index 1 and the stopping point |
| OccludeScan.DrawRoutineCovers | src/main/java/grondag/canvas/terrain/occlusion/TerrainOccluder.java:267 | Drawing a box never reopens a tile |
| OccludeScan.HiddenStaysHidden | src/main/java/grondag/canvas/terrain/occlusion/TerrainOccluder.java:227 | A box whose test finds nothing open stays hidden as more tiles close |
| OccludeScan.DrawBoxesCovers | src/main/java/grondag/canvas/terrain/occlusion/TerrainOccluder.java:270-284 | `occlude` never reopens a tile |
| OccludeScan.DrawnBoxesAreHidden | src/main/java/grondag/canvas/terrain/occlusion/TerrainOccluder.java:270-284 | After a sequence of boxes is drawn, each of them, tested with the entry and bounds it was drawn with, is hidden |
| Occluder.TerrainOccluder.Version | src/main/java/grondag/canvas/terrain/occlusion/TerrainOccluder.java:57-59 | Returns the current occluder version |
| Occluder.TerrainOccluder.NeedsRedraw | src/main/java/grondag/canvas/terrain/occlusion/TerrainOccluder.java:186-188 | Returns whether the last `prepareScene` asked for a redraw |
| Occluder.TerrainOccluder.Invalidate | src/main/java/grondag/canvas/terrain/occlusion/TerrainOccluder.java:74-77 | The new version state is SceneVersions.Invalidated of the old one, the version stays a Java `int`, and the per-region state is unchanged |
| Occluder.TerrainOccluder.InvalidateIf | src/main/java/grondag/canvas/terrain/occlusion/TerrainOccluder.java:65-69 | The new version state is SceneVersions.InvalidatedIf of the old one, the version stays a Java `int`, and the per-region state is unchanged |
| Occluder.TerrainOccluder.ClearTiles | src/main/java/grondag/canvas/terrain/occlusion/TerrainOccluder.java:165 | Every tile of the buffer is open afterwards |
| Occluder.TerrainOccluder.PrepareScene | src/main/java/grondag/canvas/terrain/occlusion/TerrainOccluder.java:137-184 | The version state follows SceneVersions.PreparedScene, and the version stays a Java `int`. The buffer is cleared exactly when `needsRedraw` ends true and is untouched otherwise. The base matrix and camera position are rebuilt if and only if the view version changed |
| Occluder.TerrainOccluder.RebuildView | src/main/java/grondag/canvas/terrain/occlusion/TerrainOccluder.java:141-159 | The base matrix becomes projection times model, and the camera position is replaced |
| Occluder.TerrainOccluder.SyncVersions | src/main/java/grondag/canvas/terrain/occlusion/TerrainOccluder.java:161-181 | The four branches: versions follow PreparedScene, and the buffer is cleared exactly when `needsRedraw` is set |
| Occluder.TerrainOccluder.PrepareRegion | src/main/java/grondag/canvas/terrain/occlusion/TerrainOccluder.java:79-90 | Stores the occlusion range and the three fixed-point offsets, and sets the working matrix to the base matrix translated by them. Version state unchanged |
| Occluder.TerrainOccluder.RunSetups | src/main/java/grondag/canvas/terrain/occlusion/TerrainOccluder.java:377-383 | The slots after an entry's setups, in order |
| Occluder.TerrainOccluder.TestQuad | src/main/java/grondag/canvas/terrain/occlusion/TerrainOccluder.java:377-383 | `testQuad` reports whether the quad covers an open tile |
| Occluder.TerrainOccluder.DrawQuad | src/main/java/grondag/canvas/terrain/occlusion/TerrainOccluder.java:656-662 | `drawQuad` marks the quad's tiles |
| Occluder.TerrainOccluder.TestQuads | src/main/java/grondag/canvas/terrain/occlusion/TerrainOccluder.java:639-648 | The short-circuiting OR of `testQuad` calls is true if and only if some quad covers an open tile |
| Occluder.TerrainOccluder.DrawQuads | src/main/java/grondag/canvas/terrain/occlusion/TerrainOccluder.java:917-926 | Every quad is drawn, in order |
| Occluder.TerrainOccluder.IsBoxVisible | src/main/java/grondag/canvas/terrain/occlusion/TerrainOccluder.java:194-228 | Runs the BOX_TESTS entry of the padded box's key, which always exists. The buffer is unchanged. The vertex slots hold that entry's setups applied to the padded bounds. The result is the entry's test meaning (BoxTables.RoutineMeaning) |
| Occluder.TerrainOccluder.OccludeInner | src/main/java/grondag/canvas/terrain/occlusion/TerrainOccluder.java:234-268 | The buffer and slots become OccludeScan.DrawBox of the exact box |
| Occluder.TerrainOccluder.OccludeNext | src/main/java/grondag/canvas/terrain/occlusion/TerrainOccluder.java:275-282 | One loop step extends the drawing of the boxes before it |
| Occluder.TerrainOccluder.Occlude | src/main/java/grondag/canvas/terrain/occlusion/TerrainOccluder.java:270-284 | The buffer and slots become the drawing of exactly OccludeScan.OccluderBoxes, in order |
| Occluder.TerrainOccluder.BackfaceVisibilityFlags | src/main/java/grondag/canvas/terrain/occlusion/TerrainOccluder.java:292-358 | Reads only the stored offsets and always sets exactly three flags, one of each opposite pair |

## Left out

- `outputRaster`: it is wall-clock rate limiting, image construction, asynchronous file writing and logging, all I/O.
- Matrix arithmetic: `Matrix4L`/`Matrix4fExt` are not part of this model.
  - Matrices are symbolic values (identity, a float source matrix, a product, a translation).
  - `prepareScene` records that the base matrix is rebuilt, and from what.
  - `prepareRegion` records that the working matrix is the base matrix translated by the offset.
- Camera rounding: `Math.round(pos * CAMERA_PRECISION_UNITY)` on doubles is left out. `PrepareScene` receives the already-rounded camera position.
- Rasterizer internals: projection, clipping and scan conversion (`setupVertex`, `testQuad`, `drawQuad`, `testPixel`) are not part of this model.
  - A vertex is symbolic: the matrix plus the corner.
  - The tiles a quad covers come from an uninterpreted coverage function.
  - The buffer is one flag per tile rather than bits packed into `long` words.
- Atomicity of `occluderVersion` (`compareAndSet`, `incrementAndGet`): the version is a plain sequential counter.
- `PackedBox` bit layout: a box is its accessor values (six bounds and a range band).
- Face bits: `Constants.java` is not part of this model. UP=1, DOWN=2, EAST=4, WEST=8, NORTH=16, SOUTH=32 are this model's choice of distinct single bits below 128 (`Constants.FaceBitsWellFormed`).
- FaceClassification.AxisFace: bounds are classified exactly, against the plane `-(c·2^bits)` rather than the wrapping `int` shift.
  - `PlaneIsJavaShift` proves the two equal for every SmallCoord bound, padded by one or not. SmallCoord (0 to 2^14 - 1) is a range this model chooses, wide enough for region-relative block coordinates; the packed-box layout is not part of this model.
  - For larger bounds the source's shift wraps and the model's classification differs from it (for example, with 16 precision bits and x1 = 2^16, the source's `-(x1 << 16)` is 0 where the model's plane is -2^32). `PackedBox` does not restrict its bounds to SmallCoord.
- BOX_TESTS and BOX_DRAWS are not stored as 128-entry arrays of lambdas: each table is a list of (key, setups, quads) entries read by lookup, and an unpopulated key yields no entry rather than a null.
  - The entries' setups and quads are transcribed from the source, line by line.
- OccludeScan.DrawnBoxesAreHidden: it states "drawn, then tested, is hidden" for the same box and the same bounds. An end-to-end property (an enclosing occluder hides a sub-box) needs the geometry of coverage, which is uninterpreted here.
- OccludeScan.DrawnBoxesAreHidden: it is stated over the entry occludeInner runs. `DrawEntryIsTableEntry` shows that entry is also the BOX_TESTS entry at the same key. isBoxVisible itself uses the padded key, whose faces are a subset of the exact key's (`PaddedFacesAreExactFaces`).
- CAMERA_PRECISION_BITS: its value is left open in 0..16. Every result holds for each such precision.

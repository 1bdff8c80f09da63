/** The occluder's versioning protocol as pure state transitions: the
    occluder version counter, the forceRedraw and needsRedraw flags, and the
    view, position and region versions the tile buffer was last drawn
    against. The tile buffer itself is cleared exactly when a transition
    sets needsRedraw (see TerrainOccluder.PrepareScene). */
module SceneVersions {
  import opened FixedPoint

  datatype SceneState = SceneState(
    occluderVersion: int,
    forceRedraw: bool,
    needsRedraw: bool,
    viewVersion: int,
    positionVersion: int,
    regionVersion: int)

  /** What the frustum and the scene supply to prepareScene each frame. */
  datatype SceneInput = SceneInput(viewVersion: int, positionVersion: int, regionVersion: int)

  /** invalidate(): bump the version and force the next redraw. */
  function Invalidated(s: SceneState): SceneState {
    s.(occluderVersion := Inc32(s.occluderVersion), forceRedraw := true)
  }

  /** invalidate(v): the same, but only when the version is still `v`
      (a compare-and-set of `v` to `v + 1`). */
  function InvalidatedIf(s: SceneState, v: int): SceneState {
    if s.occluderVersion == v then s.(occluderVersion := Inc32(v), forceRedraw := true) else s
  }

  /** The stored versions adopted from an input. */
  function Adopt(s: SceneState, i: SceneInput): SceneState {
    s.(viewVersion := i.viewVersion, positionVersion := i.positionVersion, regionVersion := i.regionVersion)
  }

  /** prepareScene's four branches. */
  function PreparedScene(s: SceneState, i: SceneInput): SceneState {
    if s.forceRedraw then
      Adopt(s, i).(forceRedraw := false, needsRedraw := true)
    else if s.positionVersion != i.positionVersion || s.regionVersion != i.regionVersion then
      Adopt(s, i).(occluderVersion := Inc32(s.occluderVersion), needsRedraw := true)
    else if s.viewVersion != i.viewVersion then
      s.(viewVersion := i.viewVersion, needsRedraw := true)
    else
      s.(needsRedraw := false)
  }

  /** The input differs from what the buffer was drawn against. */
  predicate Stale(s: SceneState, i: SceneInput) {
    s.viewVersion != i.viewVersion || s.positionVersion != i.positionVersion || s.regionVersion != i.regionVersion
  }

  /** invalidate() raises the version by exactly one (wrapping only at the
      largest `int`) and forces a redraw, changing nothing else. */
  lemma InvalidateBumpsOnce(s: SceneState)
    requires IsInt32(s.occluderVersion)
    ensures s.occluderVersion < INT_MAX ==> Invalidated(s).occluderVersion == s.occluderVersion + 1
    ensures s.occluderVersion == INT_MAX ==> Invalidated(s).occluderVersion == INT_MIN
    ensures Invalidated(s).forceRedraw
    ensures Invalidated(s).(occluderVersion := s.occluderVersion, forceRedraw := s.forceRedraw) == s
  {
    Inc32Step(s.occluderVersion);
  }

  /** invalidate(v) acts as invalidate() when `v` is current, and is
      ignored otherwise. */
  lemma InvalidateIfMatches(s: SceneState, v: int)
    ensures s.occluderVersion == v ==> InvalidatedIf(s, v) == Invalidated(s)
    ensures s.occluderVersion != v ==> InvalidatedIf(s, v) == s
  {
  }

  /** Whatever branch runs, prepareScene leaves the stored versions equal
      to the supplied ones, clears forceRedraw, and asks for a redraw
      exactly when it was forced or some version changed. */
  lemma PrepareSceneSynchronizes(s: SceneState, i: SceneInput)
    ensures var r := PreparedScene(s, i);
            r.viewVersion == i.viewVersion && r.positionVersion == i.positionVersion &&
            r.regionVersion == i.regionVersion
    ensures !PreparedScene(s, i).forceRedraw
    ensures PreparedScene(s, i).needsRedraw <==> s.forceRedraw || Stale(s, i)
  {
  }

  /** The occluder version moves only on an unforced change of position or
      region, and then by exactly one step. */
  lemma PrepareSceneVersion(s: SceneState, i: SceneInput)
    requires IsInt32(s.occluderVersion)
    ensures var bumped := !s.forceRedraw && (s.positionVersion != i.positionVersion || s.regionVersion != i.regionVersion);
            && (bumped ==> PreparedScene(s, i).occluderVersion == Inc32(s.occluderVersion))
            && (!bumped ==> PreparedScene(s, i).occluderVersion == s.occluderVersion)
    ensures PreparedScene(s, i).occluderVersion != s.occluderVersion <==>
            !s.forceRedraw && (s.positionVersion != i.positionVersion || s.regionVersion != i.regionVersion)
  {
    Inc32Step(s.occluderVersion);
  }

  /** A second prepareScene with the same input finds nothing to redraw and
      changes nothing else. */
  lemma PrepareSceneIdempotent(s: SceneState, i: SceneInput)
    ensures var r := PreparedScene(s, i);
            PreparedScene(r, i) == r.(needsRedraw := false)
  {
  }

  /** invalidate() followed by prepareScene bumps the version exactly once,
      even when the position or region changed as well: the forced branch
      redraws without a second bump. */
  lemma InvalidateThenPrepare(s: SceneState, i: SceneInput)
    ensures PreparedScene(Invalidated(s), i).occluderVersion == Inc32(s.occluderVersion)
    ensures PreparedScene(Invalidated(s), i).needsRedraw
    ensures !PreparedScene(Invalidated(s), i).forceRedraw
  {
  }
}

/**
 * The 3D app (face-landmarks-detection/js/main.js): a textured plane in a
 * three.js scene is placed on the face mesh that MediaPipe FaceMesh
 * reports, frame by frame.
 *
 * Modelled here: the click handlers that change the manual offset and the
 * active sticker, the per-sticker settings table, the remap of detector
 * coordinates into scene coordinates, the linear part of the normal-vector
 * construction, and the step-by-step placement of the plane in
 * updateDecoMesh.  Math.atan2, Math.sin, Math.hypot, Vector3.normalize and
 * Quaternion.setFromUnitVectors are not computed: their results come in as
 * a Measures value whose fit to the keypoints is stated by MeasuresFit.
 */
module LandmarksApp {

  import opened Optional
  import opened Geometry
  import opened Controls

  // ---------------------------------------------------------------------
  // Manual offset: the position buttons and the sticker buttons
  // ---------------------------------------------------------------------

  /**
   * One click on a position button in the 3D app.  "top" raises and
   * "bottom" lowers the sticker; "right" moves it towards negative x and
   * "left" towards positive x.  Any other value changes nothing.
   */
  function Nudge(s: OffsetState, position: string): (r: OffsetState)
    ensures r.currentDeco == s.currentDeco
    ensures position == "top" ==> r.positionX == s.positionX && r.positionY == s.positionY + NudgeStep
    ensures position == "bottom" ==> r.positionX == s.positionX && r.positionY == s.positionY - NudgeStep
    ensures position == "right" ==> r.positionX == s.positionX - NudgeStep && r.positionY == s.positionY
    ensures position == "left" ==> r.positionX == s.positionX + NudgeStep && r.positionY == s.positionY
    ensures position !in Directions ==> r == s
  {
    if position == "top" then s.(positionY := s.positionY + NudgeStep)
    else if position == "bottom" then s.(positionY := s.positionY - NudgeStep)
    else if position == "right" then s.(positionX := s.positionX - NudgeStep)
    else if position == "left" then s.(positionX := s.positionX + NudgeStep)
    else s
  }

  /** The state after a series of clicks on position buttons, first click first. */
  function NudgeAll(s: OffsetState, cmds: seq<string>): OffsetState
  {
    if cmds == [] then s
    else Nudge(NudgeAll(s, cmds[..|cmds| - 1]), cmds[|cmds| - 1])
  }

  /**
   * The offset after any series of clicks is the start offset plus one
   * step per "left" and minus one per "right" along x, plus one per "top"
   * and minus one per "bottom" along y; the sticker never changes.
   */
  lemma {:induction false} NudgeAllTotals(s: OffsetState, cmds: seq<string>)
    ensures NudgeAll(s, cmds) == OffsetState(
      s.positionX + NudgeStep * (Count(cmds, "left") - Count(cmds, "right")) as real,
      s.positionY + NudgeStep * (Count(cmds, "top") - Count(cmds, "bottom")) as real,
      s.currentDeco)
  {
    if cmds != [] {
      NudgeAllTotals(s, cmds[..|cmds| - 1]);
    }
  }

  /**
   * Choosing a sticker and then clicking "top" n times leaves the offset
   * at (0, 5n), whatever offset had been accumulated before.
   */
  lemma TopNudgesAfterSelect(s: OffsetState, deco: string, n: nat)
    ensures NudgeAll(Select(s, deco), Repeat("top", n)) == OffsetState(0.0, NudgeStep * n as real, deco)
  {
    var cmds := Repeat("top", n);
    NudgeAllTotals(Select(s, deco), cmds);
    CountRepeat("top", "top", n);
    CountRepeat("top", "bottom", n);
    CountRepeat("top", "left", n);
    CountRepeat("top", "right", n);
  }

  /** The module-level variables positionX, positionY and currentDeco. */
  class StickerControls {
    var positionX: real
    var positionY: real
    var currentDeco: string

    function State(): OffsetState
      reads this
    {
      OffsetState(positionX, positionY, currentDeco)
    }

    constructor ()
      ensures State() == Initial
    {
      positionX := 0.0;
      positionY := 0.0;
      currentDeco := DefaultDeco;
    }

    /**
     * A click on a sticker button: reset the offset, switch the sticker
     * and rebuild the plane for it.  For an id without settings the
     * source fails while building the plane, after the state has changed;
     * here no plane is returned.
     */
    method ClickDeco(deco: string) returns (mesh: DecoMesh?)
      modifies this
      ensures State() == Select(old(State()), deco)
      ensures mesh != null <==> DecoSettings(deco).Some?
      ensures mesh != null ==> fresh(mesh) && mesh.Built(DecoSettings(deco).value)
    {
      positionX := 0.0;
      positionY := 0.0;
      currentDeco := deco;
      var settings := DecoSettings(deco);
      if settings.Some? {
        mesh := new DecoMesh(settings.value);
      } else {
        mesh := null;
      }
    }

    /** A click on a position button. */
    method ClickPosition(position: string)
      modifies this
      ensures State() == Nudge(old(State()), position)
    {
      if position == "top" {
        positionY := positionY + NudgeStep;
      } else if position == "bottom" {
        positionY := positionY - NudgeStep;
      } else if position == "right" {
        positionX := positionX - NudgeStep;
      } else if position == "left" {
        positionX := positionX + NudgeStep;
      }
    }
  }

  // ---------------------------------------------------------------------
  // Per-sticker settings
  // ---------------------------------------------------------------------

  /**
   * The settings of one sticker: the plane's size, the index of the mesh
   * keypoint it is anchored to, and a fixed shift in scene units.
   */
  datatype Settings = Settings(scale: real, basePoint: nat, xFix: real, yFix: real)

  /** The decoSettings table; an id missing from it has no settings. */
  function DecoSettings(deco: string): (r: Option<Settings>)
    ensures r.Some? <==> deco in DecoImageList
    ensures r.Some? ==> 0.0 < r.value.scale && r.value.basePoint in {0, 1, 164}
  {
    if deco == "hige" then Some(Settings(30.0, 164, 5.0, -20.0))
    else if deco == "rabbit" then Some(Settings(280.0, 1, 5.0, -30.0))
    else if deco == "ribbon" then Some(Settings(70.0, 0, 5.0, -5.0))
    else if deco == "cat02" then Some(Settings(210.0, 1, 5.0, -20.0))
    else if deco == "cat03" then Some(Settings(190.0, 1, 0.0, 0.0))
    else if deco == "bear01" then Some(Settings(180.0, 1, 0.0, 0.0))
    else None
  }

  // ---------------------------------------------------------------------
  // Mesh keypoints and the remap into scene space
  // ---------------------------------------------------------------------

  const NoseTipIndex: nat := 1
  const RightEarIndex: nat := 127
  const LeftEarIndex: nat := 356
  const LeftNoseIndex: nat := 279
  const RightNoseIndex: nat := 49

  /** The keypoint count the indices above and every basePoint need. */
  const KeypointsNeeded: nat := 357

  /** How strongly detector depth is spread along the scene's z axis. */
  const DepthStrength: real := 100.0

  /**
   * One keypoint moved into scene space: x re-centred on the video's
   * middle, y turned upwards, and depth remapped so that detector depth 0
   * lies at z = 100.  Each coordinate can be recovered from the result.
   */
  function FixPoint(p: Point3, videoWidth: real, videoHeight: real): (q: Point3)
    ensures q.x + videoWidth / 2.0 == p.x
    ensures videoHeight / 2.0 - q.y == p.y
    ensures q.z == 100.0 - p.z
  {
    Point3(p.x - videoWidth / 2.0, -p.y + videoHeight / 2.0, ((p.z / 100.0) * -1.0 + 1.0) * DepthStrength)
  }

  /** From scene space back to detector coordinates. */
  function UnfixPoint(q: Point3, videoWidth: real, videoHeight: real): Point3
  {
    Point3(q.x + videoWidth / 2.0, videoHeight / 2.0 - q.y, 100.0 - q.z)
  }

  /** fixLandmarkValue: every keypoint remapped, in the same order. */
  function FixLandmarkValue(data: seq<Point3>, videoWidth: real, videoHeight: real): (r: seq<Point3>)
    ensures |r| == |data|
    ensures forall i :: 0 <= i < |data| ==> r[i] == FixPoint(data[i], videoWidth, videoHeight)
  {
    if data == [] then []
    else [FixPoint(data[0], videoWidth, videoHeight)] + FixLandmarkValue(data[1..], videoWidth, videoHeight)
  }

  /** The inverse remap of a whole keypoint list. */
  function UnfixLandmarkValue(data: seq<Point3>, videoWidth: real, videoHeight: real): (r: seq<Point3>)
    ensures |r| == |data|
    ensures forall i :: 0 <= i < |data| ==> r[i] == UnfixPoint(data[i], videoWidth, videoHeight)
  {
    if data == [] then []
    else [UnfixPoint(data[0], videoWidth, videoHeight)] + UnfixLandmarkValue(data[1..], videoWidth, videoHeight)
  }

  /** One keypoint remapped and mapped back is the keypoint, and the other way round. */
  lemma FixPointRoundTrip(p: Point3, videoWidth: real, videoHeight: real)
    ensures UnfixPoint(FixPoint(p, videoWidth, videoHeight), videoWidth, videoHeight) == p
    ensures FixPoint(UnfixPoint(p, videoWidth, videoHeight), videoWidth, videoHeight) == p
  {
  }

  /** The remap loses nothing: it and its inverse undo each other, both ways round. */
  lemma FixLandmarkValueRoundTrip(data: seq<Point3>, videoWidth: real, videoHeight: real)
    ensures UnfixLandmarkValue(FixLandmarkValue(data, videoWidth, videoHeight), videoWidth, videoHeight) == data
    ensures FixLandmarkValue(UnfixLandmarkValue(data, videoWidth, videoHeight), videoWidth, videoHeight) == data
  {
    var fixed := FixLandmarkValue(data, videoWidth, videoHeight);
    var unfixed := UnfixLandmarkValue(data, videoWidth, videoHeight);
    var back := UnfixLandmarkValue(fixed, videoWidth, videoHeight);
    var forth := FixLandmarkValue(unfixed, videoWidth, videoHeight);
    forall i | 0 <= i < |data|
      ensures back[i] == data[i] && forth[i] == data[i]
    {
      FixPointRoundTrip(data[i], videoWidth, videoHeight);
    }
  }

  // ---------------------------------------------------------------------
  // calcNormalVector: the linear part
  // ---------------------------------------------------------------------

  /** The point halfway between two keypoints. */
  function Midpoint(a: Point3, b: Point3): (m: Point3)
    ensures m.x - a.x == b.x - m.x && m.y - a.y == b.y - m.y && m.z - a.z == b.z - m.z
  {
    Point3((a.x + b.x) / 2.0, (a.y + b.y) / 2.0, (a.z + b.z) / 2.0)
  }

  /** perpendicularUp: the midpoint moved 10 units along -y and nowhere else. */
  function PerpendicularUp(m: Point3): (p: Point3)
    ensures p.x == m.x && p.z == m.z && m.y - p.y == 10.0
  {
    Point3(m.x, m.y - 10.0, m.z)
  }

  /**
   * The vector calcNormalVector normalises: from perpendicularUp, above
   * the midpoint of the nose wings (keypoints 279 and 49), to the nose tip.
   */
  function NoseAxis(fixData: seq<Point3>): Point3
    requires KeypointsNeeded <= |fixData|
  {
    var tip := fixData[NoseTipIndex];
    var up := PerpendicularUp(Midpoint(fixData[LeftNoseIndex], fixData[RightNoseIndex]));
    Point3(tip.x - up.x, tip.y - up.y, tip.z - up.z)
  }

  /**
   * In detector coordinates the axis is the nose tip's offset from the
   * nose-wing midpoint with y and z reversed, raised by 10 along y: the
   * video size cancels out.
   */
  lemma NoseAxisFromDetector(data: seq<Point3>, videoWidth: real, videoHeight: real)
    requires KeypointsNeeded <= |data|
    ensures KeypointsNeeded <= |FixLandmarkValue(data, videoWidth, videoHeight)|
    ensures var tip, mid := data[NoseTipIndex], Midpoint(data[LeftNoseIndex], data[RightNoseIndex]);
            NoseAxis(FixLandmarkValue(data, videoWidth, videoHeight))
            == Point3(tip.x - mid.x, mid.y - tip.y + 10.0, mid.z - tip.z)
  {
  }

  // ---------------------------------------------------------------------
  // updateDecoMesh
  // ---------------------------------------------------------------------

  /** An orientation, as the quaternion three.js stores it. */
  datatype Quaternion = Quaternion(x: real, y: real, z: real, w: real)

  const Identity: Quaternion := Quaternion(0.0, 0.0, 0.0, 1.0)

  /** The plane that carries the sticker texture. */
  class DecoMesh {
    var position: Point3
    var scale: Point3
    /**
     * The plane's orientation.  three.js keeps `rotation` (Euler angles)
     * and `quaternion` as two views of this one value: writing either
     * rewrites the other.
     */
    var quaternion: Quaternion

    /** The plane as createDecoPlane leaves it, before any frame moved it. */
    predicate Built(settings: Settings)
      reads this
    {
      && position == Point3(0.0, 0.0, 0.0)
      && scale == Point3(settings.scale, settings.scale, 0.0)
      && quaternion == Identity
    }

    /** createDecoPlane: a fresh plane, sized by the sticker's scale. */
    constructor (settings: Settings)
      ensures Built(settings)
    {
      position := Point3(0.0, 0.0, 0.0);
      scale := Point3(settings.scale, settings.scale, 0.0);
      quaternion := Identity;
    }
  }

  /** The camera feed: its size and what the user agent and track report. */
  datatype Video = Video(videoWidth: real, videoHeight: real, isMobile: bool, isFrontCamera: bool)

  /** One face as the detector reports it. */
  datatype Face = Face(keypoints: seq<Point3>)

  /**
   * The values the library calls return for one frame: the orientation
   * setFromUnitVectors builds, the orientation three.js rebuilds when the
   * roll is written into `rotation.z` (the Euler angles of `orientation`
   * with z replaced by the roll), the roll angle Math.atan2 gives, and the
   * two nose-to-ear distances Math.hypot gives.
   */
  datatype Measures = Measures(orientation: Quaternion, rolledOrientation: Quaternion, roll: Turn,
                               toRightEar: real, toLeftEar: real)

  /** The roll is Math.atan2 of the ear line, from the left ear to the right ear. */
  predicate RollFits(fixData: seq<Point3>, m: Measures)
    requires KeypointsNeeded <= |fixData|
  {
    var right, left := fixData[RightEarIndex], fixData[LeftEarIndex];
    IsDirectionOf(right.x - left.x, right.y - left.y, m.roll)
  }

  /** The distances are Math.hypot from the nose tip to each ear, in the image plane. */
  predicate EarDistancesFit(fixData: seq<Point3>, m: Measures)
    requires KeypointsNeeded <= |fixData|
  {
    var tip, right, left := fixData[NoseTipIndex], fixData[RightEarIndex], fixData[LeftEarIndex];
    && IsHypot(tip.x - right.x, tip.y - right.y, m.toRightEar)
    && IsHypot(tip.x - left.x, tip.y - left.y, m.toLeftEar)
  }

  /** The roll and the distances are those of the remapped keypoints. */
  predicate MeasuresFit(fixData: seq<Point3>, m: Measures)
    requires KeypointsNeeded <= |fixData|
  {
    RollFits(fixData, m) && EarDistancesFit(fixData, m)
  }

  /**
   * How far the plane is pulled towards the camera: further for a phone's
   * front camera, whose depth values are scaled differently.
   */
  function ZOffset(isMobile: bool, isFrontCamera: bool): (z: real)
    ensures z == 300.0 <==> isMobile && isFrontCamera
    ensures z == 100.0 <==> !(isMobile && isFrontCamera)
  {
    if isMobile && isFrontCamera then 300.0 else 100.0
  }

  /** The sum of nose-to-ear distances a face at the reference size has. */
  const BaseEarDistanceSum: real := 200.0

  /**
   * The face's size relative to the reference face, from the sum of the
   * nose-to-ear distances, which stays steady when the head turns.
   */
  function EarScale(earDistanceSum: real): (k: real)
    ensures k * BaseEarDistanceSum == earDistanceSum
    ensures 0.0 < earDistanceSum ==> 0.0 < k
  {
    earDistanceSum / BaseEarDistanceSum
  }

  /**
   * The plane's scale: the sticker's size times the face's, equal in
   * magnitude on x and y with y flipped, and flat along z.
   */
  function MeshScale(size: real, k: real): (r: Point3)
    ensures r.y == -r.x && r.z == 0.0
    ensures 0.0 < size && 0.0 < k ==> 0.0 < r.x && r.y < 0.0
    ensures r.x == size * k
  {
    Point3(size * k, -(size * k), 0.0)
  }

  /**
   * The face centre before the height and roll corrections: the anchor
   * keypoint shifted by the manual offset and the sticker's fix, and
   * pulled towards the camera by the z offset.
   */
  function FaceCenter(base: Point3, s: OffsetState, settings: Settings, zOffset: real): (c: Point3)
    ensures c.x - base.x == s.positionX + settings.xFix
    ensures c.y - base.y == s.positionY + settings.yFix
    ensures base.z - c.z == zOffset
  {
    Point3(base.x + s.positionX + settings.xFix, base.y + s.positionY + settings.yFix, base.z - zOffset)
  }

  /**
   * The correction for a plane of height `height` rolled by `roll`: lift
   * by half the height, then move by half the height times the roll's
   * sine along x and back by that times the sine along y.
   */
  function PivotShift(height: real, roll: Turn): Point2
  {
    var offsetX := height / 2.0 * roll.sin;
    Point2(offsetX, height / 2.0 - offsetX * roll.sin)
  }

  /** With no roll (the angle 0 or pi) the correction is a lift by exactly half the height. */
  lemma PivotShiftLevel(height: real, roll: Turn)
    requires roll.sin == 0.0
    ensures PivotShift(height, roll) == Point2(0.0, height / 2.0)
  {
  }

  /**
   * For a true angle the correction is (h/2·sin, h/2·cos²): the half-height
   * lift shrinks with the square of the roll's cosine.
   */
  lemma PivotShiftUnit(height: real, roll: Turn)
    requires IsUnit(roll)
    ensures PivotShift(height, roll) == Point2(height / 2.0 * roll.sin, height / 2.0 * (roll.cos * roll.cos))
  {
    var h2 := height / 2.0;
    assert h2 - h2 * roll.sin * roll.sin == h2 * (1.0 - roll.sin * roll.sin);
  }

  /** The final position of the plane: the face centre plus the correction. */
  function PlacedPosition(base: Point3, s: OffsetState, settings: Settings, zOffset: real, height: real, roll: Turn): (p: Point3)
    ensures p.z == FaceCenter(base, s, settings, zOffset).z
  {
    var c := FaceCenter(base, s, settings, zOffset);
    var shift := PivotShift(height, roll);
    Point3(c.x + shift.x, c.y + shift.y, c.z)
  }

  /**
   * For a true roll angle the plane sits at the face centre moved by half
   * its height times the roll's sine along x and lifted by half its height
   * times the square of the roll's cosine.
   */
  lemma PlacedPositionUnit(base: Point3, s: OffsetState, settings: Settings, zOffset: real,
                           height: real, roll: Turn)
    requires IsUnit(roll)
    ensures var c := FaceCenter(base, s, settings, zOffset);
            PlacedPosition(base, s, settings, zOffset, height, roll)
            == Point3(c.x + height / 2.0 * roll.sin, c.y + height / 2.0 * (roll.cos * roll.cos), c.z)
  {
    PivotShiftUnit(height, roll);
  }

  /**
   * One click on a position button moves the placed plane by exactly the
   * change it made to the offset, and nothing else about the plane.
   */
  lemma NudgeMovesPlacement(base: Point3, s: OffsetState, position: string, settings: Settings,
                            zOffset: real, height: real, roll: Turn)
    ensures var before := PlacedPosition(base, s, settings, zOffset, height, roll);
            var after := PlacedPosition(base, Nudge(s, position), settings, zOffset, height, roll);
            var moved := Nudge(s, position);
            && after.x - before.x == moved.positionX - s.positionX
            && after.y - before.y == moved.positionY - s.positionY
            && after.z == before.z
  {
  }

  /**
   * Level ears give no roll: the angle 0 when the
   * right-ear keypoint lies to the right of the left-ear one, and pi (a
   * half turn, which is what Math.atan2(0, negative) returns) when it lies
   * to the left.
   */
  lemma LevelEarsRoll(fixData: seq<Point3>, m: Measures)
    requires KeypointsNeeded <= |fixData| && RollFits(fixData, m)
    requires fixData[RightEarIndex].y == fixData[LeftEarIndex].y
    ensures fixData[LeftEarIndex].x < fixData[RightEarIndex].x ==> m.roll == Level
    ensures fixData[RightEarIndex].x < fixData[LeftEarIndex].x ==> m.roll == HalfTurn
  {
    var dx := fixData[RightEarIndex].x - fixData[LeftEarIndex].x;
    var dy := fixData[RightEarIndex].y - fixData[LeftEarIndex].y;
    if 0.0 < dx {
      LevelDirection(dx, dy, m.roll);
    } else if dx < 0.0 {
      HalfTurnDirection(dx, dy, m.roll);
    }
  }

  /**
   * The remapping keeps a level pair of keypoints level and keeps their
   * left-to-right order, so level ears in the camera image are level ears
   * in the scene.
   */
  lemma FixPointKeepsLevel(p: Point3, q: Point3, videoWidth: real, videoHeight: real)
    ensures FixPoint(p, videoWidth, videoHeight).y == FixPoint(q, videoWidth, videoHeight).y <==> p.y == q.y
    ensures FixPoint(p, videoWidth, videoHeight).x < FixPoint(q, videoWidth, videoHeight).x <==> p.x < q.x
  {
  }

  /**
   * With no roll the plane sits exactly half its height above the face
   * centre, whatever the sticker and the offset.
   */
  lemma LevelHeadPlacement(base: Point3, s: OffsetState, settings: Settings, zOffset: real,
                           height: real, roll: Turn)
    requires roll.sin == 0.0
    ensures PlacedPosition(base, s, settings, zOffset, height, roll)
            == Point3(base.x + s.positionX + settings.xFix,
                      base.y + s.positionY + settings.yFix + height / 2.0,
                      base.z - zOffset)
  {
    PivotShiftLevel(height, roll);
  }

  /** What updateDecoMesh did this frame. */
  datatype Status =
    | NoFace        // no results yet, or no face: nothing changes
    | UnknownDeco   // the active id has no settings: the source fails after turning the plane
    | Placed        // the plane was turned, scaled, placed and rolled

  /**
   * updateDecoMesh for the first detected face.  The remapped keypoints,
   * the measures and the snapshot of the manual offset decide the plane's
   * orientation, scale, position and roll.
   */
  method UpdateDecoMesh(mesh: DecoMesh, results: Option<seq<Face>>, s: OffsetState, video: Video, m: Measures)
    returns (status: Status)
    requires results.Some? && results.value != [] ==> KeypointsNeeded <= |results.value[0].keypoints|
    modifies mesh
    ensures status == NoFace <==> results.None? || results.value == []
    ensures status == NoFace ==> unchanged(mesh)
    ensures status == UnknownDeco <==> status != NoFace && DecoSettings(s.currentDeco).None?
    ensures status == UnknownDeco ==>
      && mesh.quaternion == m.orientation
      && mesh.position == old(mesh.position) && mesh.scale == old(mesh.scale)
    ensures status == Placed ==> mesh.quaternion == m.rolledOrientation
    ensures status == Placed ==>
      mesh.scale == MeshScale(DecoSettings(s.currentDeco).value.scale, EarScale(m.toRightEar + m.toLeftEar))
    ensures status == Placed ==>
      mesh.position == PlacedPosition(
        FixLandmarkValue(results.value[0].keypoints, video.videoWidth, video.videoHeight)
          [DecoSettings(s.currentDeco).value.basePoint],
        s, DecoSettings(s.currentDeco).value, ZOffset(video.isMobile, video.isFrontCamera),
        DecoSettings(s.currentDeco).value.scale * EarScale(m.toRightEar + m.toLeftEar), m.roll)
  {
    if results.None? || results.value == [] {
      return NoFace;
    }
    mesh.quaternion := m.orientation;
    var found := DecoSettings(s.currentDeco);
    if found.None? {
      return UnknownDeco;
    }
    var settings := found.value;
    var fixData := FixLandmarkValue(results.value[0].keypoints, video.videoWidth, video.videoHeight);
    var basePoint := fixData[settings.basePoint];
    var zOffset := if video.isMobile && video.isFrontCamera then 300.0 else 100.0;
    var position, scale := PlaceOnFace(basePoint, s, settings, zOffset, m.toRightEar + m.toLeftEar, m.roll);
    mesh.scale := scale;
    mesh.position := position;
    mesh.quaternion := m.rolledOrientation;
    status := Placed;
  }

  /**
   * The arithmetic of updateDecoMesh once the settings and the base point
   * are known: the face centre, the scale from the ear distances, the
   * half-height lift and the roll correction, step by step.
   */
  method PlaceOnFace(basePoint: Point3, s: OffsetState, settings: Settings, zOffset: real,
                     earDistanceSum: real, roll: Turn)
    returns (position: Point3, meshScale: Point3)
    ensures meshScale == MeshScale(settings.scale, EarScale(earDistanceSum))
    ensures position == PlacedPosition(basePoint, s, settings, zOffset,
                                       settings.scale * EarScale(earDistanceSum), roll)
  {
    var x := basePoint.x + s.positionX + settings.xFix;
    var y := basePoint.y + s.positionY + settings.yFix;
    var z := basePoint.z - zOffset;

    var scale := earDistanceSum / BaseEarDistanceSum;
    meshScale := Point3(settings.scale * scale, -settings.scale * scale, 0.0);

    var imageHeight := settings.scale * scale;
    y := y + imageHeight / 2.0;
    var offsetX := imageHeight / 2.0 * roll.sin;
    x := x + offsetX;
    y := y - offsetX * roll.sin;

    position := Point3(x, y, z);
    assert scale == EarScale(earDistanceSum);
    assert Point2(offsetX, imageHeight / 2.0 - offsetX * roll.sin) == PivotShift(imageHeight, roll);
  }

}

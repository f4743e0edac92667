/**
 * The 2D app (face-detection/js/main.js): a sticker image is drawn on a
 * canvas over the mirrored camera picture, at a point derived from the six
 * keypoints MediaPipe Face Detector reports for each face.
 *
 * Modelled here: the click handlers that change the manual offset and the
 * active sticker, calculateRelativePosition and calculateAdjustedPosition,
 * the per-sticker if-chain and the loop over faces in drawCanvas, and the
 * coordinate arithmetic of drawDecoImage.  Math.atan2, Math.cos, Math.sin,
 * Math.hypot and Math.sqrt are not computed: their results come in as a
 * Measures value per face, tied to the keypoints by MeasuresFit.
 */
module DetectionApp {

  import opened Optional
  import opened Geometry
  import opened Controls

  // ---------------------------------------------------------------------
  // Manual offset: the position buttons and the sticker buttons
  // ---------------------------------------------------------------------

  /**
   * One click on a position button in the 2D app.  "top" and "bottom"
   * move along y as in the 3D app, but "right" moves towards positive x
   * and "left" towards negative x.  Any other value changes nothing.
   */
  function Nudge(s: OffsetState, position: string): (r: OffsetState)
    ensures r.currentDeco == s.currentDeco
    ensures position == "top" ==> r.positionX == s.positionX && r.positionY == s.positionY + NudgeStep
    ensures position == "bottom" ==> r.positionX == s.positionX && r.positionY == s.positionY - NudgeStep
    ensures position == "right" ==> r.positionX == s.positionX + NudgeStep && r.positionY == s.positionY
    ensures position == "left" ==> r.positionX == s.positionX - NudgeStep && r.positionY == s.positionY
    ensures position !in Directions ==> r == s
  {
    if position == "top" then s.(positionY := s.positionY + NudgeStep)
    else if position == "bottom" then s.(positionY := s.positionY - NudgeStep)
    else if position == "right" then s.(positionX := s.positionX + NudgeStep)
    else if position == "left" then s.(positionX := s.positionX - NudgeStep)
    else s
  }

  /** The state after a series of clicks on position buttons, first click first. */
  function NudgeAll(s: OffsetState, cmds: seq<string>): OffsetState
  {
    if cmds == [] then s
    else Nudge(NudgeAll(s, cmds[..|cmds| - 1]), cmds[|cmds| - 1])
  }

  /**
   * The offset after any series of clicks is the start offset plus one
   * step per "right" and minus one per "left" along x, plus one per "top"
   * and minus one per "bottom" along y; the sticker never changes.
   */
  lemma {:induction false} NudgeAllTotals(s: OffsetState, cmds: seq<string>)
    ensures NudgeAll(s, cmds) == OffsetState(
      s.positionX + NudgeStep * (Count(cmds, "right") - Count(cmds, "left")) as real,
      s.positionY + NudgeStep * (Count(cmds, "top") - Count(cmds, "bottom")) as real,
      s.currentDeco)
  {
    if cmds != [] {
      NudgeAllTotals(s, cmds[..|cmds| - 1]);
    }
  }

  /** The module-level variables positionX, positionY and currentDeco. */
  class StickerControls {
    var positionX: real
    var positionY: real
    var currentDeco: string

    function State(): OffsetState
      reads this
    {
      OffsetState(positionX, positionY, currentDeco)
    }

    constructor ()
      ensures State() == Initial
    {
      positionX := 0.0;
      positionY := 0.0;
      currentDeco := DefaultDeco;
    }

    /** A click on a sticker button: reset the offset and switch the sticker. */
    method ClickDeco(deco: string)
      modifies this
      ensures State() == Select(old(State()), deco)
    {
      positionX := 0.0;
      positionY := 0.0;
      currentDeco := deco;
    }

    /** A click on a position button. */
    method ClickPosition(position: string)
      modifies this
      ensures State() == Nudge(old(State()), position)
    {
      if position == "top" {
        positionY := positionY + NudgeStep;
      } else if position == "bottom" {
        positionY := positionY - NudgeStep;
      } else if position == "right" {
        positionX := positionX + NudgeStep;
      } else if position == "left" {
        positionX := positionX - NudgeStep;
      }
    }
  }

  // ---------------------------------------------------------------------
  // Keypoints
  // ---------------------------------------------------------------------

  datatype Keypoint = Keypoint(name: string, x: real, y: real)

  /** One face as the detector reports it. */
  datatype Detection = Detection(keypoints: seq<Keypoint>)

  /** The keypoints drawCanvas looks up. */
  datatype Anchor = NoseTip | RightEye | LeftEye | MouthCenter | RightEarTragion | LeftEarTragion

  function Name(a: Anchor): string
  {
    match a
    case NoseTip => "noseTip"
    case RightEye => "rightEye"
    case LeftEye => "leftEye"
    case MouthCenter => "mouthCenter"
    case RightEarTragion => "rightEarTragion"
    case LeftEarTragion => "leftEarTragion"
  }

  /** The position of the first keypoint called `name`, as Array.prototype.findIndex finds it. */
  function FindIndex(kps: seq<Keypoint>, name: string): (r: Option<nat>)
    ensures r.Some? ==> r.value < |kps| && kps[r.value].name == name
  {
    if kps == [] then None
    else if kps[0].name == name then Some(0)
    else match FindIndex(kps[1..], name)
      case None => None
      case Some(i) => Some(i + 1)
  }

  /** findIndex gives -1 exactly when no keypoint has the name, and otherwise the first one. */
  lemma {:induction false} FindIndexFirst(kps: seq<Keypoint>, name: string)
    ensures FindIndex(kps, name).None? <==> forall k :: 0 <= k < |kps| ==> kps[k].name != name
    ensures FindIndex(kps, name).Some? ==> forall k :: 0 <= k < FindIndex(kps, name).value ==> kps[k].name != name
  {
    if kps != [] && kps[0].name != name {
      FindIndexFirst(kps[1..], name);
      assert forall k :: 1 <= k < |kps| ==> kps[k] == kps[1..][k - 1];
    }
  }

  /** keypoints.find(k => k.name === name): the first keypoint with that name. */
  function Find(kps: seq<Keypoint>, name: string): (r: Option<Keypoint>)
    ensures r.Some? ==> r.value in kps && r.value.name == name
  {
    match FindIndex(kps, name)
    case None => None
    case Some(i) => Some(kps[i])
  }

  /** find gives undefined exactly when no keypoint has the name. */
  lemma FindMissing(kps: seq<Keypoint>, name: string)
    ensures Find(kps, name).None? <==> forall k :: k in kps ==> k.name != name
  {
    FindIndexFirst(kps, name);
    if Find(kps, name).None? {
      forall k | k in kps
        ensures k.name != name
      {
        var j :| 0 <= j < |kps| && kps[j] == k;
      }
    }
  }

  /** The face has a keypoint with the anchor's name. */
  predicate Has(d: Detection, a: Anchor)
  {
    Find(d.keypoints, Name(a)).Some?
  }

  /** The keypoints drawCanvas reads for every face, whatever the sticker: the eyes and the ear tragions. */
  predicate IsMeasured(a: Anchor)
  {
    a.RightEye? || a.LeftEye? || a.RightEarTragion? || a.LeftEarTragion?
  }

  /** The face has every keypoint drawCanvas reads before it looks at the sticker. */
  predicate HasMeasured(d: Detection)
  {
    forall a: Anchor :: IsMeasured(a) ==> Has(d, a)
  }

  /** The face has all six keypoints the detector names. */
  predicate HasAnchors(d: Detection)
  {
    forall a: Anchor :: Has(d, a)
  }

  /** The coordinates of the keypoint `find` returns for the anchor. */
  function Locate(d: Detection, a: Anchor): Point2
    requires Has(d, a)
  {
    var k := Find(d.keypoints, Name(a)).value;
    Point2(k.x, k.y)
  }

  // ---------------------------------------------------------------------
  // Positions
  // ---------------------------------------------------------------------

  /**
   * calculateAdjustedPosition: the base point moved by the offset turned
   * through the angle.
   */
  function AdjustedPosition(base: Point2, offset: Point2, angle: Turn): Point2
  {
    Point2(base.x + offset.x * angle.cos - offset.y * angle.sin,
           base.y + offset.x * angle.sin + offset.y * angle.cos)
  }

  /** At the angle 0 the offset is added as it is. */
  lemma AdjustedPositionLevel(base: Point2, offset: Point2)
    ensures AdjustedPosition(base, offset, Level) == Point2(base.x + offset.x, base.y + offset.y)
  {
    assert offset.x * Level.cos == offset.x && offset.y * Level.sin == 0.0;
    assert offset.x * Level.sin == 0.0 && offset.y * Level.cos == offset.y;
  }

  /** For a true angle the move has the offset's length. */
  lemma AdjustedPositionKeepsLength(base: Point2, offset: Point2, angle: Turn)
    requires IsUnit(angle)
    ensures var r := AdjustedPosition(base, offset, angle);
            (r.x - base.x) * (r.x - base.x) + (r.y - base.y) * (r.y - base.y)
            == offset.x * offset.x + offset.y * offset.y
  {
    var c, s := angle.cos, angle.sin;
    var ox, oy := offset.x, offset.y;
    assert (ox * c - oy * s) * (ox * c - oy * s) + (ox * s + oy * c) * (ox * s + oy * c)
        == (ox * ox + oy * oy) * (c * c + s * s);
  }

  /** Turning the move back through the opposite angle recovers the offset. */
  lemma AdjustedPositionUndo(base: Point2, offset: Point2, angle: Turn)
    requires IsUnit(angle)
    ensures var r := AdjustedPosition(base, offset, angle);
            AdjustedPosition(Point2(0.0, 0.0), Point2(r.x - base.x, r.y - base.y), Negate(angle)) == offset
  {
    var c, s := angle.cos, angle.sin;
    var ox, oy := offset.x, offset.y;
    assert (ox * c - oy * s) * c + (ox * s + oy * c) * s == ox * (c * c + s * s);
    assert -(ox * c - oy * s) * s + (ox * s + oy * c) * c == oy * (c * c + s * s);
  }

  /**
   * calculateRelativePosition: the offset is the anchor pair's distance
   * times the sticker's ratios plus the manual offset, turned through the
   * face's angle.
   */
  function RelativePosition(base: Point2, ratioX: real, ratioY: real, angle: Turn,
                            distance: real, manual: Point2): (r: Point2)
    ensures ratioX == 0.0 && ratioY == 0.0 ==> r == AdjustedPosition(base, manual, angle)
  {
    var offsetX := distance * ratioX;
    var offsetY := distance * ratioY;
    AdjustedPosition(base, Point2(offsetX + manual.x, offsetY + manual.y), angle)
  }

  // ---------------------------------------------------------------------
  // Scale and the per-sticker table
  // ---------------------------------------------------------------------

  /** The face width of the reference face. */
  const BaseFaceWidth: real := 200.0

  /** How much larger a sticker is drawn than on the reference face. */
  function FaceScale(faceWidth: real): (k: real)
    requires 0.0 < faceWidth
    ensures 0.0 < k
  {
    BaseFaceWidth / faceWidth
  }

  /** The scale brings any face width to the reference width exactly. */
  lemma FaceScaleNormalises(faceWidth: real)
    requires 0.0 < faceWidth
    ensures FaceScale(faceWidth) * faceWidth == BaseFaceWidth
  {
  }

  /**
   * How one sticker is placed: the offset is measured along the anchor
   * pair (anchor to target) and applied from the anchor, in the given
   * ratios, and the drawn scale is `size` times the face scale.
   */
  datatype Variant = Variant(anchor: Anchor, target: Anchor, ratioX: real, ratioY: real, size: real)

  /** The if-chain of drawCanvas as a table; an id it does not name draws nothing. */
  function VariantOf(deco: string): (r: Option<Variant>)
    ensures r.Some? <==> deco in DecoImageList
    ensures r.Some? ==> 0.0 < r.value.size
    ensures r.Some? ==> (r.value.anchor, r.value.target) in {(NoseTip, MouthCenter), (RightEye, NoseTip)}
  {
    if deco == "hige" then Some(Variant(NoseTip, MouthCenter, 0.15, -0.5, 4.0))
    else if deco == "rabbit" then Some(Variant(RightEye, NoseTip, -0.6, 1.0, 3.2))
    else if deco == "ribbon" then Some(Variant(NoseTip, MouthCenter, 0.3, 0.05, 3.5))
    else if deco == "cat02" then Some(Variant(RightEye, NoseTip, -0.5, 0.3, 3.5))
    else if deco == "cat03" then Some(Variant(RightEye, NoseTip, -0.5, 0.8, 3.5))
    else if deco == "bear01" then Some(Variant(RightEye, NoseTip, -0.5, 0.75, 3.5))
    else None
  }

  // ---------------------------------------------------------------------
  // drawDecoImage
  // ---------------------------------------------------------------------

  datatype ImageSize = ImageSize(width: real, height: real)

  /**
   * What drawDecoImage hands to the canvas: the point it translates to,
   * the rotation it applies (after the point reflection ctx.scale(-1, -1),
   * which every call applies and is not recorded), and the rectangle the
   * image is drawn into, relative to that point.
   */
  datatype Sprite = Sprite(centre: Point2, rotation: Turn, corner: Point2, width: real, height: real)

  /**
   * drawDecoImage: the image is centred on the point mirrored across the
   * canvas (x becomes canvasWidth - x) and shifted by the fix; the
   * half-size terms the source adds and subtracts cancel out.  The image
   * is drawn at its own size divided by the scale, centred on that point.
   */
  function DrawDecoImage(canvasWidth: real, image: ImageSize, x: real, y: real, scale: real,
                         xFix: real, yFix: real, angle: Turn): (r: Sprite)
    requires scale != 0.0
    ensures r.centre == Point2(canvasWidth - x + xFix, y + yFix)
    ensures canvasWidth - (r.centre.x - xFix) == x
    ensures r.corner == Point2(-r.width / 2.0, -r.height / 2.0)
    ensures r.rotation == Negate(angle)
  {
    var flippedX := canvasWidth - x;
    var dx := flippedX - image.width / scale / 2.0;
    var dy := y - image.height / scale / 2.0;
    Sprite(Point2(dx + xFix + image.width / scale / 2.0, dy + yFix + image.height / scale / 2.0),
           Negate(angle),
           Point2(-image.width / scale / 2.0, -image.height / scale / 2.0),
           image.width / scale, image.height / scale)
  }

  /** The drawn image, scaled back up by the scale, has the image's own size. */
  lemma DrawDecoImageSize(canvasWidth: real, image: ImageSize, x: real, y: real, scale: real,
                          xFix: real, yFix: real, angle: Turn)
    requires scale != 0.0
    ensures var r := DrawDecoImage(canvasWidth, image, x, y, scale, xFix, yFix, angle);
            r.width * scale == image.width && r.height * scale == image.height
  {
  }

  // ---------------------------------------------------------------------
  // drawCanvas
  // ---------------------------------------------------------------------

  /**
   * The values the library calls return for one face: the eye angle
   * Math.atan2 gives, the face width Math.hypot gives, and the anchor-pair
   * distance Math.sqrt gives inside calculateRelativePosition.
   */
  datatype Measures = Measures(eyeAngle: Turn, faceWidth: real, anchorDistance: real)

  /** The eye angle is Math.atan2 of the eye line, from the left eye to the right eye. */
  predicate EyeAngleFits(d: Detection, m: Measures)
    requires HasMeasured(d)
  {
    var rightEye, leftEye := Locate(d, RightEye), Locate(d, LeftEye);
    IsDirectionOf(rightEye.x - leftEye.x, rightEye.y - leftEye.y, m.eyeAngle)
  }

  /** The face width is Math.hypot of the line between the ear tragions. */
  predicate FaceWidthFits(d: Detection, m: Measures)
    requires HasMeasured(d)
  {
    var rightEar, leftEar := Locate(d, RightEarTragion), Locate(d, LeftEarTragion);
    IsHypot(rightEar.x - leftEar.x, rightEar.y - leftEar.y, m.faceWidth)
  }

  /** The anchor-pair distance is the square root of the squared distance from anchor to target. */
  predicate AnchorDistanceFits(d: Detection, v: Variant, m: Measures)
    requires Has(d, v.anchor) && Has(d, v.target)
  {
    var from, to := Locate(d, v.anchor), Locate(d, v.target);
    IsHypot(to.x - from.x, to.y - from.y, m.anchorDistance)
  }

  /** The measures are those of the face's keypoints, for the sticker's anchor pair. */
  predicate MeasuresFit(d: Detection, v: Variant, m: Measures)
    requires HasMeasured(d) && Has(d, v.anchor) && Has(d, v.target)
  {
    EyeAngleFits(d, m) && FaceWidthFits(d, m) && AnchorDistanceFits(d, v, m)
  }

  /** The scale drawCanvas hands to drawDecoImage: the sticker's size times the face scale. */
  function StickerScale(size: real, faceWidth: real): (k: real)
    requires 0.0 < size && 0.0 < faceWidth
    ensures 0.0 < k
  {
    var scale := FaceScale(faceWidth);
    PositiveProduct(size, scale);
    size * scale
  }

  /** Where drawCanvas places the sticker before the mirror: measured from the anchor keypoint. */
  function StickerPosition(d: Detection, m: Measures, v: Variant, s: OffsetState): Point2
    requires Has(d, v.anchor)
  {
    RelativePosition(Locate(d, v.anchor), v.ratioX, v.ratioY, m.eyeAngle, m.anchorDistance,
                     Point2(s.positionX, s.positionY))
  }

  /** One iteration of the loop in drawCanvas, for a sticker the if-chain knows. */
  function DrawFace(d: Detection, m: Measures, v: Variant, s: OffsetState,
                    image: ImageSize, canvasWidth: real): Sprite
    requires Has(d, v.anchor) && 0.0 < m.faceWidth && 0.0 < v.size
  {
    var p := StickerPosition(d, m, v, s);
    DrawDecoImage(canvasWidth, image, p.x, p.y, StickerScale(v.size, m.faceWidth), 0.0, 0.0, m.eyeAngle)
  }

  /**
   * What the loop in drawCanvas reads of every face: the eyes and the ear
   * tragions always, and, when the sticker is one the if-chain knows, the
   * sticker's anchor pair and a non-zero face width to divide by.
   */
  predicate FacesReady(faces: seq<Detection>, measures: seq<Measures>, variant: Option<Variant>)
  {
    && |measures| == |faces|
    && forall i :: 0 <= i < |faces| ==>
         && HasMeasured(faces[i])
         && (variant.Some? ==>
               && Has(faces[i], variant.value.anchor) && Has(faces[i], variant.value.target)
               && 0.0 < measures[i].faceWidth)
  }

  /**
   * drawCanvas: nothing without results; otherwise one sprite per face, in
   * the detector's order, when the active sticker is one the if-chain
   * knows, and none when it is not.
   */
  method DrawCanvas(results: Option<seq<Detection>>, measures: seq<Measures>, s: OffsetState,
                    image: ImageSize, canvasWidth: real)
    returns (draws: seq<Sprite>)
    requires results.Some? ==> FacesReady(results.value, measures, VariantOf(s.currentDeco))
    ensures results.None? || VariantOf(s.currentDeco).None? ==> draws == []
    ensures results.Some? && VariantOf(s.currentDeco).Some? ==>
      && |draws| == |results.value|
      && forall i :: 0 <= i < |draws| ==>
           draws[i] == DrawFace(results.value[i], measures[i], VariantOf(s.currentDeco).value, s, image, canvasWidth)
  {
    draws := [];
    var variant := VariantOf(s.currentDeco);
    if results.None? || variant.None? {
      return;
    }
    draws := DrawFaces(results.value, measures, variant.value, s, image, canvasWidth);
  }

  /** The loop over faces in drawCanvas, once the sticker is known: one sprite per face, in order. */
  method DrawFaces(faces: seq<Detection>, measures: seq<Measures>, v: Variant, s: OffsetState,
                   image: ImageSize, canvasWidth: real)
    returns (draws: seq<Sprite>)
    requires |measures| == |faces| && 0.0 < v.size
    requires forall i :: 0 <= i < |faces| ==> Has(faces[i], v.anchor) && 0.0 < measures[i].faceWidth
    ensures |draws| == |faces|
    ensures forall i :: 0 <= i < |draws| ==> draws[i] == DrawFace(faces[i], measures[i], v, s, image, canvasWidth)
  {
    draws := [];
    for i := 0 to |faces|
      invariant |draws| == i
      invariant forall k :: 0 <= k < i ==>
                  draws[k] == DrawFace(faces[k], measures[k], v, s, image, canvasWidth)
    {
      draws := draws + [DrawFace(faces[i], measures[i], v, s, image, canvasWidth)];
    }
  }

  // ---------------------------------------------------------------------
  // Properties of one drawn face
  // ---------------------------------------------------------------------

  /** The scale grows with the sticker size and shrinks with the face width. */
  lemma StickerScaleNormalises(size: real, faceWidth: real)
    requires 0.0 < size && 0.0 < faceWidth
    ensures StickerScale(size, faceWidth) * faceWidth == size * BaseFaceWidth
  {
    FaceScaleNormalises(faceWidth);
    assert StickerScale(size, faceWidth) * faceWidth == size * (FaceScale(faceWidth) * faceWidth);
  }

  /** The sprite, scaled back up by the scale drawCanvas passes, has the image's own size. */
  lemma DrawFaceSize(d: Detection, m: Measures, v: Variant, s: OffsetState,
                     image: ImageSize, canvasWidth: real)
    requires Has(d, v.anchor) && 0.0 < m.faceWidth && 0.0 < v.size
    ensures var r := DrawFace(d, m, v, s, image, canvasWidth);
            var k := StickerScale(v.size, m.faceWidth);
            r.width * k == image.width && r.height * k == image.height
  {
    var p := StickerPosition(d, m, v, s);
    DrawDecoImageSize(canvasWidth, image, p.x, p.y, StickerScale(v.size, m.faceWidth), 0.0, 0.0, m.eyeAngle);
  }

  /** The sprite is centred on the mirrored sticker position and turned against the eye angle. */
  lemma DrawFaceCentre(d: Detection, m: Measures, v: Variant, s: OffsetState,
                       image: ImageSize, canvasWidth: real)
    requires Has(d, v.anchor) && 0.0 < m.faceWidth && 0.0 < v.size
    ensures DrawFace(d, m, v, s, image, canvasWidth).centre.x == canvasWidth - StickerPosition(d, m, v, s).x
    ensures DrawFace(d, m, v, s, image, canvasWidth).centre.y == StickerPosition(d, m, v, s).y
    ensures DrawFace(d, m, v, s, image, canvasWidth).rotation == Negate(m.eyeAngle)
  {
  }

  /** At a level face the sticker sits at the anchor moved by the ratios and the manual offset. */
  lemma StickerPositionLevel(d: Detection, m: Measures, v: Variant, s: OffsetState)
    requires Has(d, v.anchor) && m.eyeAngle == Level
    ensures StickerPosition(d, m, v, s).x == Locate(d, v.anchor).x + m.anchorDistance * v.ratioX + s.positionX
    ensures StickerPosition(d, m, v, s).y == Locate(d, v.anchor).y + m.anchorDistance * v.ratioY + s.positionY
  {
    AdjustedPositionLevel(Locate(d, v.anchor), Point2(m.anchorDistance * v.ratioX + s.positionX,
                                                      m.anchorDistance * v.ratioY + s.positionY));
  }

  /**
   * For a face with level eyes the sprite is not turned, and its centre is
   * the anchor keypoint moved by the ratios of the anchor-pair distance and
   * the manual offset, mirrored across the canvas.
   */
  lemma DrawFaceLevel(d: Detection, m: Measures, v: Variant, s: OffsetState,
                      image: ImageSize, canvasWidth: real)
    requires Has(d, v.anchor) && 0.0 < m.faceWidth && 0.0 < v.size
    requires m.eyeAngle == Level
    ensures DrawFace(d, m, v, s, image, canvasWidth).rotation == Level
    ensures DrawFace(d, m, v, s, image, canvasWidth).centre.x
            == canvasWidth - (Locate(d, v.anchor).x + m.anchorDistance * v.ratioX + s.positionX)
    ensures DrawFace(d, m, v, s, image, canvasWidth).centre.y
            == Locate(d, v.anchor).y + m.anchorDistance * v.ratioY + s.positionY
  {
    StickerPositionLevel(d, m, v, s);
    DrawFaceCentre(d, m, v, s, image, canvasWidth);
  }

  /**
   * A "right" nudge moves the sprite by the step turned through the eye
   * angle, and the mirror reverses its horizontal part: at a level face the
   * sticker moves 5 pixels towards the left edge of the canvas.
   */
  lemma NudgeRightMovesSprite(d: Detection, m: Measures, v: Variant, s: OffsetState,
                              image: ImageSize, canvasWidth: real)
    requires Has(d, v.anchor) && 0.0 < m.faceWidth && 0.0 < v.size
    ensures var before := DrawFace(d, m, v, s, image, canvasWidth);
            var after := DrawFace(d, m, v, Nudge(s, "right"), image, canvasWidth);
            && after.centre.x == before.centre.x - NudgeStep * m.eyeAngle.cos
            && after.centre.y == before.centre.y + NudgeStep * m.eyeAngle.sin
  {
    var from := Locate(d, v.anchor);
    var c, sn := m.eyeAngle.cos, m.eyeAngle.sin;
    var ox := m.anchorDistance * v.ratioX + s.positionX;
    var oy := m.anchorDistance * v.ratioY + s.positionY;
    assert (ox + NudgeStep) * c == ox * c + NudgeStep * c;
    assert (ox + NudgeStep) * sn == ox * sn + NudgeStep * sn;
  }

  /** A face with level eyes, ear tragions 90 apart and the mouth centre 30 below the nose tip. */
  const ExampleFace: Detection := Detection([
    Keypoint("rightEye", 100.0, 100.0),
    Keypoint("leftEye", 50.0, 100.0),
    Keypoint("noseTip", 75.0, 130.0),
    Keypoint("mouthCenter", 75.0, 160.0),
    Keypoint("rightEarTragion", 120.0, 110.0),
    Keypoint("leftEarTragion", 30.0, 110.0)])

  /** Every anchor of the example face is found, at the listed coordinates. */
  lemma ExampleFaceAnchors()
    ensures HasAnchors(ExampleFace)
    ensures Locate(ExampleFace, RightEye) == Point2(100.0, 100.0)
    ensures Locate(ExampleFace, LeftEye) == Point2(50.0, 100.0)
    ensures Locate(ExampleFace, NoseTip) == Point2(75.0, 130.0)
    ensures Locate(ExampleFace, MouthCenter) == Point2(75.0, 160.0)
    ensures Locate(ExampleFace, RightEarTragion) == Point2(120.0, 110.0)
    ensures Locate(ExampleFace, LeftEarTragion) == Point2(30.0, 110.0)
  {
    var kps := ExampleFace.keypoints;
    assert FindIndex(kps, "rightEye") == Some(0);
    assert FindIndex(kps, "leftEye") == Some(1);
    assert FindIndex(kps, "noseTip") == Some(2);
    assert FindIndex(kps, "mouthCenter") == Some(3);
    assert FindIndex(kps, "rightEarTragion") == Some(4);
    assert FindIndex(kps, "leftEarTragion") == Some(5);
  }

  /** The example face's eyes are level, so its angle is 0. */
  lemma ExampleFaceEyeAngle(m: Measures)
    requires HasAnchors(ExampleFace) && EyeAngleFits(ExampleFace, m)
    ensures m.eyeAngle == Level
  {
    assert IsDirectionOf(50.0, 0.0, m.eyeAngle) by { ExampleFaceAnchors(); }
    LevelDirection(50.0, 0.0, m.eyeAngle);
  }

  /** The example face's ear tragions are level and 90 apart. */
  lemma ExampleFaceWidth(m: Measures)
    requires HasAnchors(ExampleFace) && FaceWidthFits(ExampleFace, m)
    ensures m.faceWidth == 90.0
  {
    assert IsHypot(90.0, 0.0, m.faceWidth) by { ExampleFaceAnchors(); }
    LevelHypot(90.0, m.faceWidth);
  }

  /** The example face's mouth centre is 30 below its nose tip. */
  lemma ExampleFaceNoseToMouth(m: Measures)
    requires HasAnchors(ExampleFace) && AnchorDistanceFits(ExampleFace, VariantOf("hige").value, m)
    ensures m.anchorDistance == 30.0
  {
    assert IsHypot(0.0, 30.0, m.anchorDistance) by { ExampleFaceAnchors(); }
    assert IsHypot(30.0, 0.0, m.anchorDistance);
    LevelHypot(30.0, m.anchorDistance);
  }

  /**
   * On the example face, with the moustache's anchor pair (nose tip to
   * mouth centre), the angle is 0, the face width 90 and the pair 30 apart.
   */
  lemma ExampleFaceMeasures(m: Measures)
    requires HasAnchors(ExampleFace) && MeasuresFit(ExampleFace, VariantOf("hige").value, m)
    ensures m.eyeAngle == Level && m.faceWidth == 90.0 && m.anchorDistance == 30.0
  {
    ExampleFaceEyeAngle(m);
    ExampleFaceWidth(m);
    ExampleFaceNoseToMouth(m);
  }

  /** Where the moustache goes on the example face, given its measures. */
  lemma ExampleMoustachePlacement(m: Measures, image: ImageSize, canvasWidth: real)
    requires HasAnchors(ExampleFace)
    requires m.eyeAngle == Level && m.faceWidth == 90.0 && m.anchorDistance == 30.0
    ensures DrawFace(ExampleFace, m, VariantOf("hige").value, OffsetState(0.0, 0.0, "hige"), image, canvasWidth).centre
            == Point2(canvasWidth - 79.5, 115.0)
    ensures DrawFace(ExampleFace, m, VariantOf("hige").value, OffsetState(0.0, 0.0, "hige"), image, canvasWidth).rotation
            == Level
  {
    var v := VariantOf("hige").value;
    assert v == Variant(NoseTip, MouthCenter, 0.15, -0.5, 4.0);
    assert Locate(ExampleFace, NoseTip) == Point2(75.0, 130.0) by { ExampleFaceAnchors(); }
    DrawFaceLevel(ExampleFace, m, v, OffsetState(0.0, 0.0, "hige"), image, canvasWidth);
  }

  /**
   * The moustache on the example face, with no manual offset: the angle
   * is 0, the face width 90, and the moustache is centred at (79.5, 115)
   * before the mirror, so at x = canvasWidth - 79.5, and it is not turned.
   */
  lemma ExampleFaceMoustache(m: Measures, image: ImageSize, canvasWidth: real)
    requires HasAnchors(ExampleFace) && MeasuresFit(ExampleFace, VariantOf("hige").value, m)
    ensures m.eyeAngle == Level && m.faceWidth == 90.0
    ensures DrawFace(ExampleFace, m, VariantOf("hige").value, OffsetState(0.0, 0.0, "hige"), image, canvasWidth).centre
            == Point2(canvasWidth - 79.5, 115.0)
    ensures DrawFace(ExampleFace, m, VariantOf("hige").value, OffsetState(0.0, 0.0, "hige"), image, canvasWidth).rotation
            == Level
  {
    ExampleFaceMeasures(m);
    ExampleMoustachePlacement(m, image, canvasWidth);
  }

}

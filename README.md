# Face sticker overlay: a Dafny model

The repository has two browser apps that put a decorative sticker on a face
seen by the webcam. This project models their cores.

- **The 3D app** (`face-landmarks-detection/js/main.js`) places a textured
  plane in a three.js scene. It uses the 468-point MediaPipe FaceMesh
  landmarks. Each frame it remaps the landmarks into scene coordinates and
  reads the anchor keypoint of the active sticker. It then sets the plane's
  orientation, scale, position and roll.
- **The 2D app** (`face-detection/js/main.js`) draws a sticker image on a
  canvas. It uses the six named keypoints of the MediaPipe face detector.
  For every detected face it finds the keypoints and measures the eye angle
  and the ear-to-ear face width. It places the sticker from an anchor
  keypoint and draws it mirrored across the canvas.

Both apps keep a manual offset and the active sticker in module-level
variables. A sticker button resets the offset and switches the sticker. A
position button nudges the offset by 5.

Modules:

- `Controls` (`controls.dfy`): the offset state shared by both apps, the
  sticker ids and the step.
- `Geometry` (`geometry.dfy`): points, and angles as (cos, sin) pairs. It
  also states what `Math.atan2` and `Math.hypot` return, as relations on
  their inputs.
- `LandmarksApp` (`landmarks_app.dfy`): the 3D app. This covers the click
  handlers, the settings table, `fixLandmarkValue`, the linear part of
  `calcNormalVector`, the plane (a class) and `updateDecoMesh` (a method
  that updates the plane in place).
- `DetectionApp` (`detection_app.dfy`): the 2D app. This covers the click
  handlers, `keypoints.find`, `calculateAdjustedPosition`,
  `calculateRelativePosition`, the per-sticker if-chain as a table,
  `drawDecoImage` and `drawCanvas` (a method with a loop over the faces).
- `Conventions` (`conventions.dfy`): compares how the two apps read the
  same position buttons.

Numbers are modelled as `real`. The trigonometric and square-root calls
are not computed. Their results reach the model as a `Measures` value, and
the predicates `MeasuresFit`, `RollFits`, `EyeAngleFits`, `FaceWidthFits`
and `AnchorDistanceFits` tie that value to the keypoints. An angle is a
`Turn(cos, sin)`. `IsDirectionOf(dx, dy, t)` says that `t` is the angle
`Math.atan2(dy, dx)`: `t` is a unit pair and (dx, dy) = r·(cos, sin) for
some r ≥ 0, with the angle 0 for (0, 0). `IsHypot(dx, dy, h)` says
h ≥ 0 and h² = dx² + dy².

## Model

| member | source | states |
|---|---|---|
| Controls.Select | face-landmarks-detection/js/main.js:69-71 | a sticker click zeroes the offset and makes the clicked id active (face-detection/js/main.js:31-33 is the same) |
| Geometry.Negate | face-detection/js/main.js:262 | the rotation drawDecoImage applies has the eye angle's cosine and the opposite sine |
| Geometry.NegateUnit | face-detection/js/main.js:262 | the opposite of an angle is a true angle, and only a true angle has one |
| Geometry.LevelHypot | face-detection/js/main.js:174 | Math.hypot of a horizontal vector pointing right is its length |
| Geometry.LevelDirection | face-detection/js/main.js:169-171 | Math.atan2 of a horizontal vector pointing right is the angle 0 |
| Geometry.HalfTurnDirection | face-landmarks-detection/js/main.js:174-176 | Math.atan2 of a horizontal vector pointing left is the angle pi |
| LandmarksApp.Nudge | face-landmarks-detection/js/main.js:79-88 | "top" adds 5 to y, "bottom" subtracts 5, "right" subtracts 5 from x, "left" adds 5, any other value changes nothing; the sticker is kept |
| LandmarksApp.NudgeAllTotals | face-landmarks-detection/js/main.js:77-90 | after any series of clicks, x is the start plus 5·(#left − #right), y is the start plus 5·(#top − #bottom), and the sticker is unchanged |
| LandmarksApp.TopNudgesAfterSelect | face-landmarks-detection/js/main.js:62-88 | choosing a sticker and then clicking "top" n times leaves the offset at (0, 5n) on that sticker, whatever came before |
| LandmarksApp.StickerControls.constructor | face-landmarks-detection/js/main.js:4-23 | the app starts at offset (0, 0) with "rabbit" active |
| LandmarksApp.StickerControls.ClickDeco | face-landmarks-detection/js/main.js:62-73 | the new state is Select of the old state; a fresh plane built for the sticker's settings exists exactly when the id has settings |
| LandmarksApp.StickerControls.ClickPosition | face-landmarks-detection/js/main.js:78-90 | the if-chain on the button's value changes the state exactly as Nudge does |
| LandmarksApp.DecoSettings | face-landmarks-detection/js/main.js:28-35 | an id has settings exactly when it is one of the six loaded stickers; every scale is positive and every base point is 0, 1 or 164 |
| LandmarksApp.DecoMesh.constructor | face-landmarks-detection/js/main.js:111-130 | a new plane is at the origin with scale (s, s, 0) for the sticker's scale s and the identity orientation |
| LandmarksApp.FixPoint | face-landmarks-detection/js/main.js:287-293 | the remapped point gives back the detector point: x + w/2, h/2 − y, and depth 100 − z |
| LandmarksApp.FixLandmarkValue | face-landmarks-detection/js/main.js:284-294 | the remap keeps the length and remaps every point by FixPoint, in order |
| LandmarksApp.FixPointRoundTrip | face-landmarks-detection/js/main.js:288-292 | one keypoint remapped and mapped back is the keypoint, both ways round |
| LandmarksApp.FixLandmarkValueRoundTrip | face-landmarks-detection/js/main.js:284-294 | the remap and its inverse undo each other, in both orders |
| LandmarksApp.FixPointKeepsLevel | face-landmarks-detection/js/main.js:289-290 | two points are level after the remap exactly when they were level before, and their left-to-right order is kept |
| LandmarksApp.Midpoint | face-landmarks-detection/js/main.js:216-220 | the midpoint is equally far from both nose wings along each axis |
| LandmarksApp.PerpendicularUp | face-landmarks-detection/js/main.js:223-227 | the helper point is 10 below the midpoint along y and level with it along x and z |
| LandmarksApp.NoseAxisFromDetector | face-landmarks-detection/js/main.js:210-231 | the vector that is normalised, in detector coordinates: (tip.x − mid.x, mid.y − tip.y + 10, mid.z − tip.z) |
| LandmarksApp.ZOffset | face-landmarks-detection/js/main.js:158-161 | the pull towards the camera is 300 exactly for a phone's front camera and 100 otherwise |
| LandmarksApp.EarScale | face-landmarks-detection/js/main.js:179-185 | the face scale times the reference sum 200 is the sum of the nose-to-ear distances; it is positive when the sum is |
| LandmarksApp.MeshScale | face-landmarks-detection/js/main.js:187 | the plane's scale is sticker size times face scale on x, its negation on y, and 0 on z |
| LandmarksApp.FaceCenter | face-landmarks-detection/js/main.js:163-167 | the centre is the base point moved by the manual offset plus the sticker's fix, and pulled back by the z offset |
| LandmarksApp.PivotShiftLevel | face-landmarks-detection/js/main.js:189-196 | with no roll the correction is a lift by half the plane's height and nothing along x |
| LandmarksApp.PivotShiftUnit | face-landmarks-detection/js/main.js:189-196 | for a true roll angle the correction is (h/2·sin, h/2·cos²) |
| LandmarksApp.PlacedPosition | face-landmarks-detection/js/main.js:163-198 | the plane keeps the face centre's depth (the x/y correction is stated by PlacedPositionUnit) |
| LandmarksApp.PlacedPositionUnit | face-landmarks-detection/js/main.js:189-198 | for a true roll angle the plane is at the face centre plus (h/2·sin, h/2·cos²), at the centre's depth |
| LandmarksApp.NudgeMovesPlacement | face-landmarks-detection/js/main.js:163-198 | one position click moves the placed plane by exactly the change in the offset, and not in depth |
| LandmarksApp.LevelEarsRoll | face-landmarks-detection/js/main.js:169-176 | level ears give the roll 0 when the right-ear keypoint is to the right of the left-ear keypoint, and pi when it is to the left |
| LandmarksApp.LevelHeadPlacement | face-landmarks-detection/js/main.js:163-198 | with no roll the plane sits at the base point plus the offset and fix, lifted by half its height, pulled back by the z offset |
| LandmarksApp.UpdateDecoMesh | face-landmarks-detection/js/main.js:146-201 | nothing changes without a face; an id without settings changes only the orientation, to the one built from the face normal; otherwise the scale is MeshScale, the position is PlacedPosition at the base keypoint, and the orientation is the one three.js rebuilds after the roll is written into rotation.z |
| LandmarksApp.PlaceOnFace | face-landmarks-detection/js/main.js:163-198 | the step-by-step arithmetic gives the plane's scale as MeshScale and its position as PlacedPosition |
| DetectionApp.Nudge | face-detection/js/main.js:41-49 | "top" adds 5 to y, "bottom" subtracts 5, "right" adds 5 to x, "left" subtracts 5, any other value changes nothing; the sticker is kept |
| DetectionApp.NudgeAllTotals | face-detection/js/main.js:38-51 | after any series of clicks, x is the start plus 5·(#right − #left), y is the start plus 5·(#top − #bottom), and the sticker is unchanged |
| DetectionApp.StickerControls.constructor | face-detection/js/main.js:4-13 | the app starts at offset (0, 0) with "rabbit" active |
| DetectionApp.StickerControls.ClickDeco | face-detection/js/main.js:24-34 | the new state is Select of the old state |
| DetectionApp.StickerControls.ClickPosition | face-detection/js/main.js:39-50 | the if-chain on the button's value changes the state exactly as Nudge does |
| DetectionApp.FindIndex | face-detection/js/main.js:155-166 | a found index is in range and names the keypoint asked for |
| DetectionApp.FindIndexFirst | face-detection/js/main.js:155-166 | nothing is found exactly when no keypoint has the name; a found index is the first with the name |
| DetectionApp.Find | face-detection/js/main.js:155-166 | a found keypoint is one of the face's keypoints and has the name asked for |
| DetectionApp.FindMissing | face-detection/js/main.js:155-166 | find gives undefined exactly when no keypoint has the name |
| DetectionApp.AdjustedPositionLevel | face-detection/js/main.js:143-147 | at the angle 0 the offset is added as it is |
| DetectionApp.AdjustedPositionKeepsLength | face-detection/js/main.js:143-147 | for a true angle the move from the base point has the offset's length |
| DetectionApp.AdjustedPositionUndo | face-detection/js/main.js:143-147 | turning the move back through the opposite angle recovers the offset |
| DetectionApp.RelativePosition | face-detection/js/main.js:133-142 | with both ratios 0 the sticker is moved by the manual offset alone, turned through the angle |
| DetectionApp.FaceScale | face-detection/js/main.js:175-178 | the face scale is positive |
| DetectionApp.FaceScaleNormalises | face-detection/js/main.js:175-178 | face scale times face width is the reference width 200 |
| DetectionApp.VariantOf | face-detection/js/main.js:180-240 | an id is drawn exactly when it is one of the six loaded stickers; every size is positive; the anchor pair is nose-tip to mouth-centre or right-eye to nose-tip |
| DetectionApp.DrawDecoImage | face-detection/js/main.js:254-272 | the image is centred on the point mirrored across the canvas and shifted by the fix, and x is recovered from the centre; it is drawn around that centre, turned by the opposite angle |
| DetectionApp.DrawDecoImageSize | face-detection/js/main.js:256-270 | the drawn size times the scale is the image's own size |
| DetectionApp.StickerScale | face-detection/js/main.js:187 | the scale passed to drawDecoImage is positive |
| DetectionApp.StickerScaleNormalises | face-detection/js/main.js:175-187 | that scale times the face width is the sticker's size times 200 |
| DetectionApp.DrawFaceCentre | face-detection/js/main.js:181-189 | the sprite is centred on the mirrored sticker position and turned by the opposite eye angle |
| DetectionApp.DrawFaceSize | face-detection/js/main.js:181-189 | the sprite scaled back up by the sticker scale has the image's size |
| DetectionApp.StickerPositionLevel | face-detection/js/main.js:133-147 | for level eyes the sticker sits at the anchor plus distance × ratios plus the manual offset |
| DetectionApp.DrawFaceLevel | face-detection/js/main.js:168-189 | for level eyes the sprite is not turned and is centred on the mirrored sum of anchor, distance × ratios and manual offset |
| DetectionApp.NudgeRightMovesSprite | face-detection/js/main.js:45-46 | a "right" click moves the drawn sprite by −5·cos along x and 5·sin along y of the eye angle; at level eyes, 5 towards the canvas's left edge |
| DetectionApp.ExampleFaceAnchors | face-detection/js/main.js:155-166 | every anchor of the example face is found, at its listed coordinates |
| DetectionApp.ExampleFaceEyeAngle | face-detection/js/main.js:169-171 | the example face's angle is 0 |
| DetectionApp.ExampleFaceWidth | face-detection/js/main.js:174 | the example face's width is 90 |
| DetectionApp.ExampleFaceNoseToMouth | face-detection/js/main.js:134-136 | the example face's nose-to-mouth distance is 30 |
| DetectionApp.ExampleFaceMeasures | face-detection/js/main.js:168-178 | the example face's angle is 0, its width 90 and its nose-to-mouth distance 30 |
| DetectionApp.ExampleMoustachePlacement | face-detection/js/main.js:180-189 | with those measures the moustache is centred at (canvasWidth − 79.5, 115), unturned |
| DetectionApp.ExampleFaceMoustache | face-detection/js/main.js:150-189 | from the keypoints alone: the angle is 0, the width 90, and the moustache is centred at (canvasWidth − 79.5, 115), unturned |
| DetectionApp.DrawCanvas | face-detection/js/main.js:150-242 | nothing is drawn without results or for an unknown id; otherwise one sprite per face, in the detector's order, each as DrawFace places it; each face needs only the keypoints the source reads (the eyes and ear tragions, plus the sticker's anchor pair when it is drawn) |
| DetectionApp.DrawFaces | face-detection/js/main.js:152-241 | results.forEach once the sticker is known: exactly one sprite per face, the i-th drawn for the i-th face as DrawFace places it |
| Conventions.NudgeConventions | face-detection/js/main.js:41-49 | one click moves the offset vertically the same way in both apps and horizontally by opposite amounts (the 3D handler is face-landmarks-detection/js/main.js:80-88) |
| Conventions.NudgeAllConventions | face-detection/js/main.js:38-51 | after any series of clicks the two apps have the same vertical offset and mirror-image horizontal ones |

## Left out

- Webcam set-up, the detector's creation and calls, the render loop, image loading, the three.js scene, camera and renderer, and the canvas drawing of the webcam frame. These are I/O and library calls. The detector's results, the video size and the camera flags are parameters.
- Math.atan2, Math.sin, Math.cos, Math.hypot and Math.sqrt are not computed. Their results are inputs, and the `*Fits` predicates state their meaning. The lemmas that reason about angles and distances take those predicates as preconditions.
- `Vector3.normalize` and `Quaternion.setFromUnitVectors` in calcNormalVector are not computed. The model proves the vector that is normalised (`NoseAxisFromDetector`), and the resulting orientation is an input.
- Floating point is modelled as exact real arithmetic, so rounding, NaN and Infinity are not modelled.
- The plane's geometry (its width is the image's aspect ratio), its texture and material, and the button CSS classes are left out because they do not affect the placement.
- The canvas's `ctx.scale(-1, -1)`, applied on every draw, is not recorded in `Sprite`.
- LandmarksApp.UpdateDecoMesh: requires the first face to have at least 357 keypoints. The source indexes keypoints 1, 49, 127, 279, 356 and the sticker's base point, and fails on a shorter list.
- LandmarksApp.UpdateDecoMesh: for an id without settings the source copies the orientation and then throws a TypeError. The model returns the status UnknownDeco with only the orientation changed.
- LandmarksApp.UpdateDecoMesh: does not require its measures to fit the keypoints. The roll that follows from the fit is stated in the separate lemma `LevelEarsRoll`.
- LandmarksApp.UpdateDecoMesh: three.js keeps `rotation` and `quaternion` as two linked views of one orientation. `quaternion.copy` rewrites `rotation`, and writing `rotation.z` rebuilds `quaternion` from the Euler angles. The plane has one orientation field. The orientation after the roll is written is an input (`Measures.rolledOrientation`) because the Euler/quaternion conversion is trigonometry, which is not computed.
- LandmarksApp.StickerControls.ClickDeco: for an id without settings the source builds a mesh and then throws while scaling it. The model returns no plane.
- DetectionApp.DrawCanvas: requires every face to have the eyes and ear tragions, which the source reads for every face and throws a TypeError without. When the sticker is known it also requires the sticker's anchor pair, which that branch reads, and a positive face width. For a zero width the source divides by zero, so the scale is Infinity and the sticker is drawn with size 0.
- DetectionApp.DrawCanvas: the source tests the active sticker once per face. The model tests it once before the loop, which draws the same sprites.

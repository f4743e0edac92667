/**
 * The two apps share the offset buttons but not their meaning on the
 * horizontal axis: on "right" the 3D app subtracts the step from x and the
 * 2D app adds it; on "left" the other way round.  Vertically they agree.
 */
module Conventions {
  import opened Controls
  import LandmarksApp
  import DetectionApp

  /**
   * A click on any button moves the offset vertically the same way in both
   * apps and horizontally by opposite amounts, and leaves the sticker alone.
   */
  lemma NudgeConventions(s: OffsetState, position: string)
    ensures LandmarksApp.Nudge(s, position).positionY == DetectionApp.Nudge(s, position).positionY
    ensures LandmarksApp.Nudge(s, position).positionX - s.positionX
            == s.positionX - DetectionApp.Nudge(s, position).positionX
    ensures LandmarksApp.Nudge(s, position).currentDeco == DetectionApp.Nudge(s, position).currentDeco
  {
  }

  /**
   * The same clicks, from the same offset, leave the two apps with the
   * same vertical offset, and horizontal offsets that moved by the same
   * amount in opposite directions.
   */
  lemma {:induction false} NudgeAllConventions(s: OffsetState, cmds: seq<string>)
    ensures LandmarksApp.NudgeAll(s, cmds).positionY == DetectionApp.NudgeAll(s, cmds).positionY
    ensures LandmarksApp.NudgeAll(s, cmds).positionX - s.positionX
            == s.positionX - DetectionApp.NudgeAll(s, cmds).positionX
  {
    LandmarksApp.NudgeAllTotals(s, cmds);
    DetectionApp.NudgeAllTotals(s, cmds);
  }
}

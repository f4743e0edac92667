/**
 * The manual-offset state both apps keep in module-level variables
 * (positionX, positionY and currentDeco), and what the two apps share
 * about it: the sticker ids, the nudge step and the effect of choosing a
 * sticker.  How a nudge moves the offset differs between the apps and is
 * defined in each app's module.
 */
module Controls {

  /** How far one click on a position button moves the sticker. */
  const NudgeStep: real := 5.0

  /** The values a position button carries. */
  const Directions: set<string> := {"top", "bottom", "right", "left"}

  /** The stickers both apps load, in their load order. */
  const DecoImageList: seq<string> := ["hige", "ribbon", "rabbit", "cat02", "cat03", "bear01"]

  /** The sticker shown before any button is clicked. */
  const DefaultDeco: string := "rabbit"

  /** A snapshot of the manual offset and the active sticker. */
  datatype OffsetState = OffsetState(positionX: real, positionY: real, currentDeco: string)

  /** The state at start-up. */
  const Initial: OffsetState := OffsetState(0.0, 0.0, DefaultDeco)

  /**
   * Clicking a sticker button: the offset returns to (0, 0) whatever it
   * was, and the clicked sticker becomes the active one.
   */
  function Select(s: OffsetState, deco: string): (r: OffsetState)
    ensures r.positionX == 0.0 && r.positionY == 0.0 && r.currentDeco == deco
  {
    OffsetState(0.0, 0.0, deco)
  }

  /** How many of the commands are `c`. */
  function Count(cmds: seq<string>, c: string): (n: nat)
    ensures n <= |cmds|
    ensures n == 0 <==> c !in cmds
  {
    if cmds == [] then 0
    else Count(cmds[..|cmds| - 1], c) + (if cmds[|cmds| - 1] == c then 1 else 0)
  }

  /** `n` clicks on the same button. */
  function Repeat(c: string, n: nat): (r: seq<string>)
    ensures |r| == n
    ensures forall i :: 0 <= i < n ==> r[i] == c
  {
    seq(n, _ => c)
  }

  lemma {:induction false} CountRepeat(c: string, d: string, n: nat)
    ensures Count(Repeat(c, n), d) == if c == d then n else 0
  {
    if n > 0 {
      assert Repeat(c, n)[..n - 1] == Repeat(c, n - 1);
      CountRepeat(c, d, n - 1);
    }
  }

}

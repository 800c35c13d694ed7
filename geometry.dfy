/**
 * The resize arithmetic of the chat window (claude-panel@claude-code/applet.js, `_onDragMotion`).
 * Stage coordinates grow downwards, so dragging the top-edge handle up (a smaller pointer Y)
 * makes the window taller. JavaScript numbers are modelled as reals.
 */
module Geometry {
  import opened Wrappers

  /** The height limits applied while dragging. */
  const MinHeight: real := 100.0
  const MaxHeight: real := 800.0

  /** Extra offset subtracted, besides the chat height, from the applet's Y to place the window's top edge when it opens. */
  const WindowGap: real := 10.0

  /** `Math.abs` */
  function Abs(x: real): (r: real)
  {
    if x < 0.0 then -x else x
  }

  /** `Math.max(100, Math.min(800, h))` */
  function ClampHeight(h: real): (r: real)
    ensures MinHeight <= r <= MaxHeight
    ensures MinHeight <= h <= MaxHeight ==> r == h
    ensures h < MinHeight ==> r == MinHeight
    ensures h > MaxHeight ==> r == MaxHeight
  {
    var lowered := if MaxHeight < h then MaxHeight else h;
    if lowered < MinHeight then MinHeight else lowered
  }

  /** The height a drag requests: the anchor height plus how far the cursor rose since the press. */
  function DesiredHeight(startY: real, startHeight: real, pointerY: real): (r: real)
  {
    startHeight + (startY - pointerY)
  }

  /** The window's height and the Y of its top edge after an applied motion event. */
  datatype Placement = Placement(height: real, windowY: real)

  /**
   * What one motion event during a drag does: None when the clamped height is within 1 of the
   * current height (the event is swallowed and nothing moves), otherwise the new height and the
   * new top edge, which keeps the bottom edge where it was when the drag started.
   */
  function MotionOutcome(startY: real, startHeight: real, startWindowY: real, currentHeight: real, pointerY: real)
    : (r: Option<Placement>)
    ensures r.None? <==> Abs(ClampHeight(DesiredHeight(startY, startHeight, pointerY)) - currentHeight) < 1.0
    ensures r.Some? ==> MinHeight <= r.value.height <= MaxHeight
    ensures r.Some? ==> Abs(r.value.height - currentHeight) >= 1.0
    ensures r.Some? ==> r.value.windowY + r.value.height == startWindowY + startHeight
    ensures r.Some? && MinHeight <= DesiredHeight(startY, startHeight, pointerY) <= MaxHeight ==>
              r.value.height == DesiredHeight(startY, startHeight, pointerY) &&
              r.value.windowY == startWindowY - (startY - pointerY)
    ensures r.Some? && DesiredHeight(startY, startHeight, pointerY) < MinHeight ==> r.value.height == MinHeight
    ensures r.Some? && DesiredHeight(startY, startHeight, pointerY) > MaxHeight ==> r.value.height == MaxHeight
  {
    var newHeight := ClampHeight(DesiredHeight(startY, startHeight, pointerY));
    if Abs(newHeight - currentHeight) < 1.0 then None
    else Some(Placement(newHeight, startWindowY - (newHeight - startHeight)))
  }

  /**
   * Worked cases of the resize computation: from a 400-high window grabbed at Y = 500,
   * rising 800 pixels saturates at the maximum and sinking 150 pixels gives 250;
   * from a 200-high window, sinking 400 pixels stops at the minimum instead of going below it.
   */
  lemma ResizeExamples()
    ensures ClampHeight(DesiredHeight(500.0, 400.0, -300.0)) == 800.0
    ensures ClampHeight(DesiredHeight(500.0, 400.0, 650.0)) == 250.0
    ensures ClampHeight(DesiredHeight(500.0, 200.0, 900.0)) == 100.0
  {
  }
}

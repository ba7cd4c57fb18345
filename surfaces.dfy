/** The per-paint bookkeeping of the waterfall's ping-pong scroll: which of
    the two framebuffer surfaces is written, which is read back as scroll
    history, which is presented, and how many values the spectral line
    upload carries. */
module Surfaces {

  /** What one paint does with the surfaces. Scrolled: the GPU offers
      framebuffer objects, so the line (upload values long) is drawn into
      surface target, surface history is drawn shifted on top of it, and
      surface presented is shown through the colour map. Static: without
      framebuffer objects nothing is uploaded, written or presented. */
  datatype Frame =
    | Scrolled(upload: nat, target: nat, history: nat, presented: nat)
    | Static

  /** The frame a paint plans once the paint counter has reached count, with
      the current spectral line lineLength values long. */
  function PlanFrame(count: nat, lineLength: nat, framebufferObjects: bool): (f: Frame)
    ensures f.Scrolled? <==> framebufferObjects
    ensures f.Scrolled? ==> f.target == count % 2
    ensures f.Scrolled? ==> f.target < 2 && f.history < 2 && f.target != f.history
    ensures f.Scrolled? ==> f.presented == f.target
    ensures f.Scrolled? ==> f.upload > 0
    ensures f.Scrolled? && lineLength > 0 ==> f.upload == lineLength
    ensures f.Scrolled? && lineLength == 0 ==> f.upload == 1
  {
    if framebufferObjects then
      Scrolled(if lineLength > 0 then lineLength else 1, count % 2, 1 - count % 2, count % 2)
    else
      Static
  }

  /** Consecutive paints write different surfaces, and each paint reads as
      history exactly the surface the previous paint wrote. */
  lemma ConsecutivePaintsAlternate(count: nat, len1: nat, len2: nat)
    ensures PlanFrame(count + 1, len2, true).target != PlanFrame(count, len1, true).target
    ensures PlanFrame(count + 1, len2, true).history == PlanFrame(count, len1, true).target
  {
  }
}

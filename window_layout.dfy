/**
  The target window height for a number of hits shown. The FLTK front end
  (`get_window_height`) and the default front end (`get_window_size`) compute it with the
  same formula, modelled once here. The layout values are `i32` in the source; here they
  are unbounded integers.
*/
module WindowLayout {

  /** The layout values the formula reads. */
  datatype Layout = Layout(windowMinHeight: int, hitHeight: int, padding: int)

  /**
    `get_window_height` and `get_window_size`: the minimum height, one row per hit, and
    the padding once there is at least one hit.
  */
  function WindowHeight(layout: Layout, hitCount: int): (h: int)
    ensures hitCount == 0 ==> h == layout.windowMinHeight
  {
    var padding := if hitCount == 0 then 0 else layout.padding;
    layout.windowMinHeight + layout.hitHeight * hitCount + padding
  }

  /** Below the minimum height, the window grows by one hit height per hit shown, plus the padding. */
  lemma HeightAboveMinimum(layout: Layout, hitCount: int)
    requires hitCount >= 1
    ensures WindowHeight(layout, hitCount) - layout.windowMinHeight == layout.hitHeight * hitCount + layout.padding
  {
  }

  /** For one hit and more, each further hit adds exactly one hit height. */
  lemma HeightStep(layout: Layout, hitCount: int)
    requires hitCount >= 1
    ensures WindowHeight(layout, hitCount + 1) - WindowHeight(layout, hitCount) == layout.hitHeight
  {
  }

  /** The first hit adds its height and the padding. */
  lemma FirstHitStep(layout: Layout)
    ensures WindowHeight(layout, 1) - WindowHeight(layout, 0) == layout.hitHeight + layout.padding
  {
  }

  /** With non-negative hit height and padding, more hits never give a smaller window. */
  lemma {:induction false} HeightMonotone(layout: Layout, m: nat, n: nat)
    requires layout.hitHeight >= 0 && layout.padding >= 0
    requires m <= n
    ensures WindowHeight(layout, m) <= WindowHeight(layout, n)
    decreases n - m
  {
    if m < n {
      if m == 0 {
        FirstHitStep(layout);
      } else {
        HeightStep(layout, m);
      }
      HeightMonotone(layout, m + 1, n);
    }
  }
}

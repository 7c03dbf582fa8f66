/**
 The viewport breakpoint shared by every page script. Widths are
 `window.innerWidth` in CSS pixels; a width at or below the breakpoint is the
 narrow (mobile) layout, where the sidebar is an overlay drawer.
 */
module Viewport {

  const Breakpoint: int := 768

  /** `Utils.isMobile`, and the test every sidebar handler branches on. */
  predicate IsMobile(width: int)
  {
    width <= Breakpoint
  }

  /**
   The boundary width 768 itself is narrow, 769 is wide, and narrowness is
   closed downwards: any width below a narrow width is narrow too.
   */
  lemma BreakpointIsInclusive(w1: int, w2: int)
    requires w1 <= w2
    ensures IsMobile(768) && !IsMobile(769)
    ensures IsMobile(w2) ==> IsMobile(w1)
    ensures !IsMobile(w1) ==> !IsMobile(w2)
  {
  }
}

/** The toggle automaton of `CollapsibleSection` in app/result.tsx: the
    `isCollapsed` flag together with the targets its press drives the chevron
    rotation (degrees) and the content height (0 or 1) to. Springs and
    timings only animate towards these targets and are not modelled. */
module Collapsible {

  datatype Section = Section(isCollapsed: bool, rotation: int, height: int)

  /** A section is mounted collapsed, with both shared values at 0. */
  const Mounted: Section := Section(true, 0, 0)

  /** The chevron points down and the content is hidden exactly when collapsed. */
  predicate Consistent(s: Section) {
    && s.rotation == (if s.isCollapsed then 0 else 180)
    && s.height == (if s.isCollapsed then 0 else 1)
  }

  /** The content view has zero height and opacity when `height` is 0. */
  predicate ContentShown(s: Section) {
    s.height != 0
  }

  /** A press on the header: flips the flag and, reading the flag as it was,
      targets 180 degrees and full height when opening, 0 and 0 when closing. */
  function Toggle(s: Section): (r: Section)
    ensures r.isCollapsed == !s.isCollapsed
    ensures Consistent(r)
  {
    Section(!s.isCollapsed, if s.isCollapsed then 180 else 0, if s.isCollapsed then 1 else 0)
  }

  /** Two presses restore a consistent section. */
  lemma ToggleTwice(s: Section)
    requires Consistent(s)
    ensures Toggle(Toggle(s)) == s
  {
  }

  /** In a consistent section the content is shown exactly when it is open. */
  lemma ShownIffOpen(s: Section)
    requires Consistent(s)
    ensures ContentShown(s) <==> !s.isCollapsed
  {
  }

  /** The section after `n` presses. */
  function Pressed(n: nat): Section {
    if n == 0 then Mounted else Toggle(Pressed(n - 1))
  }

  /** After `n` presses the section is collapsed exactly when `n` is even,
      its targets agree with its flag, and its content is shown exactly when
      `n` is odd. */
  lemma {:induction false} PressedParity(n: nat)
    ensures Pressed(n).isCollapsed <==> n % 2 == 0
    ensures Consistent(Pressed(n))
    ensures ContentShown(Pressed(n)) <==> n % 2 == 1
  {
    if n > 0 {
      PressedParity(n - 1);
    }
  }
}

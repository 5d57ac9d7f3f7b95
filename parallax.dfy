/**
  The vertical offset of the particle layer as a function of the page's
  scroll position: scroll 0 .. 1000 maps linearly onto offset 0 .. 300, and
  the offset holds at the end values outside that range.
 */
module Parallax {

  const ScrollStart: real := 0.0
  const ScrollEnd: real := 1000.0
  const OffsetStart: real := 0.0
  const OffsetEnd: real := 300.0

  /** The progress of s through [ScrollStart, ScrollEnd], held to [0, 1]. */
  function Progress(s: real): real
  {
    var t := (s - ScrollStart) / (ScrollEnd - ScrollStart);
    if t < 0.0 then 0.0 else if t > 1.0 then 1.0 else t
  }

  /** The layer's vertical offset at scroll position s. */
  function Offset(s: real): (offset: real)
    ensures OffsetStart <= offset <= OffsetEnd
    ensures s <= ScrollStart ==> offset == OffsetStart
    ensures s >= ScrollEnd ==> offset == OffsetEnd
    ensures ScrollStart <= s <= ScrollEnd ==> offset == 0.3 * s
  {
    OffsetStart + Progress(s) * (OffsetEnd - OffsetStart)
  }

  /** Scrolling further down never moves the layer back up. */
  lemma OffsetMonotone(s1: real, s2: real)
    requires s1 <= s2
    ensures Offset(s1) <= Offset(s2)
  {
  }

  lemma OffsetExamples()
    ensures Offset(0.0) == 0.0
    ensures Offset(500.0) == 150.0
    ensures Offset(1000.0) == 300.0
    ensures Offset(2000.0) == 300.0
    ensures Offset(-50.0) == 0.0
  {
  }
}

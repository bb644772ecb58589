/** The normalised slide offset reported to the callback on every move. */
module Slide {
  import opened Common

  /**
   * `dispatchOnSlide`: 0 at the collapsed offset, growing to 1 at the expanded
   * top and falling to -1 at the parent's bottom. None where the divisor is
   * zero (the float quotient would be infinite or NaN).
   */
  function SlideOffset(top: int, collapsedOffset: int, parentHeight: int, expandedTop: int): Option<real>
  {
    if top > collapsedOffset then
      if parentHeight == collapsedOffset then None
      else Some((collapsedOffset - top) as real / (parentHeight - collapsedOffset) as real)
    else
      if collapsedOffset == expandedTop then None
      else Some((collapsedOffset - top) as real / (collapsedOffset - expandedTop) as real)
  }

  /** The three rest positions map to 1, 0 and -1. */
  lemma SlideAtRestPositions(collapsedOffset: int, parentHeight: int, expandedTop: int)
    requires expandedTop < collapsedOffset < parentHeight
    ensures SlideOffset(expandedTop, collapsedOffset, parentHeight, expandedTop) == Some(1.0)
    ensures SlideOffset(collapsedOffset, collapsedOffset, parentHeight, expandedTop) == Some(0.0)
    ensures SlideOffset(parentHeight, collapsedOffset, parentHeight, expandedTop) == Some(-1.0)
  {
    var up := (collapsedOffset - expandedTop) as real;
    var down := (parentHeight - collapsedOffset) as real;
    assert up / up == 1.0;
    assert (-down) / down == -1.0;
  }

  /**
   * Between the expanded top and the parent's bottom the offset lies in
   * [-1, 1], and it is non-negative exactly at or above the collapsed offset.
   */
  lemma SlideInRange(top: int, collapsedOffset: int, parentHeight: int, expandedTop: int)
    requires expandedTop < collapsedOffset < parentHeight
    requires expandedTop <= top <= parentHeight
    ensures SlideOffset(top, collapsedOffset, parentHeight, expandedTop).Some?
    ensures var v := SlideOffset(top, collapsedOffset, parentHeight, expandedTop).value;
      -1.0 <= v <= 1.0 && (v >= 0.0 <==> top <= collapsedOffset)
  {
    if top > collapsedOffset {
      var n := (top - collapsedOffset) as real;
      var d := (parentHeight - collapsedOffset) as real;
      QuotientInUnit(n, d);
      assert (collapsedOffset - top) as real / d == -(n / d);
    } else {
      var n := (collapsedOffset - top) as real;
      var d := (collapsedOffset - expandedTop) as real;
      QuotientInUnit(n, d);
    }
  }

  /** The offset grows as the sheet moves up: a higher top never gives a smaller offset. */
  lemma SlideMonotone(t1: int, t2: int, collapsedOffset: int, parentHeight: int, expandedTop: int)
    requires expandedTop < collapsedOffset < parentHeight
    requires expandedTop <= t1 <= t2 <= parentHeight
    ensures SlideOffset(t1, collapsedOffset, parentHeight, expandedTop).Some?
    ensures SlideOffset(t2, collapsedOffset, parentHeight, expandedTop).Some?
    ensures SlideOffset(t2, collapsedOffset, parentHeight, expandedTop).value
            <= SlideOffset(t1, collapsedOffset, parentHeight, expandedTop).value
  {
    SlideInRange(t1, collapsedOffset, parentHeight, expandedTop);
    SlideInRange(t2, collapsedOffset, parentHeight, expandedTop);
    var up := (collapsedOffset - expandedTop) as real;
    var down := (parentHeight - collapsedOffset) as real;
    var n := (t2 - t1) as real;
    if t1 > collapsedOffset {
      assert (collapsedOffset - t1) as real / down - (collapsedOffset - t2) as real / down == n / down;
      QuotientNonNegative(n, down);
    } else if t2 <= collapsedOffset {
      assert (collapsedOffset - t1) as real / up - (collapsedOffset - t2) as real / up == n / up;
      QuotientNonNegative(n, up);
    }
  }

  lemma QuotientNonNegative(n: real, d: real)
    requires n >= 0.0 && d > 0.0
    ensures n / d >= 0.0
  {
  }

  lemma QuotientInUnit(n: real, d: real)
    requires 0.0 <= n <= d && d > 0.0
    ensures 0.0 <= n / d <= 1.0
    ensures n > 0.0 ==> n / d > 0.0
  {
  }
}

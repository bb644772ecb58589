/**
 * Rest-offset calculator: maps the configuration (peek height or automatic
 * peek, fit-to-contents, expanded offset, half-expanded ratio) and the
 * parent/child sizes to the vertical offsets the sheet rests at.
 */
module Offsets {
  import opened Common

  /** `PEEK_HEIGHT_AUTO`: the peek height is derived from the 16:9 keyline. */
  const PEEK_HEIGHT_AUTO: int := -1

  /** Automatic peek: the 16:9 keyline of the parent, but never below the minimum. */
  function AutoPeek(peekHeightMin: int, parentHeight: int, parentWidth: int): (peek: int)
    ensures peek >= peekHeightMin
    ensures peek >= parentHeight - JavaDiv(parentWidth * 9, 16)
    ensures peek == peekHeightMin || peek == parentHeight - JavaDiv(parentWidth * 9, 16)
  {
    Max(peekHeightMin, parentHeight - JavaDiv(parentWidth * 9, 16))
  }

  /** The peek height `calculateCollapsedOffset` works with. */
  function EffectivePeek(peekHeightAuto: bool, peekHeight: int, peekHeightMin: int,
                         parentHeight: int, parentWidth: int): int
  {
    if peekHeightAuto then AutoPeek(peekHeightMin, parentHeight, parentWidth) else peekHeight
  }

  /** Top of the sheet while collapsed. */
  function CollapsedOffset(fitToContents: bool, peek: int, parentHeight: int,
                           fitToContentsOffset: int): (r: int)
    ensures !fitToContents ==> r == parentHeight - peek
    ensures fitToContents ==> r >= fitToContentsOffset && r >= parentHeight - peek
    ensures fitToContents ==> r == fitToContentsOffset || r == parentHeight - peek
  {
    if fitToContents then Max(parentHeight - peek, fitToContentsOffset) else parentHeight - peek
  }

  /** Top of the sheet when it is expanded to fit its contents. */
  function FitToContentsOffset(parentHeight: int, childHeight: int): (r: int)
    ensures r >= 0 && r >= parentHeight - childHeight
    ensures r == 0 || r == parentHeight - childHeight
  {
    Max(0, parentHeight - childHeight)
  }

  /** Top of the sheet when half expanded: `(int) (parentHeight * (1 - ratio))`. */
  function HalfExpandedOffset(parentHeight: int, halfExpandedRatio: real): int
  {
    TruncToInt(parentHeight as real * (1.0 - halfExpandedRatio))
  }

  /** `getExpandedOffset`: the expanded top depends on the expansion model. */
  function ExpandedOffset(fitToContents: bool, fitToContentsOffset: int, expandedOffset: int): int
  {
    if fitToContents then fitToContentsOffset else expandedOffset
  }

  /**
   * The expanded offset is the sheet's highest rest position: never above the
   * parent's top, and with fit-to-contents the fit offset, which is never below
   * the collapsed offset.
   */
  lemma ExpandedNotBelowCollapsed(fitToContents: bool, peek: int, parentHeight: int,
                                  childHeight: int, expandedOffset: int)
    requires peek >= 0 && parentHeight >= 0 && childHeight >= 0 && expandedOffset >= 0
    ensures var fit := FitToContentsOffset(parentHeight, childHeight);
      var e := ExpandedOffset(fitToContents, fit, expandedOffset);
      0 <= e
      && (fitToContents ==> e == fit && e <= CollapsedOffset(true, peek, parentHeight, fit))
      && (!fitToContents ==> e == expandedOffset)
  {
  }

  /** A valid ratio puts the half-expanded offset inside the parent. */
  lemma HalfExpandedWithinParent(parentHeight: int, ratio: real)
    requires parentHeight >= 0
    requires 0.0 < ratio < 1.0
    ensures 0 <= HalfExpandedOffset(parentHeight, ratio) <= parentHeight
  {
    var h := parentHeight as real;
    var x := h * (1.0 - ratio);
    assert 0.0 <= x by { MulNonNegative(h, 1.0 - ratio); }
    assert x <= h by {
      assert h - x == h * ratio;
      MulNonNegative(h, ratio);
    }
    assert HalfExpandedOffset(parentHeight, ratio) == x.Floor;
  }

  lemma MulNonNegative(a: real, b: real)
    requires a >= 0.0 && b >= 0.0
    ensures a * b >= 0.0
  {
  }

  /** A larger ratio never moves the half-expanded offset down. */
  lemma HalfExpandedMonotone(parentHeight: int, r1: real, r2: real)
    requires parentHeight >= 0
    requires r1 <= r2
    ensures HalfExpandedOffset(parentHeight, r2) <= HalfExpandedOffset(parentHeight, r1)
  {
    var h := parentHeight as real;
    assert h * (1.0 - r1) - h * (1.0 - r2) == h * (r2 - r1);
    MulNonNegative(h, r2 - r1);
  }

  /**
   * With a non-negative peek and child height, the collapsed offset never lies
   * below the parent's bottom edge; with fit-to-contents it is also never above
   * the fit-to-contents offset.
   */
  lemma CollapsedWithinParent(fitToContents: bool, peek: int, parentHeight: int, childHeight: int)
    requires peek >= 0 && childHeight >= 0 && parentHeight >= 0
    ensures CollapsedOffset(fitToContents, peek, parentHeight,
                            FitToContentsOffset(parentHeight, childHeight)) <= parentHeight
    ensures fitToContents ==>
              FitToContentsOffset(parentHeight, childHeight)
                <= CollapsedOffset(fitToContents, peek, parentHeight,
                                   FitToContentsOffset(parentHeight, childHeight))
  {
  }

  /**
   * The offsets are not clamped into order: a peek taller than half the
   * parent puts the collapsed offset above the half-expanded one.
   */
  lemma CollapsedAboveHalfExpandedPossible()
    ensures CollapsedOffset(false, 600, 1000, 0) < HalfExpandedOffset(1000, 0.5)
  {
    assert HalfExpandedOffset(1000, 0.5) == 500;
  }
}

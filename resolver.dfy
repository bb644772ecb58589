/**
 * Target resolver: the pure decision logic that picks the rest position
 * (top offset and state) a released or nested-scrolled sheet settles to,
 * and the position a programmatic state request settles to.
 */
module Resolver {
  import opened Common
  import opened States
  import Offsets

  /** Friction applied to the release velocity when predicting where a fling ends. */
  const HIDE_FRICTION: real := 0.1

  /** Configuration and rest offsets the decisions read. */
  datatype Config = Config(
    fitToContents: bool,
    hideable: bool,
    skipCollapsed: bool,
    peekHeight: int,
    expandedOffset: int,
    fitToContentsOffset: int,
    halfExpandedOffset: int,
    collapsedOffset: int,
    parentHeight: int)
  {
    /** `getExpandedOffset()`. */
    function ExpandedTop(): int
    {
      Offsets.ExpandedOffset(fitToContents, fitToContentsOffset, expandedOffset)
    }
  }

  /** A resolved destination: the top offset and the state reached there. */
  datatype Target = Target(top: int, state: State)

  /**
   * The top `onLayoutChild` gives a sheet in state `s` (for a parent layout
   * that places the child at 0); None for the states it does not move to a
   * rest offset (Dragging, Settling, and Hidden when not hideable).
   */
  function RestTop(c: Config, s: State): (r: Option<int>)
    ensures r.Some? <==> (s == Expanded || s == HalfExpanded || s == Collapsed || (s == Hidden && c.hideable))
  {
    if s == Expanded then Some(c.ExpandedTop())
    else if s == HalfExpanded then Some(c.halfExpandedOffset)
    else if c.hideable && s == Hidden then Some(c.parentHeight)
    else if s == Collapsed then Some(c.collapsedOffset)
    else None
  }

  /** A target that is a rest position the layout pass places the sheet at. */
  predicate OnDetent(c: Config, t: Target)
  {
    RestTop(c, t.state) == Some(t.top)
  }

  /**
   * `|distance| / peekHeight > HIDE_THRESHOLD` with the threshold 0.5. Over
   * IEEE floats a zero peek gives an infinite quotient (or NaN for a zero
   * distance) and a negative peek a non-positive one, so the comparison is
   * `2 |distance| > peek` for every non-negative peek and false otherwise.
   */
  function HideRatioExceeds(distance: real, peekHeight: int): bool
  {
    peekHeight >= 0 && 2.0 * AbsReal(distance) > peekHeight as real
  }

  /** For a positive peek height the comparison is the quotient against one half. */
  lemma HideRatioIsQuotientTest(distance: real, peekHeight: int)
    requires peekHeight > 0
    ensures HideRatioExceeds(distance, peekHeight) <==> AbsReal(distance) / (peekHeight as real) > 0.5
  {
    var p := peekHeight as real;
    var q := AbsReal(distance) / p;
    assert AbsReal(distance) == q * p;
    if q > 0.5 {
      assert (q - 0.5) * p > 0.0 by { PositiveProduct(q - 0.5, p); }
    } else {
      assert (0.5 - q) * p >= 0.0 by { NonNegativeProduct(0.5 - q, p); }
    }
  }

  lemma PositiveProduct(a: real, b: real)
    requires a > 0.0 && b > 0.0
    ensures a * b > 0.0
  {
  }

  lemma NonNegativeProduct(a: real, b: real)
    requires a >= 0.0 && b >= 0.0
    ensures a * b >= 0.0
  {
  }

  /** `shouldHide`: whether a sheet released at `top` with velocity `yvel` hides. */
  function ShouldHide(c: Config, top: int, yvel: real): (r: bool)
    ensures c.skipCollapsed ==> r
    ensures !c.skipCollapsed && top < c.collapsedOffset ==> !r
  {
    if c.skipCollapsed then true
    else if top < c.collapsedOffset then false
    else
      var newTop := top as real + yvel * HIDE_FRICTION;
      HideRatioExceeds(newTop - c.collapsedOffset as real, c.peekHeight)
  }

  /** Away from the two short cuts, hiding is the friction-predicted quotient test. */
  lemma ShouldHideIsThreshold(c: Config, top: int, yvel: real)
    requires !c.skipCollapsed && top >= c.collapsedOffset && c.peekHeight > 0
    ensures ShouldHide(c, top, yvel)
        <==> AbsReal(top as real + yvel * HIDE_FRICTION - c.collapsedOffset as real) / (c.peekHeight as real) > 0.5
  {
    HideRatioIsQuotientTest(top as real + yvel * HIDE_FRICTION - c.collapsedOffset as real, c.peekHeight);
  }

  /**
   * Settle to the "nearest" height, as the nested comparison tree of the
   * release and stop handlers does it (ties go to the later candidate).
   */
  function NearestTarget(c: Config, top: int): Target
  {
    if c.fitToContents then
      if Abs(top - c.fitToContentsOffset) < Abs(top - c.collapsedOffset) then
        Target(c.fitToContentsOffset, Expanded)
      else
        Target(c.collapsedOffset, Collapsed)
    else if top < c.halfExpandedOffset then
      if top < Abs(top - c.collapsedOffset) then
        Target(c.expandedOffset, Expanded)
      else
        Target(c.halfExpandedOffset, HalfExpanded)
    else if Abs(top - c.halfExpandedOffset) < Abs(top - c.collapsedOffset) then
      Target(c.halfExpandedOffset, HalfExpanded)
    else
      Target(c.collapsedOffset, Collapsed)
  }

  /** Settle after a downward gesture. */
  function DownwardTarget(c: Config, top: int): Target
  {
    if c.fitToContents then
      Target(c.collapsedOffset, Collapsed)
    else if Abs(top - c.halfExpandedOffset) < Abs(top - c.collapsedOffset) then
      Target(c.halfExpandedOffset, HalfExpanded)
    else
      Target(c.collapsedOffset, Collapsed)
  }

  /** `onViewReleased`: the target of a drag released at `top` with velocity (xvel, yvel). */
  function ReleaseTarget(c: Config, top: int, xvel: real, yvel: real): Target
  {
    if yvel < 0.0 then
      if c.fitToContents then
        Target(c.fitToContentsOffset, Expanded)
      else if top > c.halfExpandedOffset then
        Target(c.halfExpandedOffset, HalfExpanded)
      else
        Target(c.expandedOffset, Expanded)
    else if c.hideable && ShouldHide(c, top, yvel)
         && (top > c.collapsedOffset || AbsReal(xvel) < AbsReal(yvel)) then
      Target(c.parentHeight, Hidden)
    else if yvel == 0.0 || AbsReal(xvel) > AbsReal(yvel) then
      NearestTarget(c, top)
    else
      DownwardTarget(c, top)
  }

  /**
   * `onStopNestedScroll` once past its early returns: the target after a nested
   * scroll whose last delta was `lastDy`, with fling velocity `yvel`.
   */
  function StopTarget(c: Config, top: int, lastDy: int, yvel: real): Target
  {
    if lastDy > 0 then
      Target(c.ExpandedTop(), Expanded)
    else if c.hideable && ShouldHide(c, top, yvel) then
      Target(c.parentHeight, Hidden)
    else if lastDy == 0 then
      NearestTarget(c, top)
    else
      DownwardTarget(c, top)
  }

  /**
   * `startSettlingAnimation`: the target of a programmatic request for state
   * `s`; None where the source throws IllegalArgumentException.
   */
  function SettleTarget(c: Config, s: State): Option<Target>
  {
    if s == Collapsed then
      Some(Target(c.collapsedOffset, Collapsed))
    else if s == HalfExpanded then
      if c.fitToContents && c.halfExpandedOffset <= c.fitToContentsOffset then
        Some(Target(c.fitToContentsOffset, Expanded))
      else
        Some(Target(c.halfExpandedOffset, HalfExpanded))
    else if s == Expanded then
      Some(Target(c.ExpandedTop(), Expanded))
    else if c.hideable && s == Hidden then
      Some(Target(c.parentHeight, Hidden))
    else
      None
  }

  // ---------------------------------------------------------------------
  // Properties of the resolvers

  /** An upward release always expands (one stage or two). */
  lemma ReleaseUpward(c: Config, top: int, xvel: real, yvel: real)
    requires yvel < 0.0
    ensures c.fitToContents ==> ReleaseTarget(c, top, xvel, yvel) == Target(c.fitToContentsOffset, Expanded)
    ensures !c.fitToContents && top > c.halfExpandedOffset ==>
              ReleaseTarget(c, top, xvel, yvel) == Target(c.halfExpandedOffset, HalfExpanded)
    ensures !c.fitToContents && top <= c.halfExpandedOffset ==>
              ReleaseTarget(c, top, xvel, yvel) == Target(c.expandedOffset, Expanded)
  {
  }

  /** A release hides exactly when the hide branch is taken, and then lands on the parent height. */
  lemma ReleaseHidesIff(c: Config, top: int, xvel: real, yvel: real)
    ensures ReleaseTarget(c, top, xvel, yvel).state == Hidden
        <==> (yvel >= 0.0 && c.hideable && ShouldHide(c, top, yvel)
              && (top > c.collapsedOffset || AbsReal(xvel) < AbsReal(yvel)))
    ensures ReleaseTarget(c, top, xvel, yvel).state == Hidden ==>
              ReleaseTarget(c, top, xvel, yvel).top == c.parentHeight
  {
  }

  /** With fit-to-contents, the nearest height is the strictly closer one; ties collapse. */
  lemma NearestFitToContents(c: Config, top: int)
    requires c.fitToContents
    ensures var t := NearestTarget(c, top);
      (t.state == Expanded <==> Abs(top - c.fitToContentsOffset) < Abs(top - c.collapsedOffset))
      && (t.state == Expanded ==> t.top == c.fitToContentsOffset)
      && (t.state != Expanded ==> t == Target(c.collapsedOffset, Collapsed))
      && Abs(top - t.top) <= Abs(top - c.fitToContentsOffset)
      && Abs(top - t.top) <= Abs(top - c.collapsedOffset)
  {
  }

  /**
   * In two-stage mode above the half-expanded offset, the choice between
   * expanded and half-expanded compares `top` itself, not its distance to
   * the expanded offset, against the distance to the collapsed offset.
   */
  lemma NearestTwoStageAboveHalf(c: Config, top: int)
    requires !c.fitToContents && top < c.halfExpandedOffset
    ensures var t := NearestTarget(c, top);
      (t.state == Expanded <==> top < Abs(top - c.collapsedOffset))
      && (t.state == Expanded ==> t.top == c.expandedOffset)
      && (t.state != Expanded ==> t == Target(c.halfExpandedOffset, HalfExpanded))
  {
  }

  /** In two-stage mode at or below the half-expanded offset, the closer of half-expanded and collapsed wins; ties collapse. */
  lemma NearestTwoStageBelowHalf(c: Config, top: int)
    requires !c.fitToContents && top >= c.halfExpandedOffset
    ensures var t := NearestTarget(c, top);
      (t.state == HalfExpanded <==> Abs(top - c.halfExpandedOffset) < Abs(top - c.collapsedOffset))
      && (t.state == HalfExpanded ==> t.top == c.halfExpandedOffset)
      && (t.state != HalfExpanded ==> t == Target(c.collapsedOffset, Collapsed))
      && Abs(top - t.top) <= Abs(top - c.halfExpandedOffset)
      && Abs(top - t.top) <= Abs(top - c.collapsedOffset)
  {
  }

  /** Equal distances with fit-to-contents resolve to Collapsed. */
  lemma NearestTieCollapses()
    ensures NearestTarget(Config(true, false, false, 0, 0, 0, 500, 1000, 1200), 500)
            == Target(1000, Collapsed)
  {
  }

  /**
   * The two-stage tree is not a global minimum: at top 400 with the
   * half-expanded offset at 500 (100 away) it still picks Expanded (400 away).
   */
  lemma NearestNotGlobalMinimum()
    ensures var c := Config(false, false, false, 0, 0, 0, 500, 1000, 1200);
      NearestTarget(c, 400) == Target(0, Expanded)
      && Abs(400 - c.halfExpandedOffset) < Abs(400 - c.expandedOffset)
  {
  }

  /** The worked hide example: 850 + 0.1 * 600 = 910, |910 - 800| / 100 = 1.1 > 0.5. */
  lemma ShouldHideExample()
    ensures ShouldHide(Config(true, true, false, 100, 0, 0, 500, 800, 1000), 850, 600.0)
  {
  }

  /** Every release lands on a rest position the layout pass would also use. */
  lemma ReleaseOnDetent(c: Config, top: int, xvel: real, yvel: real)
    ensures var t := ReleaseTarget(c, top, xvel, yvel);
      OnDetent(c, t) && !IsTransient(t.state)
      && (c.fitToContents ==> t.state != HalfExpanded)
      && (t.state == Hidden ==> c.hideable)
  {
    NearestOnDetent(c, top);
  }

  lemma NearestOnDetent(c: Config, top: int)
    ensures OnDetent(c, NearestTarget(c, top)) && OnDetent(c, DownwardTarget(c, top))
    ensures NearestTarget(c, top).state != Hidden && DownwardTarget(c, top).state != Hidden
    ensures c.fitToContents ==> NearestTarget(c, top).state != HalfExpanded
    ensures c.fitToContents ==> DownwardTarget(c, top).state == Collapsed
  {
  }

  /** Every nested-scroll stop lands on a rest position, and an upward last delta always expands. */
  lemma StopOnDetent(c: Config, top: int, lastDy: int, yvel: real)
    ensures var t := StopTarget(c, top, lastDy, yvel);
      OnDetent(c, t) && !IsTransient(t.state)
      && (c.fitToContents ==> t.state != HalfExpanded)
      && (t.state == Hidden ==> c.hideable)
      && (lastDy > 0 ==> t == Target(c.ExpandedTop(), Expanded))
  {
    NearestOnDetent(c, top);
  }

  /**
   * A nested scroll that stopped without a last delta settles as a drag
   * released with no velocity does, unless one of them hides.
   */
  lemma StopWithoutDeltaMatchesRelease(c: Config, top: int, flingVelocity: real, xvel: real)
    requires !(c.hideable && ShouldHide(c, top, flingVelocity))
    requires !(c.hideable && ShouldHide(c, top, 0.0) && top > c.collapsedOffset)
    ensures StopTarget(c, top, 0, flingVelocity) == ReleaseTarget(c, top, xvel, 0.0)
  {
  }

  /** A downward stop that does not hide settles where a vertical downward release does, in either mode. */
  lemma StopDownwardMatchesRelease(c: Config, top: int, lastDy: int, yvel: real)
    requires lastDy < 0 && yvel > 0.0
    requires !(c.hideable && ShouldHide(c, top, yvel))
    ensures StopTarget(c, top, lastDy, yvel) == ReleaseTarget(c, top, 0.0, yvel)
  {
  }

  /**
   * In two stages a downward settle picks half-expanded iff it is strictly
   * nearer than collapsed (ties collapse), and never the farther of the two.
   */
  lemma DownwardTwoStage(c: Config, top: int)
    requires !c.fitToContents
    ensures var t := DownwardTarget(c, top);
      (t.state == HalfExpanded <==> Abs(top - c.halfExpandedOffset) < Abs(top - c.collapsedOffset))
      && (t.state == HalfExpanded ==> t.top == c.halfExpandedOffset)
      && (t.state != HalfExpanded ==> t == Target(c.collapsedOffset, Collapsed))
      && Abs(top - t.top) <= Abs(top - c.halfExpandedOffset)
      && Abs(top - t.top) <= Abs(top - c.collapsedOffset)
  {
  }

  /**
   * A release that is neither upward nor hiding settles to the nearest height
   * when the velocity is zero or mostly horizontal, and downward otherwise.
   */
  lemma ReleaseDispatch(c: Config, top: int, xvel: real, yvel: real)
    requires yvel >= 0.0
    requires ReleaseTarget(c, top, xvel, yvel).state != Hidden
    ensures (yvel == 0.0 || AbsReal(xvel) > AbsReal(yvel)) ==>
              ReleaseTarget(c, top, xvel, yvel) == NearestTarget(c, top)
    ensures !(yvel == 0.0 || AbsReal(xvel) > AbsReal(yvel)) ==>
              ReleaseTarget(c, top, xvel, yvel) == DownwardTarget(c, top)
  {
    NearestOnDetent(c, top);
  }

  /** A nested-scroll stop hides iff its last delta was not upward and a hideable sheet passes shouldHide. */
  lemma StopHidesIff(c: Config, top: int, lastDy: int, yvel: real)
    ensures StopTarget(c, top, lastDy, yvel).state == Hidden
        <==> (lastDy <= 0 && c.hideable && ShouldHide(c, top, yvel))
    ensures StopTarget(c, top, lastDy, yvel).state == Hidden ==>
              StopTarget(c, top, lastDy, yvel).top == c.parentHeight
  {
    NearestOnDetent(c, top);
  }

  /** A downward stop that does not hide settles downward whatever the fling velocity. */
  lemma StopDownwardAnyVelocity(c: Config, top: int, lastDy: int, yvel: real)
    requires lastDy < 0 && !(c.hideable && ShouldHide(c, top, yvel))
    ensures StopTarget(c, top, lastDy, yvel) == DownwardTarget(c, top)
  {
  }

  /**
   * `startSettlingAnimation` accepts exactly the four rest states (Hidden only
   * when hideable), keeps the requested state except for the half-expanded
   * short cut to Expanded, and moves to the rest position of the state it keeps.
   */
  lemma SettleTargetSpec(c: Config, s: State)
    ensures SettleTarget(c, s).Some?
        <==> (s == Collapsed || s == Expanded || s == HalfExpanded || (s == Hidden && c.hideable))
    ensures SettleTarget(c, s).Some? ==> OnDetent(c, SettleTarget(c, s).value)
    ensures s == Collapsed ==> SettleTarget(c, s) == Some(Target(c.collapsedOffset, Collapsed))
    ensures s == Expanded ==> SettleTarget(c, s) == Some(Target(c.ExpandedTop(), Expanded))
    ensures s == Hidden && c.hideable ==> SettleTarget(c, s) == Some(Target(c.parentHeight, Hidden))
    ensures s == HalfExpanded && c.fitToContents && c.halfExpandedOffset <= c.fitToContentsOffset ==>
              SettleTarget(c, s) == Some(Target(c.fitToContentsOffset, Expanded))
    ensures s == HalfExpanded && !(c.fitToContents && c.halfExpandedOffset <= c.fitToContentsOffset) ==>
              SettleTarget(c, s) == Some(Target(c.halfExpandedOffset, HalfExpanded))
  {
  }
}

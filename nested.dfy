/** Nested pre-scroll consumption: how much of a scroll delta the sheet absorbs. */
module Nested {
  import opened Common
  import opened States
  import opened Resolver

  /** `ViewCompat.TYPE_NON_TOUCH`: the scroll type of a fling. */
  const TYPE_NON_TOUCH: int := 1

  /** `ViewCompat.SCROLL_AXIS_VERTICAL`. */
  const SCROLL_AXIS_VERTICAL: bv32 := 2

  /** `onStartNestedScroll` claims a scroll whose axes include the vertical one. */
  function AcceptsAxes(axes: bv32): (r: bool)
    ensures r <==> axes & SCROLL_AXIS_VERTICAL == SCROLL_AXIS_VERTICAL
  {
    axes & SCROLL_AXIS_VERTICAL != 0
  }

  /** The part of a delta the sheet absorbs, and the state it sets. */
  datatype Absorb = Absorb(consumed: int, state: State)

  /**
   * `onNestedPreScroll` for a touch scroll of the sheet's scrolling child:
   * None when the sheet absorbs nothing (no delta, or a downward delta the
   * child can still take by scrolling up).
   */
  function PreScroll(c: Config, top: int, dy: int, canScrollUp: bool): Option<Absorb>
  {
    var newTop := top - dy;
    if dy > 0 then
      if newTop < c.ExpandedTop() then Some(Absorb(top - c.ExpandedTop(), Expanded))
      else Some(Absorb(dy, Dragging))
    else if dy < 0 then
      if !canScrollUp then
        if newTop <= c.collapsedOffset || c.hideable then Some(Absorb(dy, Dragging))
        else Some(Absorb(top - c.collapsedOffset, Collapsed))
      else None
    else None
  }

  /** The top after a pre-scroll step. */
  function TopAfter(top: int, a: Option<Absorb>): int
  {
    if a.Some? then top - a.value.consumed else top
  }

  /** An upward delta that would pass the expanded top consumes exactly enough to land there. */
  lemma UpwardLandsOnExpanded(c: Config, top: int, dy: int, canScrollUp: bool)
    requires dy > 0 && top - dy < c.ExpandedTop()
    ensures var a := PreScroll(c, top, dy, canScrollUp);
      a == Some(Absorb(top - c.ExpandedTop(), Expanded))
      && TopAfter(top, a) == c.ExpandedTop()
      && a.value.consumed < dy
  {
  }

  /** Any other upward delta is consumed in full while dragging. */
  lemma UpwardConsumesAll(c: Config, top: int, dy: int, canScrollUp: bool)
    requires dy > 0 && top - dy >= c.ExpandedTop()
    ensures PreScroll(c, top, dy, canScrollUp) == Some(Absorb(dy, Dragging))
  {
  }

  /** A non-hideable sheet pushed past its collapsed offset lands exactly there. */
  lemma DownwardLandsOnCollapsed(c: Config, top: int, dy: int)
    requires dy < 0 && !c.hideable && top - dy > c.collapsedOffset
    ensures var a := PreScroll(c, top, dy, false);
      a == Some(Absorb(top - c.collapsedOffset, Collapsed))
      && TopAfter(top, a) == c.collapsedOffset
      && a.value.consumed > dy
  {
  }

  /** A non-hideable sheet that stays at or above its collapsed offset takes a downward delta whole. */
  lemma DownwardConsumesAll(c: Config, top: int, dy: int)
    requires dy < 0 && !c.hideable && top - dy <= c.collapsedOffset
    ensures PreScroll(c, top, dy, false) == Some(Absorb(dy, Dragging))
    ensures TopAfter(top, PreScroll(c, top, dy, false)) == top - dy
  {
  }

  /** A zero delta absorbs nothing and leaves the sheet where it is. */
  lemma ZeroDeltaAbsorbsNothing(c: Config, top: int, canScrollUp: bool)
    ensures PreScroll(c, top, 0, canScrollUp) == None
    ensures TopAfter(top, PreScroll(c, top, 0, canScrollUp)) == top
  {
  }

  /** While the scrolling child can still scroll up, a downward delta is left to it. */
  lemma DownwardLeftToScrollingChild(c: Config, top: int, dy: int)
    requires dy < 0
    ensures PreScroll(c, top, dy, true) == None
  {
  }

  /** Upward steps never overshoot the expanded top; downward steps of a non-hideable sheet never pass the collapsed offset. */
  lemma PreScrollNeverOvershoots(c: Config, top: int, dy: int, canScrollUp: bool)
    ensures dy > 0 ==> TopAfter(top, PreScroll(c, top, dy, canScrollUp)) >= c.ExpandedTop()
    ensures dy < 0 && !c.hideable ==> TopAfter(top, PreScroll(c, top, dy, canScrollUp)) <= Max(top, c.collapsedOffset)
    ensures PreScroll(c, top, dy, canScrollUp).Some? ==>
              PreScroll(c, top, dy, canScrollUp).value.state in {Expanded, Dragging, Collapsed}
  {
  }

  /** A hideable sheet takes every downward delta whole, even beyond the parent's bottom. */
  lemma HideableDownwardUnbounded(c: Config, top: int, dy: int)
    requires dy < 0 && c.hideable
    ensures PreScroll(c, top, dy, false) == Some(Absorb(dy, Dragging))
    ensures TopAfter(top, PreScroll(c, top, dy, false)) == top - dy
  {
  }

  /** One call of the nested-scroll protocol's pre-scroll hook. */
  datatype Step = Step(dy: int, touch: bool, canScrollUp: bool)

  /** The sheet's top after a run of pre-scroll calls of one nested scroll (flings are ignored). */
  function TopAfterRun(c: Config, top: int, steps: seq<Step>): int
    decreases |steps|
  {
    if steps == [] then top
    else
      var s := steps[0];
      var next := if s.touch then TopAfter(top, PreScroll(c, top, s.dy, s.canScrollUp)) else top;
      TopAfterRun(c, next, steps[1..])
  }

  /** A non-hideable sheet that starts between its expanded and collapsed tops stays there through any run. */
  lemma {:induction false} RunStaysInRange(c: Config, top: int, steps: seq<Step>)
    requires !c.hideable
    requires c.ExpandedTop() <= top <= c.collapsedOffset
    ensures c.ExpandedTop() <= TopAfterRun(c, top, steps) <= c.collapsedOffset
    decreases |steps|
  {
    if steps != [] {
      var s := steps[0];
      var next := if s.touch then TopAfter(top, PreScroll(c, top, s.dy, s.canScrollUp)) else top;
      assert c.ExpandedTop() <= next <= c.collapsedOffset;
      RunStaysInRange(c, next, steps[1..]);
    }
  }
}

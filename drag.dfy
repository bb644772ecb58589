/** Drag-capture callbacks: capture decision, position clamping and drag range. */
module Drag {
  import opened States
  import opened Resolver

  /** `MathUtils.clamp(value, min, max)` as the support library defines it. */
  function Clamp(value: int, min: int, max: int): (r: int)
    ensures min <= max ==> min <= r <= max
    ensures min <= value <= max ==> r == value
    ensures value < min ==> r == min
    ensures min <= value && max < value ==> r == max
  {
    if value < min then min else if value > max then max else value
  }

  /** `clampViewPositionVertical`. */
  function ClampVertical(c: Config, top: int): int
  {
    Clamp(top, c.ExpandedTop(), VerticalDragRange(c))
  }

  /** `clampViewPositionHorizontal`: the sheet never moves sideways. */
  function ClampHorizontal(childLeft: int, left: int): (r: int)
    ensures r == childLeft
  {
    childLeft
  }

  /**
   * `getViewVerticalDragRange`, which is also the lowest top the vertical
   * clamp allows: the hidden offset if hideable, else the collapsed one.
   */
  function VerticalDragRange(c: Config): int
  {
    if c.hideable then c.parentHeight else c.collapsedOffset
  }

  /** A dragged sheet stays between its expanded top and its drag limit, and moves freely inside. */
  lemma ClampVerticalRange(c: Config, top: int)
    requires c.ExpandedTop() <= VerticalDragRange(c)
    ensures c.ExpandedTop() <= ClampVertical(c, top) <= VerticalDragRange(c)
    ensures c.ExpandedTop() <= top <= VerticalDragRange(c) ==> ClampVertical(c, top) == top
    ensures ClampVertical(c, ClampVertical(c, top)) == ClampVertical(c, top)
  {
  }

  /** Every top at or beyond the drag range the helper is given clamps to that range. */
  lemma DragRangeIsClampLimit(c: Config, top: int)
    requires c.ExpandedTop() <= VerticalDragRange(c)
    ensures top >= VerticalDragRange(c) ==> ClampVertical(c, top) == VerticalDragRange(c)
  {
  }

  /**
   * `tryCaptureView`. `pointerIsActive` says the capturing pointer is the one
   * that started on the scrolling child, `scrollCanScrollUp` that this child
   * exists and can still scroll up, `isSheet` that the view is the laid-out sheet.
   */
  function TryCapture(state: State, touchingScrollingChild: bool, pointerIsActive: bool,
                      scrollCanScrollUp: bool, isSheet: bool): (r: bool)
    ensures r ==> isSheet && state != Dragging && !touchingScrollingChild
    ensures r ==> !(state == Expanded && pointerIsActive && scrollCanScrollUp)
  {
    if state == Dragging then false
    else if touchingScrollingChild then false
    else if state == Expanded && pointerIsActive && scrollCanScrollUp then false
    else isSheet
  }

  /** The capture refusals are the only ones: otherwise the sheet is captured. */
  lemma TryCaptureIff(state: State, touchingScrollingChild: bool, pointerIsActive: bool,
                      scrollCanScrollUp: bool, isSheet: bool)
    ensures TryCapture(state, touchingScrollingChild, pointerIsActive, scrollCanScrollUp, isSheet)
        <==> (isSheet && state != Dragging && !touchingScrollingChild
              && !(state == Expanded && pointerIsActive && scrollCanScrollUp))
  {
  }
}

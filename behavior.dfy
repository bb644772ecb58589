/**
 * The bottom-sheet behaviour object: its configuration, rest offsets and
 * discrete state, updated in place by the layout pass, the setters, the
 * drag and nested-scroll callbacks, the settle frames and save/restore.
 *
 * The drag helper's answer to "slide the sheet to this top" is the oracle
 * `needsAnimation` (true: it has started an animation); its per-frame
 * "still settling" answer is `stillMoving`.
 */
module Behavior {
  import opened Common
  import opened States
  import Offsets
  import opened Resolver
  import Slide
  import Nested
  import opened Saved

  /** The argument errors the setters and `startSettlingAnimation` throw. */
  datatype Error = IllegalRatio(ratio: real) | IllegalOffset(offset: int) | IllegalStateArgument(state: State)

  datatype Outcome = Pass | Fail(error: Error)

  /** A callback notification: `onStateChanged` or `onSlide`. */
  datatype Event = StateChanged(state: State) | Slid(offset: Option<real>)

  /**
   * Where `onLayoutChild` puts the sheet in state `s`, when the parent's own
   * layout put it at `layoutTop` and it was at `savedTop` before.
   */
  function PlacedTop(c: Config, s: State, layoutTop: int, savedTop: int): (r: int)
    ensures RestTop(c, s).Some? ==> r == layoutTop + RestTop(c, s).value
    ensures IsTransient(s) ==> r == savedTop
    ensures s == Hidden && !c.hideable ==> r == layoutTop
  {
    match RestTop(c, s)
    case Some(offset) => layoutTop + offset
    case None => if IsTransient(s) then savedTop else layoutTop
  }

  /** A sheet that settled after a release stays where it is on the next layout pass. */
  lemma LayoutKeepsReleasedSheet(c: Config, top: int, xvel: real, yvel: real, savedTop: int)
    ensures var t := ReleaseTarget(c, top, xvel, yvel);
      PlacedTop(c, t.state, 0, savedTop) == t.top
  {
    ReleaseOnDetent(c, top, xvel, yvel);
  }

  /** A sheet that settled after a nested scroll stays where it is on the next layout pass. */
  lemma LayoutKeepsStoppedSheet(c: Config, top: int, lastDy: int, yvel: real, savedTop: int)
    ensures var t := StopTarget(c, top, lastDy, yvel);
      PlacedTop(c, t.state, 0, savedTop) == t.top
  {
    StopOnDetent(c, top, lastDy, yvel);
  }

  class BottomSheetBehavior {
    var saveFlags: bv32
    var fitToContents: bool
    /** Peek height set by the user (kept while the automatic peek is on). */
    var peekHeight: int
    var peekHeightAuto: bool
    var peekHeightMin: int
    var expandedOffset: int
    var fitToContentsOffset: int
    var halfExpandedOffset: int
    var halfExpandedRatio: real
    var collapsedOffset: int
    var hideable: bool
    var skipCollapsed: bool
    var state: State
    var lastNestedScrollDy: int
    var nestedScrolled: bool
    var parentWidth: int
    var parentHeight: int
    /** The sheet has been laid out and its view is alive. */
    var laidOut: bool
    /** The sheet view's top. */
    var top: int
    /** The sheet view has asked for a layout pass. */
    var layoutRequested: bool
    /** The notifications the callback has received, oldest first. */
    var events: seq<Event>
    /** Targets of the posted settle frame callbacks, in the order they run. */
    var animations: seq<State>
    /** States whose settle was posted to run after the pending layout. */
    var deferred: seq<State>

    /** The setters' validation: a ratio strictly inside (0, 1) and a non-negative expanded offset. */
    ghost predicate Valid()
      reads this
    {
      0.0 < halfExpandedRatio < 1.0 && expandedOffset >= 0
    }

    /** What the resolvers read. */
    function Snapshot(): Config
      reads this
    {
      Config(fitToContents, hideable, skipCollapsed, peekHeight, expandedOffset,
             fitToContentsOffset, halfExpandedOffset, collapsedOffset, parentHeight)
    }

    /** `onSaveInstanceState`: the fields a `SavedState` takes from the behaviour. */
    function SavedFields(): SavedState
      reads this
    {
      SavedState(state, peekHeight, fitToContents, hideable, skipCollapsed)
    }

    /** `getPeekHeight`. */
    function GetPeekHeight(): int
      reads this
    {
      if peekHeightAuto then Offsets.PEEK_HEIGHT_AUTO else peekHeight
    }

    /** The collapsed offset the current configuration and geometry give. */
    function CollapsedNow(): int
      reads this
    {
      Offsets.CollapsedOffset(fitToContents,
        Offsets.EffectivePeek(peekHeightAuto, peekHeight, peekHeightMin, parentHeight, parentWidth),
        parentHeight, fitToContentsOffset)
    }

    /** The callback notification a change from `prev` to `next` produces. */
    function Notify(prev: State, next: State): seq<Event>
      reads this
    {
      if prev == next || !laidOut then [] else [StateChanged(next)]
    }

    /** The `onSlide` notification a move to `t` produces. */
    function SlideEvent(t: int): seq<Event>
      reads this
    {
      if laidOut then [Slid(Slide.SlideOffset(t, collapsedOffset, parentHeight, Snapshot().ExpandedTop()))] else []
    }

    /**
     * The state after settling towards `target` from `s0`: Settling with a
     * frame callback posted when the helper animates, else `target` at once.
     */
    ghost predicate SettledTo(s0: State, changes0: seq<Event>, anims0: seq<State>,
                              target: State, needsAnimation: bool)
      reads this
    {
      if needsAnimation then
        state == Settling && animations == anims0 + [target]
        && events == changes0 + Notify(s0, Settling)
      else
        state == target && animations == anims0 && events == changes0 + Notify(s0, target)
    }

    constructor ()
      ensures Valid()
      ensures state == Collapsed && fitToContents && !hideable && !skipCollapsed
      ensures saveFlags == SAVE_NONE && peekHeight == 0 && !peekHeightAuto
      ensures halfExpandedRatio == 0.5 && expandedOffset == 0
      ensures !laidOut && events == [] && animations == [] && deferred == []
    {
      saveFlags := SAVE_NONE;
      fitToContents := true;
      peekHeight := 0;
      peekHeightAuto := false;
      peekHeightMin := 0;
      expandedOffset := 0;
      fitToContentsOffset := 0;
      halfExpandedOffset := 0;
      halfExpandedRatio := 0.5;
      collapsedOffset := 0;
      hideable := false;
      skipCollapsed := false;
      state := Collapsed;
      lastNestedScrollDy := 0;
      nestedScrolled := false;
      parentWidth := 0;
      parentHeight := 0;
      laidOut := false;
      top := 0;
      layoutRequested := false;
      events := [];
      animations := [];
      deferred := [];
    }

    // -------------------------------------------------------------------
    // Rest offsets and layout

    method CalculateCollapsedOffset()
      modifies this`collapsedOffset
      ensures collapsedOffset == CollapsedNow()
      ensures fitToContents ==> collapsedOffset >= fitToContentsOffset
    {
      var peek;
      if peekHeightAuto {
        peek := Max(peekHeightMin, parentHeight - JavaDiv(parentWidth * 9, 16));
      } else {
        peek := peekHeight;
      }
      if fitToContents {
        collapsedOffset := Max(parentHeight - peek, fitToContentsOffset);
      } else {
        collapsedOffset := parentHeight - peek;
      }
    }

    method CalculateHalfExpandedOffset()
      modifies this`halfExpandedOffset
      ensures halfExpandedOffset == Offsets.HalfExpandedOffset(parentHeight, halfExpandedRatio)
      ensures Valid() && parentHeight >= 0 ==> 0 <= halfExpandedOffset <= parentHeight
    {
      halfExpandedOffset := TruncToInt(parentHeight as real * (1.0 - halfExpandedRatio));
      if Valid() && parentHeight >= 0 {
        Offsets.HalfExpandedWithinParent(parentHeight, halfExpandedRatio);
      }
    }

    /**
     * The offset part of `onLayoutChild`: the parent measured `width` by
     * `height`, gave the sheet `childHeight` and put it at `layoutTop`;
     * `peekMin` is the minimum peek resource read on the first layout.
     */
    method OnLayoutChild(width: int, height: int, childHeight: int, layoutTop: int, peekMin: int)
      modifies this`peekHeightMin, this`laidOut, this`parentWidth, this`parentHeight,
               this`fitToContentsOffset, this`halfExpandedOffset, this`collapsedOffset,
               this`top, this`layoutRequested
      ensures laidOut && !layoutRequested
      ensures peekHeightMin == if old(laidOut) then old(peekHeightMin) else peekMin
      ensures parentWidth == width && parentHeight == height
      ensures fitToContentsOffset == Offsets.FitToContentsOffset(height, childHeight)
      ensures halfExpandedOffset == Offsets.HalfExpandedOffset(height, halfExpandedRatio)
      ensures collapsedOffset == CollapsedNow()
      ensures top == PlacedTop(Snapshot(), state, layoutTop, old(top))
      ensures Valid() && height >= 0 ==> 0 <= halfExpandedOffset <= height
      ensures fitToContents ==> fitToContentsOffset <= collapsedOffset
    {
      if !laidOut {
        peekHeightMin := peekMin;
        laidOut := true;
      }
      var savedTop := top;
      top := layoutTop;
      parentWidth := width;
      parentHeight := height;
      fitToContentsOffset := Max(0, parentHeight - childHeight);
      CalculateHalfExpandedOffset();
      CalculateCollapsedOffset();
      if state == Expanded {
        top := top + Offsets.ExpandedOffset(fitToContents, fitToContentsOffset, expandedOffset);
      } else if state == HalfExpanded {
        top := top + halfExpandedOffset;
      } else if hideable && state == Hidden {
        top := top + parentHeight;
      } else if state == Collapsed {
        top := top + collapsedOffset;
      } else if state == Dragging || state == Settling {
        top := top + (savedTop - top);
      }
      layoutRequested := false;
    }

    // -------------------------------------------------------------------
    // State changes and settling

    /** `setStateInternal`: a change to the current state does nothing and notifies no one. */
    method SetStateInternal(s: State)
      modifies this`state, this`events
      ensures state == s
      ensures events == old(events) + Notify(old(state), s)
      ensures old(state) == s ==> events == old(events)
    {
      if state == s {
        return;
      }
      state := s;
      if !laidOut {
        return;
      }
      events := events + [StateChanged(s)];
    }

    /** The common tail of every settle: slide with the helper, or set the target state. */
    method SettleTo(target: State, needsAnimation: bool)
      modifies this`state, this`events, this`animations
      ensures SettledTo(old(state), old(events), old(animations), target, needsAnimation)
    {
      if needsAnimation {
        SetStateInternal(Settling);
        animations := animations + [target];
      } else {
        SetStateInternal(target);
      }
    }

    /** `startSettlingAnimation`: settle to the rest position of a requested state. */
    method StartSettlingAnimation(s: State, needsAnimation: bool) returns (o: Outcome)
      modifies this`state, this`events, this`animations
      ensures SettleTarget(Snapshot(), s).None? ==>
                o == Fail(IllegalStateArgument(s)) && state == old(state)
                && events == old(events) && animations == old(animations)
      ensures SettleTarget(Snapshot(), s).Some? ==>
                o == Pass
                && SettledTo(old(state), old(events), old(animations),
                             SettleTarget(Snapshot(), s).value.state, needsAnimation)
    {
      var t := SettleTarget(Snapshot(), s);
      if t.None? {
        return Fail(IllegalStateArgument(s));
      }
      SettleTo(t.value.state, needsAnimation);
      o := Pass;
    }

    /** `startSettlingAnimationPendingLayout`: wait for a pending layout pass before settling. */
    method StartSettlingAnimationPendingLayout(s: State, parentLayoutPending: bool, needsAnimation: bool)
      returns (o: Outcome)
      modifies this`state, this`events, this`animations, this`deferred
      ensures parentLayoutPending ==>
                o == Pass && deferred == old(deferred) + [s] && state == old(state)
                && events == old(events) && animations == old(animations)
      ensures !parentLayoutPending ==> deferred == old(deferred)
      ensures !parentLayoutPending && SettleTarget(Snapshot(), s).None? ==>
                o == Fail(IllegalStateArgument(s)) && state == old(state)
                && events == old(events) && animations == old(animations)
      ensures !parentLayoutPending && SettleTarget(Snapshot(), s).Some? ==>
                o == Pass
                && SettledTo(old(state), old(events), old(animations),
                             SettleTarget(Snapshot(), s).value.state, needsAnimation)
    {
      if parentLayoutPending {
        deferred := deferred + [s];
        o := Pass;
      } else {
        o := StartSettlingAnimation(s, needsAnimation);
      }
    }

    /** The posted runnable that settles once the pending layout pass is over. */
    method RunDeferred(needsAnimation: bool) returns (o: Outcome)
      requires deferred != []
      modifies this`state, this`events, this`animations, this`deferred
      ensures deferred == old(deferred)[1..]
      ensures SettleTarget(Snapshot(), old(deferred)[0]).None? ==>
                o == Fail(IllegalStateArgument(old(deferred)[0])) && state == old(state)
                && events == old(events) && animations == old(animations)
      ensures SettleTarget(Snapshot(), old(deferred)[0]).Some? ==>
                o == Pass
                && SettledTo(old(state), old(events), old(animations),
                             SettleTarget(Snapshot(), old(deferred)[0]).value.state, needsAnimation)
    {
      var s := deferred[0];
      deferred := deferred[1..];
      o := StartSettlingAnimation(s, needsAnimation);
    }

    /**
     * `SettleRunnable.run` for the oldest posted frame callback: re-post while
     * the helper is still moving; otherwise finish, but only if the sheet is
     * still Settling (a newer state change wins).
     */
    method RunSettleFrame(stillMoving: bool)
      requires animations != []
      modifies this`state, this`events, this`animations
      ensures stillMoving ==>
                animations == old(animations)[1..] + [old(animations)[0]]
                && state == old(state) && events == old(events)
      ensures !stillMoving ==> animations == old(animations)[1..]
      ensures !stillMoving && old(state) == Settling ==>
                state == old(animations)[0]
                && events == old(events) + Notify(Settling, old(animations)[0])
      ensures !stillMoving && old(state) != Settling ==>
                state == old(state) && events == old(events)
    {
      var target := animations[0];
      animations := animations[1..];
      if stillMoving {
        animations := animations + [target];
      } else if state == Settling {
        SetStateInternal(target);
      }
    }

    /**
     * `setState`: a request for the current state does nothing; before the
     * first layout only a rest state (Hidden only when hideable) is stored,
     * silently; afterwards the sheet settles to the requested state.
     */
    method SetState(s: State, parentLayoutPending: bool, needsAnimation: bool) returns (o: Outcome)
      modifies this`state, this`events, this`animations, this`deferred
      ensures old(state) == s ==>
                o == Pass && state == s && events == old(events)
                && animations == old(animations) && deferred == old(deferred)
      ensures old(state) != s && !laidOut ==>
                o == Pass && events == old(events)
                && animations == old(animations) && deferred == old(deferred)
                && state == (if s == Collapsed || s == Expanded || s == HalfExpanded || (hideable && s == Hidden)
                             then s else old(state))
      ensures old(state) != s && laidOut && parentLayoutPending ==>
                o == Pass && deferred == old(deferred) + [s] && state == old(state)
                && events == old(events) && animations == old(animations)
      ensures old(state) != s && laidOut && !parentLayoutPending ==> deferred == old(deferred)
      ensures old(state) != s && laidOut && !parentLayoutPending && SettleTarget(Snapshot(), s).None? ==>
                o == Fail(IllegalStateArgument(s)) && state == old(state)
                && events == old(events) && animations == old(animations)
      ensures old(state) != s && laidOut && !parentLayoutPending && SettleTarget(Snapshot(), s).Some? ==>
                o == Pass
                && SettledTo(old(state), old(events), old(animations),
                             SettleTarget(Snapshot(), s).value.state, needsAnimation)
    {
      if s == state {
        return Pass;
      }
      if !laidOut {
        if s == Collapsed || s == Expanded || s == HalfExpanded || (hideable && s == Hidden) {
          state := s;
        }
        return Pass;
      }
      o := StartSettlingAnimationPendingLayout(s, parentLayoutPending, needsAnimation);
    }

    // -------------------------------------------------------------------
    // Configuration setters

    /**
     * `setFitToContents`: recompute the collapsed offset once laid out, and
     * turn HalfExpanded into Expanded when fitting to contents.
     */
    method SetFitToContents(fit: bool)
      modifies this`fitToContents, this`collapsedOffset, this`state, this`events
      ensures fitToContents == fit
      ensures old(fitToContents) == fit ==>
                collapsedOffset == old(collapsedOffset) && state == old(state)
                && events == old(events)
      ensures old(fitToContents) != fit ==>
                collapsedOffset == (if laidOut then CollapsedNow() else old(collapsedOffset))
                && state == (if fit && old(state) == HalfExpanded then Expanded else old(state))
                && events == old(events) + Notify(old(state), state)
    {
      if fitToContents == fit {
        return;
      }
      fitToContents := fit;
      if laidOut {
        CalculateCollapsedOffset();
      }
      SetStateInternal(if fitToContents && state == HalfExpanded then Expanded else state);
    }

    /**
     * `setPeekHeight(peek, animate)`: PEEK_HEIGHT_AUTO switches to the
     * automatic peek, any other value is stored clamped at 0. A change on a
     * laid-out collapsed sheet re-settles it (animated) or asks for a layout.
     */
    method SetPeekHeight(peek: int, animate: bool, parentLayoutPending: bool, needsAnimation: bool)
      modifies this`peekHeightAuto, this`peekHeight, this`collapsedOffset, this`layoutRequested,
               this`state, this`events, this`animations, this`deferred
      ensures var changed := if peek == Offsets.PEEK_HEIGHT_AUTO then !old(peekHeightAuto)
                             else old(peekHeightAuto) || old(peekHeight) != peek;
        && peekHeightAuto == (peek == Offsets.PEEK_HEIGHT_AUTO)
        && peekHeight == (if peek != Offsets.PEEK_HEIGHT_AUTO && changed then Max(0, peek) else old(peekHeight))
        && collapsedOffset == (if changed && laidOut then CollapsedNow() else old(collapsedOffset))
        && var resettle := changed && laidOut && old(state) == Collapsed;
        && layoutRequested == (old(layoutRequested) || (resettle && !animate))
        && (resettle && animate && parentLayoutPending ==>
              deferred == old(deferred) + [Collapsed] && state == old(state)
              && events == old(events) && animations == old(animations))
        && (resettle && animate && !parentLayoutPending ==>
              deferred == old(deferred)
              && SettledTo(old(state), old(events), old(animations), Collapsed, needsAnimation))
        && (!(resettle && animate) ==>
              deferred == old(deferred) && state == old(state)
              && events == old(events) && animations == old(animations))
      ensures GetPeekHeight() == (if peek == Offsets.PEEK_HEIGHT_AUTO then Offsets.PEEK_HEIGHT_AUTO
                                  else if old(peekHeightAuto) || old(peekHeight) != peek then Max(0, peek)
                                  else peek)
    {
      var layout := false;
      if peek == Offsets.PEEK_HEIGHT_AUTO {
        if !peekHeightAuto {
          peekHeightAuto := true;
          layout := true;
        }
      } else if peekHeightAuto || peekHeight != peek {
        peekHeightAuto := false;
        peekHeight := Max(0, peek);
        layout := true;
      }
      if layout && laidOut {
        CalculateCollapsedOffset();
        if state == Collapsed {
          if animate {
            var o := StartSettlingAnimationPendingLayout(state, parentLayoutPending, needsAnimation);
          } else {
            layoutRequested := true;
          }
        }
      }
    }

    /** `setHalfExpandedRatio`: only a ratio strictly between 0 and 1 is accepted. */
    method SetHalfExpandedRatio(ratio: real) returns (o: Outcome)
      modifies this`halfExpandedRatio
      ensures o.Fail? <==> (ratio <= 0.0 || ratio >= 1.0)
      ensures o.Fail? ==> o.error == IllegalRatio(ratio) && halfExpandedRatio == old(halfExpandedRatio)
      ensures o.Pass? ==> halfExpandedRatio == ratio
      ensures old(Valid()) ==> Valid()
    {
      if ratio <= 0.0 || ratio >= 1.0 {
        return Fail(IllegalRatio(ratio));
      }
      halfExpandedRatio := ratio;
      o := Pass;
    }

    /** `setExpandedOffset`: only a non-negative offset is accepted. */
    method SetExpandedOffset(offset: int) returns (o: Outcome)
      modifies this`expandedOffset
      ensures o.Fail? <==> offset < 0
      ensures o.Fail? ==> o.error == IllegalOffset(offset) && expandedOffset == old(expandedOffset)
      ensures o.Pass? ==> expandedOffset == offset
      ensures old(Valid()) ==> Valid()
    {
      if offset < 0 {
        return Fail(IllegalOffset(offset));
      }
      expandedOffset := offset;
      o := Pass;
    }

    /** `setHideable`: turning hiding off lifts a hidden sheet to Collapsed. */
    method SetHideable(h: bool, parentLayoutPending: bool, needsAnimation: bool)
      modifies this`hideable, this`state, this`events, this`animations, this`deferred
      ensures hideable == h
      ensures var lift := old(hideable) != h && !h && old(state) == Hidden;
        && (!lift ==>
              state == old(state) && events == old(events)
              && animations == old(animations) && deferred == old(deferred))
        && (lift && !laidOut ==>
              state == Collapsed && events == old(events)
              && animations == old(animations) && deferred == old(deferred))
        && (lift && laidOut && parentLayoutPending ==>
              deferred == old(deferred) + [Collapsed] && state == Hidden
              && events == old(events) && animations == old(animations))
        && (lift && laidOut && !parentLayoutPending ==>
              deferred == old(deferred)
              && SettledTo(Hidden, old(events), old(animations), Collapsed, needsAnimation))
    {
      if hideable != h {
        hideable := h;
        if !h && state == Hidden {
          var o := SetState(Collapsed, parentLayoutPending, needsAnimation);
        }
      }
    }

    method SetSkipCollapsed(skip: bool)
      modifies this`skipCollapsed
      ensures skipCollapsed == skip
    {
      skipCollapsed := skip;
    }

    method SetSaveFlags(flags: bv32)
      modifies this`saveFlags
      ensures saveFlags == flags
    {
      saveFlags := flags;
    }

    // -------------------------------------------------------------------
    // Drag callbacks

    /** `dispatchOnSlide`: report the normalised offset of `t` to the callback. */
    method DispatchOnSlide(t: int)
      modifies this`events
      ensures events == old(events) + SlideEvent(t)
    {
      if laidOut {
        var expandedTop := Offsets.ExpandedOffset(fitToContents, fitToContentsOffset, expandedOffset);
        events := events + [Slid(Slide.SlideOffset(t, collapsedOffset, parentHeight, expandedTop))];
      }
    }

    /** `onViewDragStateChanged`: the helper has started dragging the sheet. */
    method OnViewDragStateChanged(helperDragging: bool)
      modifies this`state, this`events
      ensures helperDragging ==> state == Dragging && events == old(events) + Notify(old(state), Dragging)
      ensures !helperDragging ==> state == old(state) && events == old(events)
    {
      if helperDragging {
        SetStateInternal(Dragging);
      }
    }

    /** `onViewPositionChanged`: the helper has moved the sheet to `newTop`. */
    method OnViewPositionChanged(newTop: int)
      modifies this`top, this`events
      ensures top == newTop
      ensures events == old(events) + SlideEvent(newTop)
    {
      top := newTop;
      DispatchOnSlide(newTop);
    }

    /** `onViewReleased`: settle to the target the release resolver picks. */
    method OnViewReleased(xvel: real, yvel: real, needsAnimation: bool)
      modifies this`state, this`events, this`animations
      ensures SettledTo(old(state), old(events), old(animations),
                        ReleaseTarget(Snapshot(), top, xvel, yvel).state, needsAnimation)
    {
      var t := ReleaseTarget(Snapshot(), top, xvel, yvel);
      SettleTo(t.state, needsAnimation);
    }

    // -------------------------------------------------------------------
    // Nested scrolling

    /** `onStartNestedScroll`: reset the scroll accounting and claim vertical scrolls. */
    method OnStartNestedScroll(axes: bv32) returns (accepted: bool)
      modifies this`lastNestedScrollDy, this`nestedScrolled
      ensures accepted == Nested.AcceptsAxes(axes)
      ensures lastNestedScrollDy == 0 && !nestedScrolled
    {
      lastNestedScrollDy := 0;
      nestedScrolled := false;
      accepted := axes & Nested.SCROLL_AXIS_VERTICAL != 0;
    }

    /**
     * `onNestedPreScroll`: absorb part of a touch scroll of the scrolling
     * child into `consumed[1]` and move the sheet by it.
     */
    method OnNestedPreScroll(dy: int, consumed: array<int>, scrollType: int,
                             targetIsScrollingChild: bool, targetCanScrollUp: bool)
      requires consumed.Length >= 2
      modifies consumed, this`top, this`state, this`events,
               this`lastNestedScrollDy, this`nestedScrolled
      ensures scrollType == Nested.TYPE_NON_TOUCH || !targetIsScrollingChild ==>
                consumed[..] == old(consumed[..]) && top == old(top) && state == old(state)
                && events == old(events)
                && lastNestedScrollDy == old(lastNestedScrollDy) && nestedScrolled == old(nestedScrolled)
      ensures scrollType != Nested.TYPE_NON_TOUCH && targetIsScrollingChild ==>
                var a := Nested.PreScroll(Snapshot(), old(top), dy, targetCanScrollUp);
                && consumed[..] == (if a.Some? then old(consumed[..])[1 := a.value.consumed] else old(consumed[..]))
                && top == Nested.TopAfter(old(top), a)
                && state == (if a.Some? then a.value.state else old(state))
                && events == old(events) + Notify(old(state), state) + SlideEvent(top)
                && lastNestedScrollDy == dy && nestedScrolled
    {
      if scrollType == Nested.TYPE_NON_TOUCH {
        return;
      }
      if !targetIsScrollingChild {
        return;
      }
      var expandedTop := Offsets.ExpandedOffset(fitToContents, fitToContentsOffset, expandedOffset);
      var currentTop := top;
      var newTop := currentTop - dy;
      if dy > 0 {
        if newTop < expandedTop {
          consumed[1] := currentTop - expandedTop;
          top := top - consumed[1];
          SetStateInternal(Expanded);
        } else {
          consumed[1] := dy;
          top := top - dy;
          SetStateInternal(Dragging);
        }
      } else if dy < 0 {
        if !targetCanScrollUp {
          if newTop <= collapsedOffset || hideable {
            consumed[1] := dy;
            top := top - dy;
            SetStateInternal(Dragging);
          } else {
            consumed[1] := currentTop - collapsedOffset;
            top := top - consumed[1];
            SetStateInternal(Collapsed);
          }
        }
      }
      DispatchOnSlide(top);
      lastNestedScrollDy := dy;
      nestedScrolled := true;
    }

    /**
     * `onStopNestedScroll`: a sheet resting at its expanded top becomes
     * Expanded; otherwise a nested scroll of the scrolling child that had at
     * least one pre-scroll call (whether or not that call moved the sheet)
     * settles to the stop resolver's target. `yvel` is the fling velocity.
     */
    method OnStopNestedScroll(targetIsScrollingChild: bool, yvel: real, needsAnimation: bool)
      modifies this`state, this`events, this`animations, this`nestedScrolled
      ensures top == Snapshot().ExpandedTop() ==>
                state == Expanded && events == old(events) + Notify(old(state), Expanded)
                && animations == old(animations) && nestedScrolled == old(nestedScrolled)
      ensures top != Snapshot().ExpandedTop() && (!targetIsScrollingChild || !old(nestedScrolled)) ==>
                state == old(state) && events == old(events)
                && animations == old(animations) && nestedScrolled == old(nestedScrolled)
      ensures top != Snapshot().ExpandedTop() && targetIsScrollingChild && old(nestedScrolled) ==>
                !nestedScrolled
                && SettledTo(old(state), old(events), old(animations),
                             StopTarget(Snapshot(), top, lastNestedScrollDy, yvel).state, needsAnimation)
    {
      if top == Offsets.ExpandedOffset(fitToContents, fitToContentsOffset, expandedOffset) {
        SetStateInternal(Expanded);
        return;
      }
      if !targetIsScrollingChild || !nestedScrolled {
        return;
      }
      var t := StopTarget(Snapshot(), top, lastNestedScrollDy, yvel);
      SettleTo(t.state, needsAnimation);
      nestedScrolled := false;
    }

    // -------------------------------------------------------------------
    // Save and restore

    /** `restoreOptionalState`: copy the optional fields the save flags select. */
    method RestoreOptionalState(ss: SavedState)
      modifies this`peekHeight, this`fitToContents, this`hideable, this`skipCollapsed
      ensures SavedFields() == RestoreInto(saveFlags, old(SavedFields()), ss).(state := state)
    {
      if saveFlags == SAVE_NONE {
        return;
      }
      if saveFlags == SAVE_ALL || saveFlags & SAVE_PEEK_HEIGHT == SAVE_PEEK_HEIGHT {
        peekHeight := ss.peekHeight;
      }
      if saveFlags == SAVE_ALL || saveFlags & SAVE_FIT_TO_CONTENTS == SAVE_FIT_TO_CONTENTS {
        fitToContents := ss.fitToContents;
      }
      if saveFlags == SAVE_ALL || saveFlags & SAVE_HIDEABLE == SAVE_HIDEABLE {
        hideable := ss.hideable;
      }
      if saveFlags == SAVE_ALL || saveFlags & SAVE_SKIP_COLLAPSED == SAVE_SKIP_COLLAPSED {
        skipCollapsed := ss.skipCollapsed;
      }
    }

    /** `onRestoreInstanceState`: restore the selected fields and the state, without notifying. */
    method OnRestoreInstanceState(ss: SavedState)
      modifies this`peekHeight, this`fitToContents, this`hideable, this`skipCollapsed, this`state
      ensures SavedFields() == RestoreInto(saveFlags, old(SavedFields()), ss)
      ensures !IsTransient(state)
    {
      RestoreOptionalState(ss);
      if ss.state == Dragging || ss.state == Settling {
        state := Collapsed;
      } else {
        state := ss.state;
      }
    }
  }
  /** A laid-out collapsed sheet with a 400 px peek in a 1920 px parent. */
  method CollapsedSheet() returns (b: BottomSheetBehavior)
    ensures fresh(b)
    ensures b.laidOut && b.state == Collapsed && b.fitToContents && !b.hideable
    ensures b.parentHeight == 1920 && b.fitToContentsOffset == 920 && b.expandedOffset == 0
    ensures b.collapsedOffset == 1520 && b.top == 1520
    ensures b.animations == [] && b.deferred == []
  {
    b := new BottomSheetBehavior();
    b.SetPeekHeight(400, false, false, false);
    assert b.peekHeight == 400 && !b.peekHeightAuto && b.fitToContents;
    b.OnLayoutChild(1080, 1920, 1000, 0, 100);
    assert b.fitToContentsOffset == 920;
  }

  /**
   * Two animated settles with a frame in between: the first request's frame
   * callback is still posted when the sheet, moved towards Expanded, is asked
   * for Collapsed. Both callbacks are then posted; the older one finishes
   * first and sets its own (stale) target, and the newer one finds the sheet
   * no longer Settling and does nothing. With a 400 px peek the sheet ends in
   * state Expanded while it sits, visible, at its collapsed offset.
   */
  method StaleSettleWins() returns (b: BottomSheetBehavior)
    ensures b.state == Expanded && b.animations == []
    ensures b.collapsedOffset == 1520 && b.collapsedOffset < b.parentHeight
    ensures b.top == b.collapsedOffset
  {
    b := CollapsedSheet();
    var o1 := b.SetState(Expanded, false, true);
    assert b.state == Settling && b.animations == [Expanded];
    b.RunSettleFrame(true);
    b.OnViewPositionChanged(1200);
    var o2 := b.SetState(Collapsed, false, true);
    assert b.state == Settling && b.animations == [Expanded, Collapsed];
    b.OnViewPositionChanged(1520);
    b.RunSettleFrame(false);
    assert b.state == Expanded && b.animations == [Collapsed];
    b.RunSettleFrame(false);
  }
}

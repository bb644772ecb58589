# Bottom-sheet position and state engine

A Dafny model of the position/state engine of `BottomSheetBehavior`, the
behaviour that turns a child of a coordinator layout into a bottom sheet.
The sheet rests at one of four offsets (expanded, half-expanded, collapsed,
hidden) and passes through two transient states (dragging, settling). The
model covers:

- the **rest-offset calculator** (`Offsets`): collapsed offset from the peek
  height or the automatic 16:9 peek, half-expanded offset from the ratio,
  expanded offset from the expansion model, and where the layout pass puts
  the sheet for each state (`Behavior.PlacedTop`);
- the **target resolver** (`Resolver`): `shouldHide`, the release branch tree
  of `onViewReleased`, the stop branch tree of `onStopNestedScroll` (sharing
  one nearest-height tree, exactly as both handlers write it, strict `<`
  included), and the target of a programmatic `startSettlingAnimation`;
- **nested pre-scroll consumption** (`Nested`), including how a run of
  pre-scroll calls keeps a non-hideable sheet between its expanded and
  collapsed tops;
- the **drag callbacks** (`Drag`): capture, vertical/horizontal clamping and
  drag range;
- the **slide offset** reported to the callback (`Slide`);
- **persistence** (`Saved`): the saved fields, their write/read order, the
  save flags and the restore rules;
- the **state controller** (`Behavior.BottomSheetBehavior`): a class holding
  the behaviour's fields, whose methods (`SetState`, `SetStateInternal`,
  `StartSettlingAnimation`, the settle frame callback, the setters, the layout
  pass, the drag and nested-scroll callbacks, restore) update them in place.

The drag helper is an oracle: `needsAnimation` is its answer to "slide the
sheet to this top" (true when it started an animation), `stillMoving` its
per-frame "still settling" answer. Velocities are inputs. Posted frame
callbacks are the queue `animations` (one target state per posted settle
callback, run oldest first, re-posted to the back while still moving); the
settles posted until a pending layout pass completes are the queue
`deferred`. The notifications a registered callback receives are logged in
one log, `events`, in the order they are made (so `onStateChanged` before
`onSlide` in a pre-scroll); as in the source, no state change is reported
before the sheet has been laid out (for slides see `DispatchOnSlide` under
"## Left out").

Numbers: pixel offsets are unbounded integers; Java's truncating division and
`(int)` cast are written out (`Common.JavaDiv`, `Common.TruncToInt`).
Velocities, the half-expanded ratio and the slide offset are exact reals. The
hide test `|d| / peekHeight > 0.5` is modelled as `peekHeight >= 0 && 2|d| >
peekHeight`, which is what the float quotient gives for every peek height
(a zero peek gives an infinite quotient, or NaN for a zero distance; a negative
one a non-positive quotient); `Resolver.HideRatioIsQuotientTest` proves it is
the quotient test for a positive peek.

Where descriptions of this behaviour differ from the code, the model follows
the code:

- On equal distances the nearest-height tree picks the *later* candidate,
  because every comparison is a strict `<`: fit-to-contents at top 500 between
  0 and 1000 collapses (`Resolver.NearestTieCollapses`), rather than expanding.
- In two-stage mode above the half-expanded offset the tree compares `top`
  itself with the distance to the collapsed offset, so it can pick Expanded
  when half-expanded is nearer (`Resolver.NearestNotGlobalMinimum`). This is
  kept as written.
- The rest offsets are not clamped into the order expanded ≤ half-expanded ≤
  collapsed: a tall peek puts the collapsed offset above the half-expanded one
  (`Offsets.CollapsedAboveHalfExpandedPossible`).
- The half-expanded offset truncates `parentHeight * (1 - ratio)`; it does not
  round.
- On a downward pre-scroll a *hideable* sheet takes the whole delta while
  dragging, without any bound (`Nested.HideableDownwardUnbounded`); only a
  non-hideable sheet is stopped at the collapsed offset.
- A settle that replaces an animated settle does not cancel it: each
  `startSettlingAnimation` posts its own frame callback, the older one finishes
  first with its own target, and the newer one then finds the sheet no longer
  Settling and does nothing. Once the sheet has moved away from its rest
  offset, requesting Expanded and then Collapsed can leave it in state
  Expanded while it sits, visible, at the collapsed offset (`Behavior.StaleSettleWins`).
  With no movement in between, the second slide has no distance to cover, the
  helper starts no animation, and the sheet ends Collapsed.
- `shouldHide` divides by the `peekHeight` field, which keeps the last explicit
  peek height while the automatic peek is on.

## Model

| member | source | states |
|---|---|---|
| `Common.JavaDiv` | lib/java/com/google/android/material/bottomsheet/BottomSheetBehavior.java:973 | for the non-negative width and positive divisor of the keyline, Java's truncating division is the quotient of exact division |
| `Common.TruncToInt` | lib/java/com/google/android/material/bottomsheet/BottomSheetBehavior.java:986 | the `(int)` cast: the result is within one of the value, below it for non-negative values and above it for negative ones |
| `States.StateOfCode` | lib/java/com/google/android/material/bottomsheet/BottomSheetBehavior.java:94-109 | an int is a state code exactly when it is one of the six `STATE_*` constants 1..6, and decodes to the state with that code |
| `States.CodeRoundTrip` | lib/java/com/google/android/material/bottomsheet/BottomSheetBehavior.java:94-109 | every state's code lies in 1..6 and decodes back to the same state |
| `States.Code` | lib/java/com/google/android/material/bottomsheet/BottomSheetBehavior.java:94-109 | the `STATE_*` constant of a state; its contract is `States.CodeRoundTrip` (codes 1..6, decoded back by `StateOfCode`) |
| `Offsets.AutoPeek` | lib/java/com/google/android/material/bottomsheet/BottomSheetBehavior.java:972-973 | the automatic peek is at least the minimum peek and at least the 16:9 keyline `height - width*9/16`, and equals one of them |
| `Offsets.EffectivePeek` | lib/java/com/google/android/material/bottomsheet/BottomSheetBehavior.java:971-976 | the peek `calculateCollapsedOffset` uses: `AutoPeek` when the automatic peek is on, else the stored peek height; its results are stated through `CalculateCollapsedOffset` and `Offsets.CollapsedOffset` |
| `Offsets.CollapsedOffset` | lib/java/com/google/android/material/bottomsheet/BottomSheetBehavior.java:978-982 | two-stage: `parentHeight - peek`; fit-to-contents: never above the fit-to-contents offset nor above `parentHeight - peek`, and equal to one of them |
| `Offsets.FitToContentsOffset` | lib/java/com/google/android/material/bottomsheet/BottomSheetBehavior.java:368 | the fit-to-contents offset is non-negative, at least `parentHeight - childHeight`, and equal to one of them |
| `Offsets.HalfExpandedOffset` | lib/java/com/google/android/material/bottomsheet/BottomSheetBehavior.java:986 | `(int) (parentHeight * (1 - ratio))`; its contract is `Offsets.HalfExpandedWithinParent` and `Offsets.HalfExpandedMonotone`, with the cast's bounds from `Common.TruncToInt` |
| `Offsets.ExpandedOffset` | lib/java/com/google/android/material/bottomsheet/BottomSheetBehavior.java:1097-1099 | `getExpandedOffset` (also `Resolver.Config.ExpandedTop`); its contract is `Offsets.ExpandedNotBelowCollapsed` |
| `Offsets.ExpandedNotBelowCollapsed` | lib/java/com/google/android/material/bottomsheet/BottomSheetBehavior.java:1097-1099 | the expanded offset is never above the parent's top; with fit-to-contents it is the fit offset and never below the collapsed offset, in two stages the configured expanded offset |
| `Offsets.HalfExpandedWithinParent` | lib/java/com/google/android/material/bottomsheet/BottomSheetBehavior.java:985-987 | for a ratio strictly in (0, 1) the half-expanded offset lies in [0, parentHeight] |
| `Offsets.HalfExpandedMonotone` | lib/java/com/google/android/material/bottomsheet/BottomSheetBehavior.java:985-987 | for any ratios, a larger half-expanded ratio never gives a lower (numerically larger) half-expanded offset |
| `Offsets.CollapsedWithinParent` | lib/java/com/google/android/material/bottomsheet/BottomSheetBehavior.java:970-983 | with non-negative peek and sizes the collapsed offset is not below the parent's bottom, and with fit-to-contents not above the fit-to-contents offset |
| `Offsets.CollapsedAboveHalfExpandedPossible` | lib/java/com/google/android/material/bottomsheet/BottomSheetBehavior.java:978-987 | the offsets are not forced into order: a 600 px peek in a 1000 px parent collapses above the half-expanded offset 500 |
| `Resolver.RestTop` | lib/java/com/google/android/material/bottomsheet/BottomSheetBehavior.java:372-379 | the layout pass moves the sheet to a rest offset exactly for Expanded, HalfExpanded, Collapsed, and Hidden when hideable |
| `Resolver.HideRatioExceeds` | lib/java/com/google/android/material/bottomsheet/BottomSheetBehavior.java:1026 | the hide comparison `|d| / peekHeight > 0.5` with the float quotient's outcome for zero and negative peeks; its contract is `Resolver.HideRatioIsQuotientTest` |
| `Resolver.HideRatioIsQuotientTest` | lib/java/com/google/android/material/bottomsheet/BottomSheetBehavior.java:1026 | for a positive peek height, the integer form of the hide test equals `|distance| / peekHeight > 0.5` |
| `Resolver.ShouldHide` | lib/java/com/google/android/material/bottomsheet/BottomSheetBehavior.java:1017-1027 | skip-collapsed always hides; otherwise a sheet above its collapsed offset never hides |
| `Resolver.ShouldHideIsThreshold` | lib/java/com/google/android/material/bottomsheet/BottomSheetBehavior.java:1017-1027 | otherwise it hides iff `|top + 0.1*yvel - collapsedOffset| / peekHeight > 0.5` |
| `Resolver.ShouldHideExample` | lib/java/com/google/android/material/bottomsheet/BottomSheetBehavior.java:1025-1026 | collapsed 800, peek 100, top 850, velocity 600: predicted top 910, ratio 1.1, hides |
| `Resolver.ReleaseTarget` | lib/java/com/google/android/material/bottomsheet/BottomSheetBehavior.java:1162-1235 | the target of a release; its contract is `Resolver.ReleaseUpward`, `Resolver.ReleaseHidesIff`, `Resolver.ReleaseDispatch`, `Resolver.ReleaseOnDetent` and `Behavior.LayoutKeepsReleasedSheet` |
| `Resolver.NearestTarget` | lib/java/com/google/android/material/bottomsheet/BottomSheetBehavior.java:1186-1218 | the nearest-height tree shared by release and stop; its contract is `Resolver.NearestFitToContents`, `Resolver.NearestTwoStageAboveHalf`, `Resolver.NearestTwoStageBelowHalf` and `Resolver.NearestOnDetent` |
| `Resolver.DownwardTarget` | lib/java/com/google/android/material/bottomsheet/BottomSheetBehavior.java:1219-1235 | the downward-gesture target; its contract is `Resolver.DownwardTwoStage`, `Resolver.NearestOnDetent` (a rest position, Collapsed with fit-to-contents), `Resolver.StopDownwardAnyVelocity` and `Resolver.StopDownwardMatchesRelease` |
| `Resolver.StopTarget` | lib/java/com/google/android/material/bottomsheet/BottomSheetBehavior.java:555-607 | the target of a nested-scroll stop; its contract is `Resolver.StopOnDetent`, `Resolver.StopHidesIff`, `Resolver.StopDownwardAnyVelocity`, `Resolver.StopWithoutDeltaMatchesRelease`, `Resolver.StopDownwardMatchesRelease` and `Behavior.LayoutKeepsStoppedSheet` |
| `Resolver.SettleTarget` | lib/java/com/google/android/material/bottomsheet/BottomSheetBehavior.java:1101-1118 | the target of a programmatic settle, None where the source throws; its contract is `Resolver.SettleTargetSpec` |
| `Resolver.ReleaseUpward` | lib/java/com/google/android/material/bottomsheet/BottomSheetBehavior.java:1165-1178 | an upward release goes to (fitToContentsOffset, Expanded) with fit-to-contents; in two stages to (half, HalfExpanded) when top is below half, else (expandedOffset, Expanded) |
| `Resolver.ReleaseHidesIff` | lib/java/com/google/android/material/bottomsheet/BottomSheetBehavior.java:1179-1185 | a release hides iff it is not upward, the sheet is hideable, shouldHide holds and it was released below collapsed or mostly vertically; a hide goes to the parent height |
| `Resolver.NearestFitToContents` | lib/java/com/google/android/material/bottomsheet/BottomSheetBehavior.java:1190-1198 | fit-to-contents nearest height: Expanded iff strictly closer to the fit-to-contents offset, else Collapsed; the choice is never farther than either candidate |
| `Resolver.NearestTwoStageAboveHalf` | lib/java/com/google/android/material/bottomsheet/BottomSheetBehavior.java:1200-1207 | two stages above the half-expanded offset: Expanded iff `top < |top - collapsedOffset|`, else HalfExpanded |
| `Resolver.NearestTwoStageBelowHalf` | lib/java/com/google/android/material/bottomsheet/BottomSheetBehavior.java:1208-1217 | two stages at or below half-expanded: HalfExpanded iff strictly closer than collapsed, else Collapsed; never farther than either |
| `Resolver.NearestTieCollapses` | lib/java/com/google/android/material/bottomsheet/BottomSheetBehavior.java:1191-1197 | equal distances (500 from 0 and from 1000) resolve to Collapsed |
| `Resolver.NearestNotGlobalMinimum` | lib/java/com/google/android/material/bottomsheet/BottomSheetBehavior.java:1200-1203 | the tree picks Expanded at top 400 though half-expanded (500) is nearer |
| `Resolver.NearestOnDetent` | lib/java/com/google/android/material/bottomsheet/BottomSheetBehavior.java:1189-1234 | nearest-height and downward targets are rest positions, never Hidden; with fit-to-contents never HalfExpanded and a downward settle collapses |
| `Resolver.ReleaseOnDetent` | lib/java/com/google/android/material/bottomsheet/BottomSheetBehavior.java:1162-1235 | every release target is the rest offset of a rest state; never HalfExpanded with fit-to-contents; Hidden only when hideable |
| `Resolver.StopOnDetent` | lib/java/com/google/android/material/bottomsheet/BottomSheetBehavior.java:555-607 | every nested-scroll stop target is the rest offset of a rest state, with the same exclusions; an upward last delta goes to (getExpandedOffset, Expanded) |
| `Resolver.StopWithoutDeltaMatchesRelease` | lib/java/com/google/android/material/bottomsheet/BottomSheetBehavior.java:563-591 | a stop with no last delta that does not hide settles where a release without velocity does |
| `Resolver.StopDownwardMatchesRelease` | lib/java/com/google/android/material/bottomsheet/BottomSheetBehavior.java:592-606 | a downward stop that does not hide settles where a vertical downward release does |
| `Resolver.SettleTargetSpec` | lib/java/com/google/android/material/bottomsheet/BottomSheetBehavior.java:1101-1118 | a settle request succeeds exactly for Collapsed, Expanded, HalfExpanded and hideable Hidden, each to its rest offset; with fit-to-contents, HalfExpanded at or above the fit-to-contents offset becomes (fitToContentsOffset, Expanded); in two stages it stays HalfExpanded |
| `Resolver.DownwardTwoStage` | lib/java/com/google/android/material/bottomsheet/BottomSheetBehavior.java:1224-1233 | in two stages a downward settle goes to half-expanded iff strictly nearer than collapsed, else to (collapsedOffset, Collapsed), and is never the farther of the two |
| `Resolver.ReleaseDispatch` | lib/java/com/google/android/material/bottomsheet/BottomSheetBehavior.java:1186-1235 | a release that is not upward and does not hide settles to the nearest height on zero or mostly horizontal velocity and to the downward target otherwise |
| `Resolver.StopHidesIff` | lib/java/com/google/android/material/bottomsheet/BottomSheetBehavior.java:557-563 | a stop hides iff the last delta was not upward, the sheet is hideable and shouldHide holds; a hide goes to the parent height |
| `Resolver.StopDownwardAnyVelocity` | lib/java/com/google/android/material/bottomsheet/BottomSheetBehavior.java:592-606 | a downward stop that does not hide settles to the downward target, whatever the fling velocity |
| `Drag.Clamp` | lib/java/com/google/android/material/bottomsheet/BottomSheetBehavior.java:1253-1254 | the clamp returns min below the range, max above it and the value inside it; it lies in [min, max] when min ≤ max |
| `Drag.ClampVertical` | lib/java/com/google/android/material/bottomsheet/BottomSheetBehavior.java:1252-1255 | `clampViewPositionVertical`; its contract is `Drag.ClampVerticalRange` and `Drag.DragRangeIsClampLimit` |
| `Drag.ClampVerticalRange` | lib/java/com/google/android/material/bottomsheet/BottomSheetBehavior.java:1252-1255 | a dragged top is kept between the expanded top and hidden (hideable) or collapsed offset, unchanged inside, and clamping twice is clamping once |
| `Drag.ClampHorizontal` | lib/java/com/google/android/material/bottomsheet/BottomSheetBehavior.java:1258-1260 | the horizontal position stays the child's left whatever is proposed |
| `Drag.VerticalDragRange` | lib/java/com/google/android/material/bottomsheet/BottomSheetBehavior.java:1263-1269 | `getViewVerticalDragRange`, the clamp's lower limit; its contract is `Drag.DragRangeIsClampLimit` |
| `Drag.DragRangeIsClampLimit` | lib/java/com/google/android/material/bottomsheet/BottomSheetBehavior.java:1263-1269 | the drag range given to the helper is the lowest top the vertical clamp allows: every top at or beyond it clamps to it |
| `Drag.TryCapture` | lib/java/com/google/android/material/bottomsheet/BottomSheetBehavior.java:1131-1146 | a capture is only of the sheet, never while dragging or touching the scrolling child, and never while expanded with the active pointer on a child that can scroll up |
| `Drag.TryCaptureIff` | lib/java/com/google/android/material/bottomsheet/BottomSheetBehavior.java:1131-1146 | those refusals are the only ones: otherwise the sheet is captured |
| `Nested.AcceptsAxes` | lib/java/com/google/android/material/bottomsheet/BottomSheetBehavior.java:490 | a nested scroll is accepted iff its axes include the vertical axis bit |
| `Nested.PreScroll` | lib/java/com/google/android/material/bottomsheet/BottomSheetBehavior.java:510-534 | what a touch pre-scroll of the scrolling child absorbs and the state it sets; its contract is the eight `Nested` lemmas below (every branch, including the in-range downward delta and the zero delta) and `Nested.RunStaysInRange` |
| `Nested.UpwardLandsOnExpanded` | lib/java/com/google/android/material/bottomsheet/BottomSheetBehavior.java:512-516 | an upward delta that would pass the expanded top consumes exactly `top - expandedTop` (less than the delta), lands on the expanded top and sets Expanded |
| `Nested.UpwardConsumesAll` | lib/java/com/google/android/material/bottomsheet/BottomSheetBehavior.java:517-520 | any other upward delta is consumed whole while Dragging |
| `Nested.DownwardLandsOnCollapsed` | lib/java/com/google/android/material/bottomsheet/BottomSheetBehavior.java:522-531 | a downward delta on a non-hideable sheet that would pass the collapsed offset lands exactly on it and sets Collapsed |
| `Nested.DownwardConsumesAll` | lib/java/com/google/android/material/bottomsheet/BottomSheetBehavior.java:524-527 | a downward delta that leaves a non-hideable sheet at or above its collapsed offset is consumed whole while Dragging |
| `Nested.ZeroDeltaAbsorbsNothing` | lib/java/com/google/android/material/bottomsheet/BottomSheetBehavior.java:510-534 | a zero delta absorbs nothing and leaves the top unchanged |
| `Nested.DownwardLeftToScrollingChild` | lib/java/com/google/android/material/bottomsheet/BottomSheetBehavior.java:522-523 | while the target can still scroll up, a downward delta is not absorbed |
| `Nested.PreScrollNeverOvershoots` | lib/java/com/google/android/material/bottomsheet/BottomSheetBehavior.java:510-534 | upward steps never leave the sheet above the expanded top; downward steps of a non-hideable sheet never take it below the collapsed offset; the state set is Expanded, Dragging or Collapsed |
| `Nested.HideableDownwardUnbounded` | lib/java/com/google/android/material/bottomsheet/BottomSheetBehavior.java:524-527 | a hideable sheet takes every downward delta whole, with no lower bound |
| `Nested.RunStaysInRange` | lib/java/com/google/android/material/bottomsheet/BottomSheetBehavior.java:502-537 | through any run of pre-scroll calls (flings ignored) a non-hideable sheet that starts between its expanded and collapsed tops stays there |
| `Slide.SlideAtRestPositions` | lib/java/com/google/android/material/bottomsheet/BottomSheetBehavior.java:1272-1283 | the slide offset is 1 at the expanded top, 0 at the collapsed offset and -1 at the parent's bottom |
| `Slide.SlideInRange` | lib/java/com/google/android/material/bottomsheet/BottomSheetBehavior.java:1272-1283 | between the expanded top and the parent's bottom the slide offset lies in [-1, 1] and is non-negative iff the sheet is at or above collapsed |
| `Slide.SlideOffset` | lib/java/com/google/android/material/bottomsheet/BottomSheetBehavior.java:1272-1283 | the slide offset, None where the divisor is zero; its contract is `Slide.SlideAtRestPositions`, `Slide.SlideInRange` and `Slide.SlideMonotone` |
| `Slide.SlideMonotone` | lib/java/com/google/android/material/bottomsheet/BottomSheetBehavior.java:86-88 | between the expanded top and the parent's bottom, the offset grows as the sheet moves up: a higher top never gives a smaller offset |
| `Saved.ParcelRoundTrip` | lib/java/com/google/android/material/bottomsheet/BottomSheetBehavior.java:1339-1366 | writing five ints (state, peek, fit, hideable, skip) and reading them back gives the saved fields |
| `Saved.ParcelReadThenWrite` | lib/java/com/google/android/material/bottomsheet/BottomSheetBehavior.java:1339-1366 | a readable parcel with 0/1 flags is exactly what writing its reading produces |
| `Saved.RestoredState` | lib/java/com/google/android/material/bottomsheet/BottomSheetBehavior.java:310-315 | a restored state is never transient: Dragging and Settling become Collapsed, every other state is kept |
| `Saved.RestoresIsBitTest` | lib/java/com/google/android/material/bottomsheet/BottomSheetBehavior.java:1001-1013 | for each single save flag the restore test is the test of its bit; SAVE_NONE selects none and SAVE_ALL every one |
| `Saved.RestoreNoneKeepsConfig` | lib/java/com/google/android/material/bottomsheet/BottomSheetBehavior.java:997-1000 | with SAVE_NONE no optional field changes; only the state is restored |
| `Saved.RestoreAllTakesSaved` | lib/java/com/google/android/material/bottomsheet/BottomSheetBehavior.java:997-1015 | with SAVE_ALL every optional field is taken from the saved state |
| `Saved.RestoreFieldByBit` | lib/java/com/google/android/material/bottomsheet/BottomSheetBehavior.java:997-1015 | each of peek height, fit-to-contents, hideable and skip-collapsed is taken from the saved state iff its flag bit is set |
| `Saved.SaveAllRoundTrip` | lib/java/com/google/android/material/bottomsheet/BottomSheetBehavior.java:304-316 | save, write, read and restore with SAVE_ALL reproduce the four fields, with a transient state coming back Collapsed |
| `Saved.WriteToParcel` | lib/java/com/google/android/material/bottomsheet/BottomSheetBehavior.java:1359-1366 | the five ints in write order; its contract is `Saved.ParcelRoundTrip` and `Saved.ParcelReadThenWrite` |
| `Saved.ReadFromParcel` | lib/java/com/google/android/material/bottomsheet/BottomSheetBehavior.java:1339-1347 | the reading constructor, None for a short parcel or an unknown state code; its contract is `Saved.ParcelRoundTrip` and `Saved.ParcelReadThenWrite` |
| `Saved.Restores` | lib/java/com/google/android/material/bottomsheet/BottomSheetBehavior.java:1001-1013 | whether the flags select a field; its contract is `Saved.RestoresIsBitTest` |
| `Saved.RestoreInto` | lib/java/com/google/android/material/bottomsheet/BottomSheetBehavior.java:304-316 | the persisted fields after a restore; its contract is `Saved.RestoreNoneKeepsConfig`, `Saved.RestoreAllTakesSaved`, `Saved.RestoreFieldByBit`, `Saved.SaveAllRoundTrip` and `Saved.RestoredState` |
| `Behavior.PlacedTop` | lib/java/com/google/android/material/bottomsheet/BottomSheetBehavior.java:362-382 | layout puts a rest state at its rest offset from the parent's placement, keeps a dragging or settling sheet where it was, and leaves a non-hideable hidden sheet at the parent's placement |
| `Behavior.LayoutKeepsReleasedSheet` | lib/java/com/google/android/material/bottomsheet/BottomSheetBehavior.java:1162-1235 | a sheet settled after a release is put at that same top by the next layout pass |
| `Behavior.LayoutKeepsStoppedSheet` | lib/java/com/google/android/material/bottomsheet/BottomSheetBehavior.java:555-607 | a sheet settled after a nested-scroll stop is put at that same top by the next layout pass |
| `Behavior.StaleSettleWins` | lib/java/com/google/android/material/bottomsheet/BottomSheetBehavior.java:1101-1125 | a laid-out Collapsed sheet with a 400 px peek (collapsed offset 1520 in a 1920 px parent) goes through an animated request for Expanded, a frame that moves it to 1200, an animated request for Collapsed, a move back to 1520 and two finished frames; it ends in state Expanded at its visible collapsed offset, with no callback posted |
| `Behavior.BottomSheetBehavior.GetPeekHeight` | lib/java/com/google/android/material/bottomsheet/BottomSheetBehavior.java:734-736 | `getPeekHeight`; its contract is the last `ensures` of `Behavior.BottomSheetBehavior.SetPeekHeight` |
| `Behavior.BottomSheetBehavior.SavedFields` | lib/java/com/google/android/material/bottomsheet/BottomSheetBehavior.java:1349-1356 | the fields a `SavedState` copies from the behaviour; its contract is `Behavior.BottomSheetBehavior.OnRestoreInstanceState` and the `Saved` round-trip lemmas |
| `Behavior.BottomSheetBehavior.constructor` | lib/java/com/google/android/material/bottomsheet/BottomSheetBehavior.java:179-257 | the defaults: Collapsed, fit-to-contents, not hideable, SAVE_NONE, ratio 0.5, expanded offset 0, not laid out |
| `Behavior.BottomSheetBehavior.CalculateCollapsedOffset` | lib/java/com/google/android/material/bottomsheet/BottomSheetBehavior.java:970-983 | stores the collapsed offset of the current configuration, never above the fit-to-contents offset when fitting to contents |
| `Behavior.BottomSheetBehavior.CalculateHalfExpandedOffset` | lib/java/com/google/android/material/bottomsheet/BottomSheetBehavior.java:985-987 | stores the truncated half-expanded offset, inside the parent for a valid ratio |
| `Behavior.BottomSheetBehavior.OnLayoutChild` | lib/java/com/google/android/material/bottomsheet/BottomSheetBehavior.java:352-382 | records the parent size, recomputes the fit-to-contents, half-expanded and collapsed offsets from the measured sizes and the configuration, reads the minimum peek only on the first layout, and places the sheet per its state |
| `Behavior.BottomSheetBehavior.SetStateInternal` | lib/java/com/google/android/material/bottomsheet/BottomSheetBehavior.java:919-950 | sets the state; notifies the callback only on a change of a laid-out sheet; a same-state call changes and reports nothing |
| `Behavior.BottomSheetBehavior.SettleTo` | lib/java/com/google/android/material/bottomsheet/BottomSheetBehavior.java:1119-1124 | when the helper animates: Settling with one settle callback posted for the target; otherwise the target state at once |
| `Behavior.BottomSheetBehavior.StartSettlingAnimation` | lib/java/com/google/android/material/bottomsheet/BottomSheetBehavior.java:1101-1125 | settles to the resolved target of the requested state, or fails with an illegal-argument error changing nothing |
| `Behavior.BottomSheetBehavior.StartSettlingAnimationPendingLayout` | lib/java/com/google/android/material/bottomsheet/BottomSheetBehavior.java:887-906 | with a layout pending, posts the request and changes nothing else; otherwise settles at once |
| `Behavior.BottomSheetBehavior.RunDeferred` | lib/java/com/google/android/material/bottomsheet/BottomSheetBehavior.java:896-902 | runs the oldest posted request as a settle |
| `Behavior.BottomSheetBehavior.RunSettleFrame` | lib/java/com/google/android/material/bottomsheet/BottomSheetBehavior.java:1316-1324 | re-posts while the helper is still moving; finishes only from Settling, setting its own target, so a settle replaced by a non-settling state change does nothing (one replaced by another animated settle still finishes, with the older callback running first) |
| `Behavior.BottomSheetBehavior.SetState` | lib/java/com/google/android/material/bottomsheet/BottomSheetBehavior.java:868-885 | same state: no-op; before layout: stores only a rest state (Hidden only if hideable) without notifying, else keeps the state; after layout: settles or fails as startSettlingAnimation |
| `Behavior.BottomSheetBehavior.SetFitToContents` | lib/java/com/google/android/material/bottomsheet/BottomSheetBehavior.java:663-676 | a change recomputes the collapsed offset once laid out and turns HalfExpanded into Expanded when fitting to contents |
| `Behavior.BottomSheetBehavior.SetPeekHeight` | lib/java/com/google/android/material/bottomsheet/BottomSheetBehavior.java:698-736 | afterwards getPeekHeight is AUTO for AUTO and the value clamped at 0 on a change; a change on a laid-out collapsed sheet recomputes the offset and re-settles (animated) or requests a layout |
| `Behavior.BottomSheetBehavior.SetHalfExpandedRatio` | lib/java/com/google/android/material/bottomsheet/BottomSheetBehavior.java:747-753 | fails iff the ratio is not strictly in (0, 1), without changing it; otherwise stores it |
| `Behavior.BottomSheetBehavior.SetExpandedOffset` | lib/java/com/google/android/material/bottomsheet/BottomSheetBehavior.java:764-769 | fails iff the offset is negative, without changing it; otherwise stores it |
| `Behavior.BottomSheetBehavior.SetHideable` | lib/java/com/google/android/material/bottomsheet/BottomSheetBehavior.java:787-795 | turning hiding off on a hidden sheet requests Collapsed through setState; nothing else changes the state |
| `Behavior.BottomSheetBehavior.SetSkipCollapsed` | lib/java/com/google/android/material/bottomsheet/BottomSheetBehavior.java:814-816 | stores the flag |
| `Behavior.BottomSheetBehavior.SetSaveFlags` | lib/java/com/google/android/material/bottomsheet/BottomSheetBehavior.java:838-840 | stores the flags |
| `Behavior.BottomSheetBehavior.DispatchOnSlide` | lib/java/com/google/android/material/bottomsheet/BottomSheetBehavior.java:1272-1283 | reports the slide offset of the given top, once laid out |
| `Behavior.BottomSheetBehavior.OnViewDragStateChanged` | lib/java/com/google/android/material/bottomsheet/BottomSheetBehavior.java:1155-1159 | the helper entering its dragging state sets Dragging |
| `Behavior.BottomSheetBehavior.OnViewPositionChanged` | lib/java/com/google/android/material/bottomsheet/BottomSheetBehavior.java:1149-1152 | a move by the helper is reported as a slide of the new top |
| `Behavior.BottomSheetBehavior.OnViewReleased` | lib/java/com/google/android/material/bottomsheet/BottomSheetBehavior.java:1162-1249 | settles to the release resolver's target from the current top and the velocities |
| `Behavior.BottomSheetBehavior.OnStartNestedScroll` | lib/java/com/google/android/material/bottomsheet/BottomSheetBehavior.java:481-491 | resets the last delta and the scrolled flag; accepts iff the vertical axis is included |
| `Behavior.BottomSheetBehavior.OnNestedPreScroll` | lib/java/com/google/android/material/bottomsheet/BottomSheetBehavior.java:494-538 | flings and other targets change nothing; otherwise writes only `consumed[1]` with the absorbed amount, moves the sheet by it, sets the resolved state, reports the state change and then the slide, and records the delta |
| `Behavior.BottomSheetBehavior.OnStopNestedScroll` | lib/java/com/google/android/material/bottomsheet/BottomSheetBehavior.java:541-615 | at the expanded top forces Expanded; ignores other targets and nested scrolls that had no pre-scroll call; otherwise settles to the stop resolver's target and clears the scrolled flag |
| `Behavior.BottomSheetBehavior.RestoreOptionalState` | lib/java/com/google/android/material/bottomsheet/BottomSheetBehavior.java:997-1015 | copies exactly the optional fields the save flags select |
| `Behavior.BottomSheetBehavior.OnRestoreInstanceState` | lib/java/com/google/android/material/bottomsheet/BottomSheetBehavior.java:304-316 | the saved fields become the restore of the saved state under the save flags; the state is never transient and no callback is notified |

## Left out

- The drag helper's internals (`smoothSlideViewTo`, `settleCapturedViewAt`, `continueSettling`, `shouldInterceptTouchEvent`, touch slop) are a foreign library: its answers are the oracles `needsAnimation` and `stillMoving`; callers must pass `needsAnimation` false when the sheet's top already equals the target top, since `smoothSlideViewTo` and `settleCapturedViewAt` then start no animation, and the model does not enforce this; and the frames it moves the sheet through are not modelled beyond `OnViewPositionChanged`.
- `getYVelocity` and the velocity tracker are platform sampling code; velocities are parameters.
- Touch routing (`onInterceptTouchEvent`, `onTouchEvent`, `reset`, hit-testing) is view plumbing and is not modelled; its flags enter `Drag.TryCapture` as inputs.
- Shape theming and the corner animator (`createMaterialShapeDrawable`, `createShapeValueAnimator`, `updateDrawableOnStateChange`, the animator reversal in `onViewReleased`) are rendering code.
- Accessibility (`updateImportantForAccessibility` and the accessibility calls in `setStateInternal`) walks the view tree; not modelled.
- `findScrollingChild`, the weak references, `post`/`postOnAnimation` scheduling, the styled-attribute constructor and `from()` are platform plumbing: the scrolling child's identity and scroll ability are inputs, `viewRef != null` and a live view are one flag `laidOut`, and posted work is the two queues.
- `onAttachedToLayoutParams` and `onDetachedFromLayoutParams` (which clear the view reference) are not modelled: `laidOut` is never cleared.
- `onNestedScroll` (an empty override) and `onNestedPreFling` (fling routing to the drag helper) are not modelled.
- The trivial getters other than `getPeekHeight`, and `setBottomSheetCallback`: a callback is taken to be registered, and what it receives is logged.
- Parcel I/O: the parcel is a sequence of ints without the super state; a parcel that is too short or holds an unknown state code reads as nothing.
- State codes other than the six `STATE_*` constants are not representable.
- IEEE float rounding, NaN ratios or velocities, and `0.1f` not being exactly 0.1 are not modelled; all such arithmetic is exact.
- 32-bit integer overflow (`parentWidth * 9`, `Math.abs` of the minimum int) is not modelled; pixel sizes stay far below it.
- Behavior.BottomSheetBehavior.SetPeekHeight: the sheet's own `requestLayout` is recorded in `layoutRequested` (cleared by the next layout pass), but its propagation to the parent is not modelled; whether the parent has a layout pending when a settle is requested is the parameter `parentLayoutPending`.
- Behavior.BottomSheetBehavior.OnLayoutChild: does not model `setFitsSystemWindows`, the background and elevation calls, or the parent's own layout, whose placement of the sheet is the parameter `layoutTop`.
- Behavior.BottomSheetBehavior.DispatchOnSlide: a sheet that was never laid out reports nothing, where the source would dereference a missing view reference.

/** Persisted state: the saved fields, their write/read order and the restore rules. */
module Saved {
  import opened Common
  import opened States

  /** Save flags selecting which optional fields are restored. */
  const SAVE_NONE: bv32 := 0
  const SAVE_PEEK_HEIGHT: bv32 := 1
  const SAVE_FIT_TO_CONTENTS: bv32 := 2
  const SAVE_HIDEABLE: bv32 := 4
  const SAVE_SKIP_COLLAPSED: bv32 := 8
  /** `SAVE_ALL` is the int -1: every bit set. */
  const SAVE_ALL: bv32 := 0xFFFF_FFFF

  /** The fields a sheet saves, in the order it writes them. */
  datatype SavedState = SavedState(
    state: State,
    peekHeight: int,
    fitToContents: bool,
    hideable: bool,
    skipCollapsed: bool)

  function BoolToInt(b: bool): int { if b then 1 else 0 }

  /** `writeToParcel`: state, peek height, then the three flags as 1 or 0. */
  function WriteToParcel(ss: SavedState): seq<int>
  {
    [Code(ss.state), ss.peekHeight, BoolToInt(ss.fitToContents), BoolToInt(ss.hideable),
     BoolToInt(ss.skipCollapsed)]
  }

  /**
   * The reading constructor: the fields in the same order, a flag being true
   * iff its int is 1. None for a parcel shorter than five ints or a state code
   * that is none of the six states.
   */
  function ReadFromParcel(p: seq<int>): Option<SavedState>
  {
    if |p| < 5 then None
    else match StateOfCode(p[0])
      case None => None
      case Some(s) => Some(SavedState(s, p[1], p[2] == 1, p[3] == 1, p[4] == 1))
  }

  /** Reading back what was written gives the saved fields. */
  lemma ParcelRoundTrip(ss: SavedState)
    ensures |WriteToParcel(ss)| == 5
    ensures ReadFromParcel(WriteToParcel(ss)) == Some(ss)
  {
    CodeRoundTrip(ss.state);
  }

  /** A parcel whose flags are written as 0 or 1 is exactly what writing its reading gives. */
  lemma ParcelReadThenWrite(p: seq<int>)
    requires ReadFromParcel(p).Some?
    requires forall i :: 2 <= i < 5 ==> p[i] == 0 || p[i] == 1
    ensures WriteToParcel(ReadFromParcel(p).value) == p[..5]
  {
    var ss := ReadFromParcel(p).value;
    assert Code(ss.state) == p[0];
    assert p[2] == 0 || p[2] == 1;
    assert p[3] == 0 || p[3] == 1;
    assert p[4] == 0 || p[4] == 1;
  }

  /** Intermediate states are restored as Collapsed; rest states as they were. */
  function RestoredState(s: State): (r: State)
    ensures !IsTransient(r)
    ensures IsTransient(s) ==> r == Collapsed
    ensures !IsTransient(s) ==> r == s
  {
    if s == Dragging || s == Settling then Collapsed else s
  }

  /** Whether `flags` selects the optional field guarded by `bit`. */
  function Restores(flags: bv32, bit: bv32): bool
  {
    flags == SAVE_ALL || flags & bit == bit
  }

  /** For a single-bit flag this is just the test of that bit; SAVE_NONE selects nothing. */
  lemma RestoresIsBitTest(flags: bv32, bit: bv32)
    requires bit in {SAVE_PEEK_HEIGHT, SAVE_FIT_TO_CONTENTS, SAVE_HIDEABLE, SAVE_SKIP_COLLAPSED}
    ensures Restores(flags, bit) <==> flags & bit != 0
    ensures !Restores(SAVE_NONE, bit) && Restores(SAVE_ALL, bit)
  {
  }

  /**
   * `onRestoreInstanceState` on the persisted fields: `current` is what the
   * sheet holds, `saved` what was saved; the state is always taken from `saved`.
   */
  function RestoreInto(flags: bv32, current: SavedState, saved: SavedState): SavedState
  {
    var s := RestoredState(saved.state);
    if flags == SAVE_NONE then current.(state := s)
    else SavedState(
      s,
      if Restores(flags, SAVE_PEEK_HEIGHT) then saved.peekHeight else current.peekHeight,
      if Restores(flags, SAVE_FIT_TO_CONTENTS) then saved.fitToContents else current.fitToContents,
      if Restores(flags, SAVE_HIDEABLE) then saved.hideable else current.hideable,
      if Restores(flags, SAVE_SKIP_COLLAPSED) then saved.skipCollapsed else current.skipCollapsed)
  }

  /** SAVE_NONE keeps every optional field. */
  lemma RestoreNoneKeepsConfig(current: SavedState, saved: SavedState)
    ensures RestoreInto(SAVE_NONE, current, saved) == current.(state := RestoredState(saved.state))
  {
  }

  /** SAVE_ALL takes every field from what was saved. */
  lemma RestoreAllTakesSaved(current: SavedState, saved: SavedState)
    ensures RestoreInto(SAVE_ALL, current, saved) == saved.(state := RestoredState(saved.state))
  {
  }

  /** Each optional field is taken from `saved` iff its bit is set (SAVE_ALL sets them all). */
  lemma RestoreFieldByBit(flags: bv32, current: SavedState, saved: SavedState)
    ensures var r := RestoreInto(flags, current, saved);
      r.state == RestoredState(saved.state)
      && r.peekHeight == (if flags & SAVE_PEEK_HEIGHT != 0 then saved.peekHeight else current.peekHeight)
      && r.fitToContents == (if flags & SAVE_FIT_TO_CONTENTS != 0 then saved.fitToContents else current.fitToContents)
      && r.hideable == (if flags & SAVE_HIDEABLE != 0 then saved.hideable else current.hideable)
      && r.skipCollapsed == (if flags & SAVE_SKIP_COLLAPSED != 0 then saved.skipCollapsed else current.skipCollapsed)
  {
    RestoresIsBitTest(flags, SAVE_PEEK_HEIGHT);
    RestoresIsBitTest(flags, SAVE_FIT_TO_CONTENTS);
    RestoresIsBitTest(flags, SAVE_HIDEABLE);
    RestoresIsBitTest(flags, SAVE_SKIP_COLLAPSED);
  }

  /**
   * Saving, writing, reading and restoring with SAVE_ALL into any sheet
   * reproduces the four optional fields; a transient state comes back Collapsed.
   */
  lemma SaveAllRoundTrip(current: SavedState, saved: SavedState)
    ensures ReadFromParcel(WriteToParcel(saved)).Some?
    ensures RestoreInto(SAVE_ALL, current, ReadFromParcel(WriteToParcel(saved)).value)
            == saved.(state := RestoredState(saved.state))
  {
    ParcelRoundTrip(saved);
  }
}

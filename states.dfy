/** The six discrete states of a bottom sheet and their integer codes. */
module States {
  import opened Common

  datatype State = Dragging | Settling | Expanded | Collapsed | Hidden | HalfExpanded

  /** The public `STATE_*` constant of each state. */
  function Code(s: State): int
  {
    match s
    case Dragging => 1
    case Settling => 2
    case Expanded => 3
    case Collapsed => 4
    case Hidden => 5
    case HalfExpanded => 6
  }

  /** The state an integer code stands for, if it is one of the six constants. */
  function StateOfCode(c: int): (r: Option<State>)
    ensures r.Some? <==> 1 <= c <= 6
    ensures r.Some? ==> Code(r.value) == c
  {
    if c == 1 then Some(Dragging)
    else if c == 2 then Some(Settling)
    else if c == 3 then Some(Expanded)
    else if c == 4 then Some(Collapsed)
    else if c == 5 then Some(Hidden)
    else if c == 6 then Some(HalfExpanded)
    else None
  }

  lemma CodeRoundTrip(s: State)
    ensures 1 <= Code(s) <= 6
    ensures StateOfCode(Code(s)) == Some(s)
  {
  }

  /** Dragging and Settling are transient; the other four are rest positions. */
  predicate IsTransient(s: State) { s == Dragging || s == Settling }
}

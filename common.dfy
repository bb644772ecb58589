/** Small value helpers shared by the bottom-sheet model. */
module Common {

  datatype Option<+T> = None | Some(value: T)

  function Abs(x: int): int { if x < 0 then -x else x }

  function AbsReal(x: real): real { if x < 0.0 then -x else x }

  function Max(a: int, b: int): int { if a < b then b else a }

  /** Java's integer division, which truncates toward zero (Dafny's `/` is Euclidean). */
  function JavaDiv(a: int, b: int): (q: int)
    requires b != 0
    ensures a >= 0 && b > 0 ==> q == a / b
  {
    var m := Abs(a) / Abs(b);
    if (a < 0) != (b < 0) then -m else m
  }

  /** Java's `(int)` cast of a (float) value: truncation toward zero. */
  function TruncToInt(x: real): (n: int)
    ensures x >= 0.0 ==> n as real <= x < n as real + 1.0
    ensures x < 0.0 ==> n as real - 1.0 < x <= n as real
  {
    if x >= 0.0 then x.Floor else -((-x).Floor)
  }
}

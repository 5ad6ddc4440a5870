/** Small helpers shared by every module: failure-carrying results and the
    text rendering of line numbers and error lists. */
module Support {

  datatype Option<+T> = None | Some(value: T)

  /** A value or the error that stopped the computation (a raised exception). */
  datatype Result<+T, +E> = Success(value: T) | Failure(error: E)

  /** Completion of a procedure that returns nothing or raises. */
  datatype Outcome<+E> = Pass | Fail(error: E)

  function DigitChar(d: nat): (c: char)
    requires d < 10
    ensures '0' <= c <= '9'
  {
    "0123456789"[d]
  }

  /** Decimal rendering of a natural number, as Python's f-string prints an int. */
  function NatToString(n: nat): (s: string)
    ensures |s| > 0
    ensures forall k | 0 <= k < |s| :: '0' <= s[k] <= '9'
    decreases n
  {
    if n < 10 then [DigitChar(n)] else NatToString(n / 10) + [DigitChar(n % 10)]
  }

  /** `"\n".join(lines)` */
  function JoinLines(lines: seq<string>): string
  {
    if |lines| == 0 then ""
    else if |lines| == 1 then lines[0]
    else lines[0] + "\n" + JoinLines(lines[1..])
  }
}

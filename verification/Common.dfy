/** Small value-level helpers shared by every module. */
module Common {

  datatype Option<+T> = None | Some(value: T)

  /** What an event or a plan is for: a long or a short trade, or a warning only. */
  datatype Direction = Long | Short | RiskOnly

  /** One answer of the remote account: either the rows it returned, or a failed call. */
  datatype Read<+T> = Got(rows: T) | ReadError

  function MaxReal(a: real, b: real): real {
    if a < b then b else a
  }

  function MinReal(a: real, b: real): real {
    if b < a then b else a
  }

  function AbsReal(a: real): real {
    if a < 0.0 then -a else a
  }

  function MaxInt(a: int, b: int): int {
    if a < b then b else a
  }

  function MinInt(a: int, b: int): int {
    if b < a then b else a
  }

  function AbsInt(a: int): int {
    if a < 0 then -a else a
  }

  /** Python's `x or d` on an optional number: a missing value and zero are both false. */
  function OrElse(o: Option<real>, d: real): real {
    if o.Some? && o.value != 0.0 then o.value else d
  }

  /** An optional number that keeps zero out: Python's `x or None`. */
  function NonZero(x: real): Option<real> {
    if x == 0.0 then None else Some(x)
  }
}

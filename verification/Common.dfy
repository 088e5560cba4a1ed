/** Small shared vocabulary: optional values, outcomes of calls that may raise,
    share quantities in micro-shares, and rounding. */
module Common {

  datatype Option<+T> = None | Some(value: T) {
    function GetOr(default: T): T {
      match this
      case Some(v) => v
      case None => default
    }
  }

  /** What a call that can raise an exception returns besides its effect. */
  datatype Outcome<+E> = Pass | Raise(error: E) {
    predicate IsFailure() { Raise? }
    function PropagateFailure(): Outcome<E>
      requires Raise?
    {
      this
    }
  }

  /** A value, or the exception raised instead. */
  datatype Result<+T, +E> = Ok(value: T) | Err(error: E)

  /** Shares are counted in units of 10^-6 share; `Qty` is the number of shares. */
  const SHARE_SCALE: int := 1_000_000

  function Qty(units: int): real {
    units as real / 1_000_000.0
  }

  function Min(a: int, b: int): int { if a <= b then a else b }

  function Max(a: int, b: int): int { if a >= b then a else b }

  function MinR(a: real, b: real): real { if a <= b then a else b }

  function MaxR(a: real, b: real): real { if a >= b then a else b }

  /** The truthiness rule `x or y` on numbers: zero falls through. */
  function OrElse(x: real, y: real): real { if x != 0.0 then x else y }

  /** Rounding to the nearest unit, ties to the even neighbour. */
  function RoundHalfEven(x: real): (n: int)
    ensures x - 0.5 <= n as real <= x + 0.5
    ensures n as real == x - 0.5 || n as real == x + 0.5 ==> n % 2 == 0
  {
    var low := x.Floor;
    var gap := x - low as real;
    if gap < 0.5 || (gap == 0.5 && low % 2 == 0) then low else low + 1
  }

  /** `normalize_shares` of an exact share quantity. */
  function Units(shares: real): int {
    RoundHalfEven(shares * 1_000_000.0)
  }

  /** Average cost of `open` units bought at `avg` and `delta` more bought at `price`. */
  function BlendedAvg(open: int, avg: real, delta: int, price: real): real
    requires open + delta != 0
  {
    (Qty(open) * avg + Qty(delta) * price) / Qty(open + delta)
  }
}

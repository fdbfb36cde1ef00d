/** Values shared by the whole model: optional values, the calendar helpers that
    stand for `Date` with its time of day cleared, and JavaScript's integer
    arithmetic where it differs from Dafny's. */
module Basics {

  /** A value that may be absent (`null` or `undefined` in the application). */
  datatype Option<+T> = None | Some(value: T)

  /** The notification a page shows after an action, if any. */
  datatype Toast = NoToast | SuccessToast(message: string) | ErrorToast(message: string)

  /** Milliseconds in a day: `1000 * 60 * 60 * 24`. */
  const DayMs: int := 86_400_000

  function Max(a: int, b: int): int { if a < b then b else a }

  function Min(a: int, b: int): int { if a < b then a else b }

  /** The calendar day a timestamp (milliseconds, local time) falls on. Two
      timestamps have the same `toDateString()` exactly when their days agree. */
  function Day(ms: int): int { ms / DayMs }

  /** The timestamp of the midnight that starts the day of `ms`: what
      `setHours(0, 0, 0, 0)` does to a `Date`. */
  function Midnight(ms: int): (r: int)
    ensures r <= ms < r + DayMs
    ensures Day(r) == Day(ms)
    ensures r % DayMs == 0
  {
    Day(ms) * DayMs
  }

  /** A timestamp lies at or after the midnight that starts `today` exactly
      when its day is `today`'s day or a later one. */
  lemma {:induction false} AtOrAfterMidnight(ms: int, now: int)
    ensures ms >= Midnight(now) <==> Day(ms) >= Day(now)
  {
    var m := Midnight(now);
    if ms >= m {
      assert Day(ms) >= Day(m) by { DayMonotone(m, ms); }
    } else {
      assert ms < m;
      assert Day(ms) < Day(now) by {
        assert ms / DayMs <= (m - 1) / DayMs by { DayMonotone(ms, m - 1); }
        assert (m - 1) / DayMs == Day(now) - 1;
      }
    }
  }

  lemma DayMonotone(a: int, b: int)
    requires a <= b
    ensures Day(a) <= Day(b)
  {
  }

  /** JavaScript's `%` on integers: the remainder carries the sign of the
      dividend, where Dafny's is never negative. */
  function JsRem(a: int, b: int): (r: int)
    requires b > 0
    ensures a >= 0 ==> 0 <= r < b
    ensures a < 0 ==> -b < r <= 0
    ensures (a - r) % b == 0
  {
    RemainderDiffersByMultiple(a, b);
    if a >= 0 then a % b else -((-a) % b)
  }

  /** Both of JavaScript's cases leave a multiple of the divisor: the
      remainder of `a` itself, and the negated remainder of `-a`. */
  lemma RemainderDiffersByMultiple(a: int, b: int)
    requires b > 0
    ensures (a - a % b) % b == 0
    ensures (a + (-a) % b) % b == 0
  {
    assert a - a % b == (a / b) * b;
    MultipleHasNoRemainder(a / b, b);
    var q := (-a) / b;
    assert a + (-a) % b == (-q) * b;
    MultipleHasNoRemainder(-q, b);
  }

  lemma MultipleHasNoRemainder(k: int, b: int)
    requires b > 0
    ensures (k * b) % b == 0
  {
    var x := k * b;
    var d := k - x / b;
    assert x % b == d * b;
  }

  /** `Math.ceil(x / DayMs)` for an integer number of milliseconds `x`. */
  function CeilDays(x: int): (r: int)
    ensures (r - 1) * DayMs < x <= r * DayMs
  {
    if x % DayMs == 0 then x / DayMs else x / DayMs + 1
  }
}

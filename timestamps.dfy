/**
 * `_utc_from_ts`: a reported timestamp becomes a UTC instant, or None when
 * `float()` rejects it. An instant is an integer count of microseconds since
 * the epoch; the conversion rounds to the nearest microsecond, ties to even,
 * as Python's datetime.fromtimestamp does.
 */
module Timestamps {
  import opened Wrappers
  import opened PyJson

  const MicrosPerSecond: real := 1000000.0

  /** The integer nearest to `x`; of two equally near, the even one. */
  function RoundHalfEven(x: real): (r: int)
    ensures r as real - x <= 0.5 && x - r as real <= 0.5
    ensures (r as real - x == 0.5 || x - r as real == 0.5) ==> r % 2 == 0
  {
    var f := x.Floor;
    var d := x - f as real;
    if d < 0.5 then f
    else if d > 0.5 then f + 1
    else if f % 2 == 0 then f
    else f + 1
  }

  /** `_utc_from_ts(val)`: seconds since the epoch as microseconds, None if `float(val)` fails. */
  function UtcFromTs(v: Json): (t: Option<int>)
    ensures t.Some? <==> ToFloat(v).Some?
    ensures t.Some? ==> t.value as real - ToFloat(v).value * MicrosPerSecond <= 0.5
    ensures t.Some? ==> ToFloat(v).value * MicrosPerSecond - t.value as real <= 0.5
  {
    match ToFloat(v)
    case None => None
    case Some(seconds) => Some(RoundHalfEven(seconds * MicrosPerSecond))
  }

  /** Rounding never reverses the order of two instants. */
  lemma RoundHalfEvenMonotone(x: real, y: real)
    requires x <= y
    ensures RoundHalfEven(x) <= RoundHalfEven(y)
  {
  }

  /** A reading that is not later as a float is not later as a UTC instant either. */
  lemma UtcFromTsMonotone(a: Json, b: Json)
    requires ToFloat(a).Some? && ToFloat(b).Some?
    requires ToFloat(a).value <= ToFloat(b).value
    ensures UtcFromTs(a).Some? && UtcFromTs(b).Some?
    ensures UtcFromTs(a).value <= UtcFromTs(b).value
  {
  }

  /**
   * Readings less than half a microsecond after a reading that falls on a
   * whole microsecond `k` parse to that same instant, so the later one is
   * not newer.
   */
  lemma {:induction false} SubMicrosecondLaterReadingCoincides(k: int, d: real)
    requires 0.0 <= d < 0.5
    ensures UtcFromTs(JNum(k as real / MicrosPerSecond)) == Some(k)
    ensures UtcFromTs(JNum((k as real + d) / MicrosPerSecond)) == Some(k)
  {
    var x := k as real / MicrosPerSecond;
    assert x * MicrosPerSecond == k as real;
    var y := (k as real + d) / MicrosPerSecond;
    assert y * MicrosPerSecond == k as real + d;
    var r := RoundHalfEven(k as real + d);
    assert k - 1 < r < k + 1;
  }
}

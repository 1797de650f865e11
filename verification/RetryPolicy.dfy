/**
  Retry intervals: the linear policies with their unsigned 64-bit arithmetic, and the
  jittered duration picked for a try. Durations are in nanoseconds; floating point is
  modelled over the reals.
 */
module RetryPolicy {

  const TWO63: int := 0x8000_0000_0000_0000
  const TWO64: int := 0x1_0000_0000_0000_0000
  const MILLISECOND := 1_000_000

  /** Conversions between Go's int64 and uint64, wrapping around. */
  function ToUint64(x: int): nat {
    x % TWO64
  }

  function ToInt64(x: int): int {
    var u := x % TWO64;
    if u < TWO63 then u else u - TWO64
  }

  /** The i-th entry the policy is meant to have. */
  function Interval(lo: int, hi: int, steps: nat, i: nat): int
    requires steps > 0
  {
    lo + i * ((hi - lo) / steps)
  }

  /** Intervals start at the lower bound and grow by the same whole step every time. */
  lemma IntervalsAreEven(lo: int, hi: int, steps: nat, i: nat)
    requires steps > 0
    ensures Interval(lo, hi, steps, 0) == lo
    ensures Interval(lo, hi, steps, i + 1) - Interval(lo, hi, steps, i) == (hi - lo) / steps
  {
    var step := (hi - lo) / steps;
    assert (i + 1) * step == i * step + step;
  }

  lemma IntervalBounds(lo: int, hi: int, steps: nat, i: nat)
    requires steps > 0 && 0 <= lo <= hi < TWO63 && i < steps
    ensures
      var step := (hi - lo) / steps;
      && 0 <= step && 0 <= i * step <= hi - lo
      && lo <= Interval(lo, hi, steps, i) <= hi
  {
    var step := (hi - lo) / steps;
    assert step * steps + (hi - lo) % steps == hi - lo;
    assert i * step <= steps * step;
  }

  /** `linearPolicy`: for non-negative bounds nothing overflows, the entries never decrease,
      lie between the bounds, start at the lower one, and the last one misses the upper
      bound by exactly one step plus the division's remainder. */
  method LinearPolicy(steps: nat, min: int, max: int) returns (intervals: seq<int>)
    requires 0 < steps < TWO64 && 0 <= min < TWO63 && 0 <= max < TWO63
    ensures |intervals| == steps
    ensures
      var lo, hi := if max < min then max else min, if max < min then min else max;
      && (forall i :: 0 <= i < steps ==> intervals[i] == Interval(lo, hi, steps, i) && lo <= intervals[i] <= hi)
      && (forall i, j :: 0 <= i <= j < steps ==> intervals[i] <= intervals[j])
      && intervals[0] == lo
      && hi - intervals[steps - 1] == (hi - lo) / steps + (hi - lo) % steps
  {
    var lo, hi := min, max;
    if max < min {
      lo, hi := max, min;
    }
    var stepSize := ToUint64(ToInt64(hi - lo)) / steps;
    WrapIsHarmless(hi - lo);
    intervals := [];
    var i := 0;
    while i < steps
      invariant 0 <= i <= steps && |intervals| == i
      invariant forall k :: 0 <= k < i ==> intervals[k] == Interval(lo, hi, steps, k)
    {
      EntryIsExact(lo, hi, steps, i);
      intervals := intervals + [Entry(lo, stepSize, i)];
      i := i + 1;
    }
    forall k | 0 <= k < steps ensures lo <= intervals[k] <= hi { IntervalBounds(lo, hi, steps, k); }
    forall j, k | 0 <= j <= k < steps ensures intervals[j] <= intervals[k] { IntervalOrdered(lo, hi, steps, j, k); }
    LastInterval(lo, hi, steps);
  }

  /** One entry as computed, in wrapping unsigned arithmetic. */
  function Entry(lo: int, stepSize: int, i: nat): int {
    ToInt64(ToUint64(ToUint64(lo) + ToUint64(i * stepSize)))
  }

  lemma WrapIsHarmless(x: int)
    requires 0 <= x < TWO63
    ensures ToInt64(x) == x && ToUint64(x) == x
  {
  }

  lemma EntryIsExact(lo: int, hi: int, steps: nat, i: nat)
    requires steps > 0 && 0 <= lo <= hi < TWO63 && i < steps
    ensures Entry(lo, (hi - lo) / steps, i) == Interval(lo, hi, steps, i)
  {
    IntervalBounds(lo, hi, steps, i);
    var offset := i * ((hi - lo) / steps);
    WrapIsHarmless(lo);
    WrapIsHarmless(offset);
    WrapIsHarmless(lo + offset);
  }

  lemma IntervalOrdered(lo: int, hi: int, steps: nat, j: nat, k: nat)
    requires steps > 0 && lo <= hi && j <= k
    ensures Interval(lo, hi, steps, j) <= Interval(lo, hi, steps, k)
  {
    var step := (hi - lo) / steps;
    assert (k - j) * step >= 0;
  }

  lemma LastInterval(lo: int, hi: int, steps: nat)
    requires steps > 0 && lo <= hi
    ensures hi - Interval(lo, hi, steps, steps - 1) == (hi - lo) / steps + (hi - lo) % steps
  {
    var step := (hi - lo) / steps;
    assert (steps - 1) * step == steps * step - step;
  }

  // ---- Picking a duration ----

  /** Go's conversion of a non-negative float to an integer. */
  function Truncate(x: real): int
    requires x >= 0.0
  {
    x.Floor
  }

  /** `Round` to a multiple of `m`, halves away from zero, for non-negative values. */
  function RoundTo(d: int, m: int): int
    requires d >= 0 && m > 0
  {
    var r := d % m;
    if r + r < m then d - r else d + m - r
  }

  /** `jitter`, given the random number drawn from [0, d). */
  function Jitter(d: int, factor: real, draw: int): int
    requires d >= 0 && factor >= 0.0 && (d > 0 ==> 0 <= draw < d)
  {
    if d == 0 then 0 else RoundTo(Truncate(d as real * factor + draw as real), MILLISECOND)
  }

  function Pick(intervals: seq<int>, n: nat): int
    requires intervals != []
  {
    intervals[if n >= |intervals| then |intervals| - 1 else n]
  }

  /** `Duration` for try `n`. */
  function Duration(intervals: seq<int>, factor: real, n: nat, draw: int): int
    requires intervals != [] && factor >= 0.0
    requires Pick(intervals, n) >= 0 && (Pick(intervals, n) > 0 ==> 0 <= draw < Pick(intervals, n))
  {
    var delay := Jitter(Pick(intervals, n), factor, draw);
    if delay == 0 then intervals[0] else delay
  }

  lemma RoundIsNear(d: int)
    requires d >= 0
    ensures d - MILLISECOND / 2 < RoundTo(d, MILLISECOND) <= d + MILLISECOND / 2
    ensures RoundTo(d, MILLISECOND) >= 0 && RoundTo(d, MILLISECOND) % MILLISECOND == 0
  {
  }

  lemma JitterBounds(d: int, factor: real, draw: int)
    requires d > 0 && factor >= 0.0 && 0 <= draw < d
    ensures
      var j, x := Jitter(d, factor, draw), d as real * factor + draw as real;
      && j >= 0 && j % 1_000_000 == 0
      && x - 500_001.0 < j as real <= x + 500_000.0
      && j as real <= d as real * (1.0 + factor) + 500_000.0
  {
    assert d as real * factor >= 0.0;
    var x := d as real * factor + draw as real;
    RoundIsNear(Truncate(x));
    assert d as real * (1.0 + factor) == d as real + d as real * factor;
  }

  /** For try `n`, with `d` its interval, the last one for later tries: the duration is the
      interval's share of the factor plus the draw, to the nearest millisecond, or the first
      interval where that is nothing. With positive intervals it is positive and at most
      `d * (1 + factor)` plus half a millisecond, or the first interval. */
  lemma DurationBounds(intervals: seq<int>, factor: real, n: nat, d: int, draw: int)
    requires intervals != [] && factor >= 0.0 && 0 < intervals[0] && 0 <= draw < d
    requires d == if n < |intervals| then intervals[n] else intervals[|intervals| - 1]
    ensures
      var r, x := Duration(intervals, factor, n, draw), d as real * factor + draw as real;
      && 0 < r
      && ((r % 1_000_000 == 0 && x - 500_001.0 < r as real <= x + 500_000.0) || (r == intervals[0] && x < 500_001.0))
      && (r as real <= d as real * (1.0 + factor) + 500_000.0 || r == intervals[0])
  {
    JitterBounds(d, factor, draw);
  }

  lemma ScaledBound(a: real, b: real, factor: real)
    requires 0.0 <= a <= b && factor >= 0.0
    ensures a * (1.0 + factor) <= b * (1.0 + factor) && a <= b * (1.0 + factor)
  {
    var gap := b - a;
    assert gap * factor >= 0.0 && a * factor >= 0.0;
    assert b * (1.0 + factor) == a + gap + a * factor + gap * factor;
    assert a * (1.0 + factor) == a + a * factor;
  }

  lemma DurationWithin(intervals: seq<int>, factor: real, hi: int, n: nat, draw: int)
    requires intervals != [] && factor >= 0.0 && forall i :: 0 <= i < |intervals| ==> 0 < intervals[i] <= hi
    requires 0 <= draw < intervals[if n < |intervals| then n else |intervals| - 1]
    ensures
      var d := Duration(intervals, factor, n, draw);
      0 < d && d as real <= hi as real * (1.0 + factor) + 500_000.0
  {
    var d := intervals[if n < |intervals| then n else |intervals| - 1];
    DurationBounds(intervals, factor, n, d, draw);
    ScaledBound(d as real, hi as real, factor);
    ScaledBound(intervals[0] as real, hi as real, factor);
  }

  /** The two composed, for bounds in order. */
  method OrderedDuration(steps: nat, factor: real, lo: int, hi: int, n: nat, draw: int) returns (d: int)
    requires 0 < steps < TWO64 && 0 < lo <= hi < TWO63 && factor >= 0.0
    requires 0 <= draw < Interval(lo, hi, steps, if n >= steps then steps - 1 else n)
    ensures 0 < d && d as real <= hi as real * (1.0 + factor) + 500_000.0
  {
    var intervals := LinearPolicy(steps, lo, hi);
    DurationWithin(intervals, factor, hi, n, draw);
    d := Duration(intervals, factor, n, draw);
  }

  /** Every duration a linear policy with positive bounds picks, whichever comes first. */
  method PolicyDuration(steps: nat, factor: real, min: int, max: int, n: nat, draw: int) returns (d: int)
    requires 0 < steps < TWO64 && 0 < min < TWO63 && 0 < max < TWO63 && factor >= 0.0
    requires
      var k := if n >= steps then steps - 1 else n;
      0 <= draw < if max < min then Interval(max, min, steps, k) else Interval(min, max, steps, k)
    ensures 0 < d
    ensures d as real <= (if max < min then min else max) as real * (1.0 + factor) + 500_000.0
  {
    if max < min {
      d := OrderedDuration(steps, factor, max, min, n, draw);
    } else {
      d := OrderedDuration(steps, factor, min, max, n, draw);
    }
  }
}

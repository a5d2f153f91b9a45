/** The fixed-point DSP primitives: a saturating 16-bit add, the integrator
    built on it, and the Q8 one-pole filter built on the integrator. */
module Dsp {
  import opened Ints

  /** The int16 value nearest to v. */
  function Clamp16(v: int): int16
  {
    if v > INT16_MAX then INT16_MAX else if v < INT16_MIN then INT16_MIN else v
  }

  /** safe_add: the sum of a and b, saturated to the int16 bounds instead of wrapping. */
  function SafeAdd(a: int16, b: int16): (r: int16)
    ensures r == Clamp16(a + b)
    ensures r == a + b <==> INT16_MIN <= a + b <= INT16_MAX
  {
    if a > 0 && b > INT16_MAX - a then INT16_MAX
    else if a < 0 && b < INT16_MIN - a then INT16_MIN
    else a + b
  }

  /** The Q8 integer part of a filter state, `*f / 256` in C. */
  function FilterOut(f: int16): (y: int8)
  {
    FilterOutRange(f);
    DivTrunc(f, 256)
  }

  /** `*f / 256` of an int16 state truncates to -128..127, so it fits an audio_signal. */
  lemma FilterOutRange(f: int16)
    ensures -128 <= DivTrunc(f, 256) <= 127
  {
  }

  /** The integrator input of filter1pole_feed, `(x - *f / 256) * k`.
      |x - *f/256| <= 255 and |k| <= 128, so it always fits an int16. */
  function FilterDelta(f: int16, k: int8, x: int8): (d: int16)
    ensures -255 * 128 <= d <= 255 * 128
    ensures d == 0 <==> k == 0 || x == DivTrunc(f, 256)
  {
    var e := x - FilterOut(f);
    ProductBound(e, k);
    e * k
  }

  lemma ProductBound(e: int, k: int)
    requires -255 <= e <= 255 && -128 <= k <= 127
    ensures -255 * 128 <= e * k <= 255 * 128
    ensures e * k == 0 <==> e == 0 || k == 0
  {
    if e >= 0 && k >= 0 {
      MulMonotone(e, 0, k); MulMonotone(e, k, 127);
      MulMonotone(k, 0, e); MulMonotone(k, e, 255);
    } else if e >= 0 {
      MulMonotone(e, 0, -k); MulMonotone(e, -k, 128);
      MulMonotone(-k, 0, e); MulMonotone(-k, e, 255);
    } else if k >= 0 {
      MulMonotone(-e, 0, k); MulMonotone(-e, k, 127);
      MulMonotone(k, 0, -e); MulMonotone(k, -e, 255);
    } else {
      MulMonotone(-e, 0, -k); MulMonotone(-e, -k, 128);
      MulMonotone(-k, 0, -e); MulMonotone(-k, -e, 255);
    }
    if e != 0 && k != 0 {
      NonZeroProduct(e, k);
    }
  }

  lemma NonZeroProduct(e: int, k: int)
    requires e != 0 && k != 0
    ensures e * k != 0
  {
    if e > 0 && k > 0 { MulMonotone(e, 0, 1); MulMonotone(e, 1, k); }
    else if e > 0 { MulMonotone(e, 0, 1); MulMonotone(e, 1, -k); }
    else if k > 0 { MulMonotone(-e, 0, 1); MulMonotone(-e, 1, k); }
    else { MulMonotone(-e, 0, 1); MulMonotone(-e, 1, -k); }
  }

  /** The state of a one-pole filter after one filter1pole_feed. */
  function FilterNext(f: int16, k: int8, x: int8): int16
  {
    SafeAdd(f, FilterDelta(f, k, x))
  }

  /** With k = 0, or with an input equal to the current output, the filter state stays put. */
  lemma FilterFixedPoint(f: int16, k: int8, x: int8)
    requires k == 0 || x == FilterOut(f)
    ensures FilterNext(f, k, x) == f
  {
  }

  /** With a non-negative coefficient (the range the ISR produces) one step moves
      the output toward the input and never past it: the filter does not diverge. */
  lemma FilterMovesTowardInput(f: int16, k: int8, x: int8)
    requires 0 <= k
    ensures var y, y' := FilterOut(f), FilterOut(FilterNext(f, k, x));
      (y <= x ==> y <= y' <= x) && (x <= y ==> x <= y' <= y)
  {
    if FilterOut(f) < x {
      FilterRises(f, k, x);
    } else if x < FilterOut(f) {
      FilterFalls(f, k, x);
    }
  }

  lemma FilterRises(f: int16, k: int8, x: int8)
    requires 0 <= k && FilterOut(f) < x
    ensures FilterOut(f) <= FilterOut(FilterNext(f, k, x)) <= x
  {
    var y := FilterOut(f);
    var d := FilterDelta(f, k, x);
    var g := FilterNext(f, k, x);
    assert 0 <= d <= 127 * (x - y) by { MulMonotone(x - y, 0, k); MulMonotone(x - y, k, 127); }
    assert f <= g <= f + d;
    DivTruncMono(f, g);
    DivTruncMono(g, f + d);
    RiseBound(f, d, x);
  }

  lemma FilterFalls(f: int16, k: int8, x: int8)
    requires 0 <= k && x < FilterOut(f)
    ensures x <= FilterOut(FilterNext(f, k, x)) <= FilterOut(f)
  {
    var y := FilterOut(f);
    var d := FilterDelta(f, k, x);
    var g := FilterNext(f, k, x);
    NegativeScaled(x - y, k);
    assert 127 * (x - y) <= d <= 0;
    assert f + d <= g <= f;
    DivTruncMono(g, f);
    DivTruncMono(f + d, g);
    FallBound(f, d, x);
  }

  lemma NegativeScaled(e: int, k: int)
    requires e < 0 && 0 <= k <= 127
    ensures 127 * e <= e * k <= 0
  {
    MulMonotone(-e, 0, k);
    MulMonotone(-e, k, 127);
    assert (-e) * k == -(e * k);
  }

  /** With a positive coefficient, as long as the output differs from the input
      the state strictly moves toward it: the filter never stalls. */
  lemma FilterProgress(f: int16, k: int8, x: int8)
    requires 0 < k && FilterOut(f) != x
    ensures FilterOut(f) < x ==> f < FilterNext(f, k, x)
    ensures x < FilterOut(f) ==> FilterNext(f, k, x) < f
  {
    var y := FilterOut(f);
    if y < x {
      MulMonotone(x - y, 1, k);
    } else {
      MulMonotone(y - x, 1, k);
      assert (x - y) * k == -((y - x) * k);
    }
  }

  /** The filter state after n steps with the same coefficient and input. */
  function FilterIterate(f: int16, k: int8, x: int8, n: nat): int16
    decreases n
  {
    if n == 0 then f else FilterIterate(FilterNext(f, k, x), k, x, n - 1)
  }

  /** Fed a constant input, every later output lies between the first output and
      the input, and each step's output is at least as close to the input as the
      one before it. */
  lemma {:induction false} FilterIterateBetween(f: int16, k: int8, x: int8, n: nat)
    requires 0 <= k
    ensures var y, yn, yn' := FilterOut(f), FilterOut(FilterIterate(f, k, x, n)),
        FilterOut(FilterIterate(f, k, x, n + 1));
      && (y <= x ==> y <= yn <= yn' <= x)
      && (x <= y ==> x <= yn' <= yn <= y)
    decreases n
  {
    FilterMovesTowardInput(f, k, x);
    if n > 0 {
      FilterIterateBetween(FilterNext(f, k, x), k, x, n - 1);
    }
  }

  /** Fed a constant input with a positive coefficient, the filter settles: after
      the returned number of steps its output equals the input. Each step moves
      the output toward the input without passing it (FilterMovesTowardInput) and
      moves the state strictly (FilterProgress), so the state's distance to the
      end of the int16 range it moves toward decreases. */
  function StepsToSettle(f: int16, k: int8, x: int8): (n: nat)
    requires 0 < k
    ensures FilterOut(FilterIterate(f, k, x, n)) == x
    decreases if FilterOut(f) == x then 0 else 1,
      if FilterOut(f) < x then INT16_MAX - f else f - INT16_MIN
  {
    if FilterOut(f) == x then 0
    else
      FilterMovesTowardInput(f, k, x);
      FilterProgress(f, k, x);
      1 + StepsToSettle(FilterNext(f, k, x), k, x)
  }

  /** Once the output equals the input, further steps leave the state where it is. */
  lemma {:induction false} FilterStaysSettled(f: int16, k: int8, x: int8, n: nat)
    requires FilterOut(f) == x
    ensures FilterIterate(f, k, x, n) == f
    decreases n
  {
    if n > 0 {
      FilterFixedPoint(f, k, x);
      FilterStaysSettled(f, k, x, n - 1);
    }
  }

  /** A step of at most 127/256 of the way up does not overshoot the input. */
  lemma RiseBound(f: int, d: int, x: int)
    requires DivTrunc(f, 256) < x && 0 <= d <= 127 * (x - DivTrunc(f, 256))
    ensures DivTrunc(f + d, 256) <= x
  {
  }

  /** A step of at most 127/256 of the way down does not overshoot the input. */
  lemma FallBound(f: int, d: int, x: int)
    requires x < DivTrunc(f, 256) && 127 * (x - DivTrunc(f, 256)) <= d <= 0
    ensures x <= DivTrunc(f + d, 256)
  {
  }

  /** C division by 256 is monotone. */
  lemma DivTruncMono(a: int, b: int)
    requires a <= b
    ensures DivTrunc(a, 256) <= DivTrunc(b, 256)
  {
  }

  /** An int16 accumulator updated through a pointer: the `integrator` and
      `filter1pole` typedefs of the firmware. */
  class Integrator {
    var state: int16

    constructor ()
      ensures state == 0
    {
      state := 0;
    }

    /** integrator_feed: stores the saturated sum and returns it. */
    method Feed(x: int16) returns (r: int16)
      modifies this
      ensures state == SafeAdd(old(state), x)
      ensures r == state
    {
      state := SafeAdd(state, x);
      r := state;
    }

    /** filter1pole_feed: feeds `(x - state/256) * k` to the integrator and
        returns the new state's Q8 integer part. */
    method FilterFeed(k: int8, x: int8) returns (y: int8)
      modifies this
      ensures state == FilterNext(old(state), k, x)
      ensures y == FilterOut(state)
    {
      var _ := Feed(FilterDelta(state, k, x));
      y := FilterOut(state);
    }
  }
}

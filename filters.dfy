/**
 * The exponential moving-average filter that smooths the cursor position:
 * the first update after construction or reset passes its input through,
 * every later one stores and returns `alpha * new + (1 - alpha) * previous`.
 */
module Filters {
  import opened Common

  /** One smoothing step on a stored point `prev` toward the input `p`. */
  function Blend(alpha: real, prev: Point, p: Point): Point
  {
    Point(alpha * p.x + (1.0 - alpha) * prev.x, alpha * p.y + (1.0 - alpha) * prev.y)
  }

  /** What `update` stores and returns, given what was stored before the call. */
  function Smooth(alpha: real, stored: Option<Point>, p: Point): Point
  {
    match stored
    case None => p
    case Some(prev) => Blend(alpha, prev, p)
  }

  /** `a` lies between `u` and `v`, whichever of the two is smaller. */
  predicate Between(a: real, u: real, v: real)
  {
    Min(u, v) <= a <= Max(u, v)
  }

  /** The first update after construction or reset returns its input unchanged. */
  lemma SmoothPassThrough(alpha: real, p: Point)
    ensures Smooth(alpha, None, p) == p
  {
  }

  /** Later updates move the stored value toward the input, shrinking the gap by `1 - alpha` per axis. */
  lemma BlendGap(alpha: real, prev: Point, p: Point)
    ensures Blend(alpha, prev, p).x - p.x == (1.0 - alpha) * (prev.x - p.x)
    ensures Blend(alpha, prev, p).y - p.y == (1.0 - alpha) * (prev.y - p.y)
  {
  }

  /** One axis of a blend: `alpha * v + (1 - alpha) * u` lies between `u` and `v`. */
  lemma MixBetween(alpha: real, u: real, v: real)
    requires 0.0 <= alpha <= 1.0
    ensures Between(alpha * v + (1.0 - alpha) * u, u, v)
  {
    if u <= v {
      ProductNonNegative(alpha, v - u);
      ProductNonNegative(1.0 - alpha, v - u);
    } else {
      ProductNonNegative(alpha, u - v);
      ProductNonNegative(1.0 - alpha, u - v);
    }
  }

  /** For `alpha` in [0, 1], each axis of the result lies between the stored value and the input. */
  lemma BlendBetween(alpha: real, prev: Point, p: Point)
    requires 0.0 <= alpha <= 1.0
    ensures Between(Blend(alpha, prev, p).x, prev.x, p.x)
    ensures Between(Blend(alpha, prev, p).y, prev.y, p.y)
  {
    MixBetween(alpha, prev.x, p.x);
    MixBetween(alpha, prev.y, p.y);
  }

  /** The stored value after `n` updates toward a constant `target`, starting from `start`. */
  function Approach(alpha: real, start: Point, target: Point, n: nat): Point
  {
    if n == 0 then start else Blend(alpha, Approach(alpha, start, target, n - 1), target)
  }

  function Pow(b: real, n: nat): real
  {
    if n == 0 then 1.0 else b * Pow(b, n - 1)
  }

  /** The gap `d` to the target after `n` updates that each scale it by `k`. */
  function Gap(k: real, d: real, n: nat): real
  {
    if n == 0 then d else k * Gap(k, d, n - 1)
  }

  lemma {:induction false} ApproachByGap(alpha: real, start: Point, target: Point, n: nat)
    ensures Approach(alpha, start, target, n).x - target.x == Gap(1.0 - alpha, start.x - target.x, n)
    ensures Approach(alpha, start, target, n).y - target.y == Gap(1.0 - alpha, start.y - target.y, n)
  {
    if n > 0 {
      ApproachByGap(alpha, start, target, n - 1);
      BlendGap(alpha, Approach(alpha, start, target, n - 1), target);
    }
  }

  lemma ScaleGap(k: real, gap: real, pw: real, d: real)
    requires gap == pw * d
    ensures k * gap == (k * pw) * d
  {
  }

  lemma {:induction false} GapPow(k: real, d: real, n: nat)
    ensures Gap(k, d, n) == Pow(k, n) * d
  {
    if n > 0 {
      GapPow(k, d, n - 1);
      ScaleGap(k, Gap(k, d, n - 1), Pow(k, n - 1), d);
    }
  }

  /** After `n` updates toward a constant target the gap is `(1 - alpha)^n` times the initial gap. */
  lemma {:induction false} ApproachGap(alpha: real, start: Point, target: Point, n: nat)
    ensures Approach(alpha, start, target, n).x - target.x == Pow(1.0 - alpha, n) * (start.x - target.x)
    ensures Approach(alpha, start, target, n).y - target.y == Pow(1.0 - alpha, n) * (start.y - target.y)
  {
    ApproachByGap(alpha, start, target, n);
    GapPow(1.0 - alpha, start.x - target.x, n);
    GapPow(1.0 - alpha, start.y - target.y, n);
  }

  lemma ShrinkAbs(k: real, d: real, kd: real)
    requires 0.0 <= k <= 1.0 && kd == k * d
    ensures Abs(kd) <= Abs(d)
  {
    if d >= 0.0 {
      ProductNonNegative(k, d);
      ProductNonNegative(1.0 - k, d);
    } else {
      ProductNonNegative(k, -d);
      ProductNonNegative(1.0 - k, -d);
    }
  }

  /** For `alpha` in [0, 1] the gap to a constant target never grows from one update to the next. */
  lemma ApproachMonotone(alpha: real, start: Point, target: Point, n: nat)
    requires 0.0 <= alpha <= 1.0
    ensures Abs(Approach(alpha, start, target, n + 1).x - target.x) <= Abs(Approach(alpha, start, target, n).x - target.x)
    ensures Abs(Approach(alpha, start, target, n + 1).y - target.y) <= Abs(Approach(alpha, start, target, n).y - target.y)
  {
    var prev := Approach(alpha, start, target, n);
    var next := Approach(alpha, start, target, n + 1);
    assert next == Blend(alpha, prev, target);
    BlendGap(alpha, prev, target);
    ShrinkAbs(1.0 - alpha, prev.x - target.x, next.x - target.x);
    ShrinkAbs(1.0 - alpha, prev.y - target.y, next.y - target.y);
  }

  lemma {:induction false} HalfPowBound(n: nat)
    requires n >= 7
    ensures 0.0 <= Pow(0.5, n) <= 1.0 / 128.0
  {
    if n == 7 {
      assert Pow(0.5, 7) == 0.5 * 0.5 * 0.5 * 0.5 * 0.5 * 0.5 * 0.5 * 1.0;
    } else {
      HalfPowBound(n - 1);
    }
  }

  /** With alpha 0.5, the gap from (0, 0) toward (1, 1) halves with every update. */
  lemma {:induction false} HalfGap(n: nat)
    ensures Approach(0.5, Point(0.0, 0.0), Point(1.0, 1.0), n).x - 1.0 == -Pow(0.5, n)
    ensures Approach(0.5, Point(0.0, 0.0), Point(1.0, 1.0), n).y - 1.0 == -Pow(0.5, n)
  {
    ApproachGap(0.5, Point(0.0, 0.0), Point(1.0, 1.0), n);
  }

  /**
   * With alpha 0.5, seven or more updates from (0, 0) toward (1, 1) land within 0.01
   * of the target; in particular twenty do.
   */
  lemma {:induction false} Convergence(n: nat)
    requires n >= 7
    ensures Abs(Approach(0.5, Point(0.0, 0.0), Point(1.0, 1.0), n).x - 1.0) <= 0.01
    ensures Abs(Approach(0.5, Point(0.0, 0.0), Point(1.0, 1.0), n).y - 1.0) <= 0.01
  {
    var r := Approach(0.5, Point(0.0, 0.0), Point(1.0, 1.0), n);
    var p := Pow(0.5, n);
    HalfGap(n);
    HalfPowBound(n);
    assert r.x - 1.0 == -p && r.y - 1.0 == -p;
  }

  class ExponentialMovingAverage {
    const alpha: real
    var value: Option<Point>

    constructor (alpha: real)
      ensures this.alpha == alpha && value == None
    {
      this.alpha := alpha;
      value := None;
    }

    /** Stores and returns the smoothed point; the first call after construction or reset passes `p` through. */
    method Update(p: Point) returns (r: Point)
      modifies this
      ensures r == Smooth(alpha, old(value), p)
      ensures value == Some(r)
    {
      if value.None? {
        value := Some(p);
      } else {
        value := Some(Point(alpha * p.x + (1.0 - alpha) * value.value.x,
                            alpha * p.y + (1.0 - alpha) * value.value.y));
      }
      r := value.value;
    }

    /** Forgets the stored value, so the next update passes its input through; `alpha` is a constant. */
    method Reset()
      modifies this
      ensures value == None
    {
      value := None;
    }
  }

  /** Alpha 0.3: updating with (0, 0) and then (1, 1) yields (0.3, 0.3). */
  method SmoothingScenario() returns (r: Point)
    ensures r == Point(0.3, 0.3)
  {
    var ema := new ExponentialMovingAverage(0.3);
    var first := ema.Update(Point(0.0, 0.0));
    r := ema.Update(Point(1.0, 1.0));
  }

  /**
   * Alpha 0.5: after seeding with (0, 0), any number of updates with (1, 1) from seven on
   * (twenty in the original scenario) lands within 0.01 of it.
   */
  method ConvergenceScenario(steps: nat) returns (r: Point)
    requires steps >= 7
    ensures Abs(r.x - 1.0) <= 0.01 && Abs(r.y - 1.0) <= 0.01
  {
    var ema := new ExponentialMovingAverage(0.5);
    r := ema.Update(Point(0.0, 0.0));
    var i := 0;
    while i < steps
      invariant 0 <= i <= steps
      invariant ema.alpha == 0.5
      invariant ema.value == Some(r)
      invariant r == Approach(0.5, Point(0.0, 0.0), Point(1.0, 1.0), i)
    {
      r := ema.Update(Point(1.0, 1.0));
      i := i + 1;
    }
    Convergence(i);
  }

  /** A reset makes the next update pass its input through again. */
  method ResetScenario() returns (r: Point)
    ensures r == Point(0.8, 0.8)
  {
    var ema := new ExponentialMovingAverage(0.3);
    var first := ema.Update(Point(0.5, 0.5));
    ema.Reset();
    r := ema.Update(Point(0.8, 0.8));
  }
}

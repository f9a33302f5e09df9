/**
 * The sequential part of the operating-system controller: the scroll-intent state
 * machine shared with the background scroll loop, the arithmetic of one loop
 * iteration, and the cursor move with its dead zone and pixel clamp. Calls into the
 * automation library become returned values: a `Pixel` for a cursor move, a `Tick`
 * for one scroll step, `spawned` for launching the loop.
 */
module Controller {
  import opened Common
  import opened Settings
  import opened Filters

  // ---------------------------------------------------------------- cursor

  /** A cursor target in screen pixels. */
  datatype Pixel = Pixel(x: int, y: int)

  /** Clamps a pixel coordinate to `[0, size - 1]`. */
  function ClampPixel(p: int, size: int): (r: int)
    ensures size >= 1 ==> 0 <= r <= size - 1
    ensures 0 <= p <= size - 1 ==> r == p
    ensures p < 0 ==> r == 0
    ensures size >= 1 && p > size - 1 ==> r == size - 1
  {
    if p < 0 then 0 else if p > size - 1 then (if size - 1 < 0 then 0 else size - 1) else p
  }

  /** A normalised coordinate scaled to a screen dimension, truncated toward zero, then clamped. */
  function ToPixel(v: real, size: int): (r: int)
    ensures size >= 1 ==> 0 <= r <= size - 1
  {
    ClampPixel(Trunc(v * size as real), size)
  }

  /** Inside the frame (`0 <= v < 1`) the clamp never bites: the pixel is `floor(v * size)`. */
  lemma ToPixelInside(v: real, size: int)
    requires 0.0 <= v < 1.0 && size >= 1
    ensures ToPixel(v, size) == (v * size as real).Floor
  {
    var s := size as real;
    ProductNonNegative(v, s);
    ProductNonNegative(1.0 - v, s - 1.0);
    assert v * s < s by {
      assert (1.0 - v) * s == (1.0 - v) * (s - 1.0) + (1.0 - v);
    }
  }

  /** Below the frame the cursor sticks to the first pixel, above it to the last. */
  lemma ToPixelOutside(v: real, size: int)
    requires size >= 1
    ensures v < 0.0 ==> ToPixel(v, size) == 0
    ensures v >= 1.0 ==> ToPixel(v, size) == size - 1
  {
    var s := size as real;
    if v < 0.0 {
      ProductNonNegative(-v, s);
    } else if v >= 1.0 {
      ProductNonNegative(v - 1.0, s);
      assert v * s >= s;
    }
  }

  /** The smoothed point moved less than the dead zone on both axes since the last issued move. */
  predicate InDeadZone(last: Option<Point>, p: Point, deadZone: real)
  {
    last.Some? && Abs(p.x - last.value.x) < deadZone && Abs(p.y - last.value.y) < deadZone
  }

  /** With no previous move, or with a non-positive dead zone, every move is issued. */
  lemma DeadZoneNeedsPreviousMove(last: Option<Point>, p: Point, deadZone: real)
    ensures last.None? ==> !InDeadZone(last, p, deadZone)
    ensures deadZone <= 0.0 ==> !InDeadZone(last, p, deadZone)
  {
  }

  // ---------------------------------------------------------------- scroll intent

  /** The state the scroll loop reads under the lock. */
  datatype ScrollIntent = ScrollIntent(active: bool, direction: Direction, velocity: real)

  /** Clamps a requested velocity to `[minimum velocity, 1]`. */
  function ClampVelocity(v: real, c: Config): (r: real)
    ensures c.scrollMinVelocity <= 1.0 ==> c.scrollMinVelocity <= r <= 1.0
    ensures c.scrollMinVelocity <= v <= 1.0 ==> r == v
    ensures v < c.scrollMinVelocity ==> r == c.scrollMinVelocity
    ensures c.scrollMinVelocity <= 1.0 && v > 1.0 ==> r == 1.0
  {
    Max(c.scrollMinVelocity, Min(1.0, v))
  }

  /**
   * `start_infinite_scroll`: from idle it turns scrolling on and takes the velocity
   * as given (the minimum when none is given); while active it retargets.
   */
  function Start(i: ScrollIntent, d: Direction, v: Option<real>, c: Config): ScrollIntent
  {
    if i.active then
      ScrollIntent(true, d, if v.Some? then ClampVelocity(v.value, c) else i.velocity)
    else
      ScrollIntent(true, d, if v.Some? then v.value else c.scrollMinVelocity)
  }

  /** `update_scroll_direction`: only while active, replaces the direction and the clamped velocity. */
  function Retarget(i: ScrollIntent, d: Direction, v: Option<real>, c: Config): ScrollIntent
  {
    if i.active then
      ScrollIntent(true, d, if v.Some? then ClampVelocity(v.value, c) else i.velocity)
    else
      i
  }

  /** `stop_infinite_scroll`: turns scrolling off and keeps direction and velocity. */
  function Stop(i: ScrollIntent): ScrollIntent
  {
    ScrollIntent(false, i.direction, i.velocity)
  }

  /** The velocity lies in the range the loop's arithmetic is designed for. */
  predicate VelocityInRange(i: ScrollIntent, c: Config)
  {
    c.scrollMinVelocity <= i.velocity <= 1.0
  }

  /** Starting from idle: on, with the direction and the velocity as given, or the minimum. */
  lemma StartFromIdle(i: ScrollIntent, d: Direction, v: Option<real>, c: Config)
    requires !i.active
    ensures var r := Start(i, d, v, c);
            r.active && r.direction == d
            && (v.Some? ==> r.velocity == v.value)
            && (v.None? ==> r.velocity == c.scrollMinVelocity)
  {
  }

  /**
   * An idle start does not clamp: a velocity above 1 is stored as given and only a
   * later retarget brings it back into range.
   */
  lemma IdleStartKeepsUnclampedVelocity(i: ScrollIntent, d: Direction, c: Config)
    requires !i.active && c.scrollMinVelocity <= 1.0
    ensures !VelocityInRange(Start(i, d, Some(2.0), c), c)
    ensures VelocityInRange(Retarget(Start(i, d, Some(2.0), c), d, Some(2.0), c), c)
  {
  }

  /** While active, a restart and a retarget are the same transition; while idle, a retarget does nothing. */
  lemma RetargetIsRestart(i: ScrollIntent, d: Direction, v: Option<real>, c: Config)
    ensures i.active ==> Retarget(i, d, v, c) == Start(i, d, v, c)
    ensures !i.active ==> Retarget(i, d, v, c) == i
  {
  }

  /** Every transition keeps the velocity in range, given that an idle start is handed an in-range velocity (or none). */
  lemma IntentKeepsVelocityInRange(i: ScrollIntent, d: Direction, v: Option<real>, c: Config)
    requires VelocityInRange(i, c)
    ensures VelocityInRange(Retarget(i, d, v, c), c)
    ensures VelocityInRange(Stop(i), c)
    ensures (i.active || v.None? || c.scrollMinVelocity <= v.value <= 1.0) ==> VelocityInRange(Start(i, d, v, c), c)
  {
  }

  /** Stopping is idempotent, and a stopped loop is restarted only by a start. */
  lemma StopIdempotent(i: ScrollIntent, d: Direction, v: Option<real>, c: Config)
    ensures Stop(Stop(i)) == Stop(i)
    ensures !Retarget(Stop(i), d, v, c).active
    ensures Start(Stop(i), d, v, c).active
  {
  }

  // ---------------------------------------------------------------- one loop iteration

  /** One scroll step: the signed wheel amount and the pause before the next step. */
  datatype Tick = Tick(scroll: int, interval: real)

  /** The amount before the upward boost: from the base amount at velocity 0 to the maximum at 1. */
  function BaseAmount(v: real, c: Config): real
  {
    c.scrollAmount + (c.scrollMaxAmount - c.scrollAmount) * v
  }

  /** The pause before the upward multiplier: from the base interval at velocity 0 to the minimum at 1. */
  function BaseInterval(v: real, c: Config): real
  {
    c.scrollInterval - (c.scrollInterval - c.scrollMinInterval) * v
  }

  function Amount(d: Direction, v: real, c: Config): real
  {
    if d == Up then BaseAmount(v, c) * c.scrollUpAmountBoost else BaseAmount(v, c)
  }

  function Interval(d: Direction, v: real, c: Config): real
  {
    if d == Up then BaseInterval(v, c) * c.scrollUpIntervalMultiplier else BaseInterval(v, c)
  }

  /** One iteration of the loop as read from the intent: nothing (and the loop exits) once scrolling is off. */
  function NextTickOf(i: ScrollIntent, c: Config): Option<Tick>
  {
    if !i.active then None
    else
      var amount := Amount(i.direction, i.velocity, c);
      Some(Tick(if i.direction == Up then Trunc(amount) else -Trunc(amount),
                Interval(i.direction, i.velocity, c)))
  }

  /** For a velocity in [0, 1] the amount and the pause stay between their base and extreme values. */
  lemma BaseTickBounds(v: real, c: Config)
    requires c.scrollAmount <= c.scrollMaxAmount && c.scrollMinInterval <= c.scrollInterval
    requires 0.0 <= v <= 1.0
    ensures c.scrollAmount <= BaseAmount(v, c) <= c.scrollMaxAmount
    ensures c.scrollMinInterval <= BaseInterval(v, c) <= c.scrollInterval
  {
    var da := c.scrollMaxAmount - c.scrollAmount;
    var di := c.scrollInterval - c.scrollMinInterval;
    ProductNonNegative(da, v);
    ProductNonNegative(da, 1.0 - v);
    ProductNonNegative(di, v);
    ProductNonNegative(di, 1.0 - v);
  }

  /** A higher velocity never scrolls less per step nor waits longer between steps. */
  lemma BaseTickMonotone(v1: real, v2: real, c: Config)
    requires c.scrollAmount <= c.scrollMaxAmount && c.scrollMinInterval <= c.scrollInterval
    requires v1 <= v2
    ensures BaseAmount(v1, c) <= BaseAmount(v2, c)
    ensures BaseInterval(v1, c) >= BaseInterval(v2, c)
  {
    ProductNonNegative(c.scrollMaxAmount - c.scrollAmount, v2 - v1);
    ProductNonNegative(c.scrollInterval - c.scrollMinInterval, v2 - v1);
  }

  /**
   * The sign of a step follows the direction: up scrolls by the truncated boosted
   * amount, down by minus the truncated amount, which is at most the maximum amount.
   */
  lemma TickSign(i: ScrollIntent, c: Config)
    requires i.active && TickAssumptions(c) && 0.0 <= i.velocity <= 1.0
    requires c.scrollUpAmountBoost >= 0.0
    ensures NextTickOf(i, c).Some?
    ensures i.direction == Up ==>
              NextTickOf(i, c).value.scroll == Trunc(BaseAmount(i.velocity, c) * c.scrollUpAmountBoost) >= 0
    ensures i.direction == Down ==>
              NextTickOf(i, c).value.scroll == -Trunc(BaseAmount(i.velocity, c))
              && -(c.scrollMaxAmount.Floor) <= NextTickOf(i, c).value.scroll <= 0
  {
    BaseTickBounds(i.velocity, c);
    ProductNonNegative(BaseAmount(i.velocity, c), c.scrollUpAmountBoost);
  }

  /** After a stop the loop's next read emits no step; after a start it emits one in the requested direction. */
  lemma TickFollowsIntent(i: ScrollIntent, d: Direction, v: Option<real>, c: Config)
    ensures NextTickOf(Stop(i), c).None?
    ensures var t := NextTickOf(Start(i, d, v, c), c);
            t.Some? && t.value.interval == Interval(d, Start(i, d, v, c).velocity, c)
  {
  }

  // ---------------------------------------------------------------- the object

  class OSController {
    const screenW: int
    const screenH: int
    const cfg: Config
    const cursorFilter: ExponentialMovingAverage
    var lastPos: Option<Point>
    var scrollActive: bool
    var scrollDirection: Direction
    var scrollVelocity: real

    function Intent(): ScrollIntent
      reads this
    {
      ScrollIntent(scrollActive, scrollDirection, scrollVelocity)
    }

    /** The next step the background loop would take now. */
    function NextTick(): Option<Tick>
      reads this
    {
      NextTickOf(Intent(), cfg)
    }

    /** Fresh filter, no previous move, scrolling off, direction down at the minimum velocity. */
    constructor (screenW: int, screenH: int, cfg: Config)
      ensures this.screenW == screenW && this.screenH == screenH && this.cfg == cfg
      ensures fresh(cursorFilter) && cursorFilter.alpha == cfg.emaAlpha && cursorFilter.value == None
      ensures lastPos == None
      ensures Intent() == ScrollIntent(false, Down, cfg.scrollMinVelocity)
    {
      this.screenW := screenW;
      this.screenH := screenH;
      this.cfg := cfg;
      cursorFilter := new ExponentialMovingAverage(cfg.emaAlpha);
      lastPos := None;
      scrollActive := false;
      scrollDirection := Down;
      scrollVelocity := cfg.scrollMinVelocity;
    }

    /**
     * Smooths the normalised point; a move inside the dead zone of the last issued
     * move is dropped, any other is recorded and issued in clamped screen pixels.
     */
    method MoveCursor(x: real, y: real) returns (cmd: Option<Pixel>)
      modifies this`lastPos, cursorFilter
      ensures var smoothed := Smooth(cursorFilter.alpha, old(cursorFilter.value), Point(x, y));
              cursorFilter.value == Some(smoothed)
              && (InDeadZone(old(lastPos), smoothed, cfg.deadZone) ==> cmd == None && lastPos == old(lastPos))
              && (!InDeadZone(old(lastPos), smoothed, cfg.deadZone) ==>
                    lastPos == Some(smoothed)
                    && cmd == Some(Pixel(ToPixel(smoothed.x, screenW), ToPixel(smoothed.y, screenH))))
      ensures screenW >= 1 && screenH >= 1 && cmd.Some? ==>
                0 <= cmd.value.x <= screenW - 1 && 0 <= cmd.value.y <= screenH - 1
    {
      var smoothed := cursorFilter.Update(Point(x, y));

      if lastPos.Some? {
        var dx := Abs(smoothed.x - lastPos.value.x);
        var dy := Abs(smoothed.y - lastPos.value.y);
        if dx < cfg.deadZone && dy < cfg.deadZone {
          return None;
        }
      }

      lastPos := Some(smoothed);

      cmd := Some(Pixel(ToPixel(smoothed.x, screenW), ToPixel(smoothed.y, screenH)));
    }

    /** Starts scrolling, or retargets a running scroll; `spawned` tells whether a new loop is launched. */
    method StartInfiniteScroll(direction: Direction, velocity: Option<real>) returns (spawned: bool)
      modifies this`scrollActive, this`scrollDirection, this`scrollVelocity
      ensures spawned == !old(scrollActive)
      ensures Intent() == Start(old(Intent()), direction, velocity, cfg)
    {
      if scrollActive {
        scrollDirection := direction;
        if velocity.Some? {
          scrollVelocity := Max(cfg.scrollMinVelocity, Min(1.0, velocity.value));
        }
        return false;
      }

      scrollActive := true;
      scrollDirection := direction;
      scrollVelocity := if velocity.Some? then velocity.value else cfg.scrollMinVelocity;
      spawned := true;
    }

    /** Retargets a running scroll; does nothing while idle. */
    method UpdateScrollDirection(direction: Direction, velocity: Option<real>)
      modifies this`scrollDirection, this`scrollVelocity
      ensures Intent() == Retarget(old(Intent()), direction, velocity, cfg)
    {
      if scrollActive {
        scrollDirection := direction;
        if velocity.Some? {
          scrollVelocity := Max(cfg.scrollMinVelocity, Min(1.0, velocity.value));
        }
      }
    }

    /** Turns scrolling off; the loop emits no further step. */
    method StopInfiniteScroll()
      modifies this`scrollActive
      ensures Intent() == Stop(old(Intent()))
      ensures NextTick().None?
    {
      scrollActive := false;
    }

    /** Clears the cursor filter and the last move, and stops scrolling. */
    method Reset()
      modifies this`lastPos, this`scrollActive, cursorFilter
      ensures cursorFilter.value == None && lastPos == None
      ensures Intent() == Stop(old(Intent()))
      ensures NextTick().None?
    {
      cursorFilter.Reset();
      lastPos := None;
      StopInfiniteScroll();
    }
  }
}

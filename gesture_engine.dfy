/**
 * The gesture classifier. Each update turns one frame of hand landmarks into an
 * ordered list of actions (pointer move, click, swipe, scroll start/update/stop),
 * keeping a bounded history of fingertip samples, a bounded scroll window, the
 * time of the last click and a scroll-active flag.
 *
 * The clock is an explicit `now` argument, one per update; none of the
 * properties below needs it to be non-decreasing across calls.
 */
module Gestures {
  import opened Common
  import opened Settings

  /** Capacity of the fingertip history. */
  const HISTORY_CAPACITY: nat := 10
  /** Capacity of the scroll window. */
  const SCROLL_WINDOW_CAPACITY: nat := 5
  /** Lower edge of the "scroll down" zone, a literal in the classifier rather than a setting. */
  const SCROLL_DOWN_ZONE: real := 0.6

  datatype Landmark = Landmark(x: real, y: real)

  /** The five keypoints the classifier reads: ids 8, 4, 12, 6 and 10 of the 21-point hand model. */
  datatype Frame = Frame(indexTip: Landmark, thumbTip: Landmark, middleTip: Landmark,
                         indexPip: Landmark, middlePip: Landmark)

  datatype Action =
    | Move(x: real, y: real)
    | Click
    | SwipeRight
    | SwipeLeft
    | StartScroll(direction: Direction, velocity: real)
    | UpdateScroll(direction: Direction, velocity: real)
    | StopScroll

  predicate IsScrollAction(a: Action)
  {
    a.StartScroll? || a.UpdateScroll? || a.StopScroll?
  }

  /** A fingertip sample of the history: position and time. */
  datatype Sample = Sample(x: real, y: real, t: real)

  /** A sample of the scroll window: the mean height of the two fingertips and the time. */
  datatype ScrollSample = ScrollSample(avgY: real, t: real)

  /** What the scroll estimator returns: a direction and a normalised velocity. */
  datatype ScrollInfo = ScrollInfo(direction: Direction, velocity: real)

  /** The scroll-gesture detector's signal. */
  datatype ScrollSignal = StartCandidate | StopCandidate

  function AsSeq<T>(o: Option<T>): seq<T>
  {
    match o
    case None => []
    case Some(v) => [v]
  }

  /**
   * Appending to a bounded deque: the new element goes last and, when the deque
   * is full, the oldest one is evicted.
   */
  function Push<T>(w: seq<T>, x: T, cap: nat): (r: seq<T>)
    requires cap > 0
    ensures |r| == if |w| < cap then |w| + 1 else cap
  {
    var all := w + [x];
    if |all| <= cap then all else all[|all| - cap..]
  }

  /** `Push` puts `x` last and keeps the newest older entries, in order, in front of it. */
  lemma PushContents<T>(w: seq<T>, x: T, cap: nat)
    requires cap > 0
    ensures var r := Push(w, x, cap);
            r[|r| - 1] == x && r[..|r| - 1] == w[|w| - (|r| - 1)..]
  {
  }

  // ---------------------------------------------------------------- click

  /** Manhattan distance between the index and thumb fingertips. */
  function PinchDistance(f: Frame): real
  {
    Abs(f.indexTip.x - f.thumbTip.x) + Abs(f.indexTip.y - f.thumbTip.y)
  }

  /** A click is due when the fingers pinch and the cooldown since the last click has elapsed. */
  predicate ClickDue(f: Frame, now: real, lastClick: real, c: Config)
  {
    PinchDistance(f) < c.pinchThreshold && now - lastClick > c.clickCooldown
  }

  // ---------------------------------------------------------------- swipe

  /**
   * Horizontal swipe, measured from the OLDEST retained sample to the current
   * index fingertip `x` at time `now`.
   */
  function DetectSwipe(history: seq<Sample>, x: real, now: real, c: Config): (r: Option<Action>)
    ensures |history| < 3 ==> r == None
    ensures |history| >= 3 && now == history[0].t ==> r == None
    ensures |history| >= 3 && now != history[0].t ==>
              var dx := x - history[0].x;
              var dt := now - history[0].t;
              (r.Some? <==> Abs(dx) > c.swipeThreshold && Abs(dx) / dt > c.swipeVelocityThreshold)
              && (r.Some? ==> r == if dx > 0.0 then Some(SwipeRight) else Some(SwipeLeft))
  {
    if |history| < 3 then None
    else
      var dx := x - history[0].x;
      var dt := now - history[0].t;
      if dt == 0.0 then None
      else
        var velocity := Abs(dx) / dt;
        if Abs(dx) > c.swipeThreshold && velocity > c.swipeVelocityThreshold then
          (if dx > 0.0 then Some(SwipeRight) else Some(SwipeLeft))
        else None
  }

  // ---------------------------------------------------------------- scroll gesture

  /**
   * Index and middle fingers extended (each tip above its proximal joint; image y
   * grows downward) and close together.
   */
  predicate TwoFingerPose(f: Frame, c: Config)
  {
    f.indexTip.y < f.indexPip.y
    && f.middleTip.y < f.middlePip.y
    && Abs(f.indexTip.x - f.middleTip.x) + Abs(f.indexTip.y - f.middleTip.y) < c.scrollGestureThreshold
  }

  /** The pose signals a start; losing it while scrolling signals a stop; otherwise no signal. */
  function DetectScrollGesture(f: Frame, active: bool, c: Config): (r: Option<ScrollSignal>)
    ensures r == Some(StartCandidate) <==> TwoFingerPose(f, c)
    ensures r == Some(StopCandidate) <==> !TwoFingerPose(f, c) && active
  {
    if TwoFingerPose(f, c) then Some(StartCandidate)
    else if active then Some(StopCandidate)
    else None
  }

  // ---------------------------------------------------------------- scroll velocity

  function AverageY(f: Frame): real
  {
    (f.indexTip.y + f.middleTip.y) / 2.0
  }

  /** The zone rule: high on the frame scrolls up at the base speed, low scrolls down at the minimum. */
  function ZoneFallback(avgY: real, c: Config): Option<ScrollInfo>
  {
    if avgY < c.scrollUpZone then Some(ScrollInfo(Up, c.scrollUpBaseVelocity))
    else if avgY > SCROLL_DOWN_ZONE then Some(ScrollInfo(Down, c.scrollMinVelocity))
    else None
  }

  /** Maps a raw vertical speed onto [minimum velocity, 1]. */
  function NormalizeVelocity(v: real, c: Config): (r: real)
    ensures VelocityAssumptions(c) ==> c.scrollMinVelocity <= r <= 1.0
  {
    if v >= c.scrollMaxVelocityThreshold then 1.0
    else if v <= 0.0 then c.scrollMinVelocity
    else
      var q := v / c.scrollMaxVelocityThreshold;
      assert VelocityAssumptions(c) ==> 0.0 < q < 1.0 && q * (1.0 - c.scrollMinVelocity) <= 1.0 - c.scrollMinVelocity by {
        if VelocityAssumptions(c) {
          ProductNonNegative(1.0 - q, 1.0 - c.scrollMinVelocity);
          ProductNonNegative(q, 1.0 - c.scrollMinVelocity);
        }
      }
      c.scrollMinVelocity + q * (1.0 - c.scrollMinVelocity)
  }

  /** Upward scrolling boosts the normalised velocity, capped at 1. */
  function BoostUp(normalized: real, c: Config): real
  {
    Min(1.0, normalized * c.scrollUpVelocityBoost)
  }

  /** The threshold an upward movement must exceed. */
  function UpThreshold(c: Config): real
  {
    c.scrollDirectionThreshold * c.scrollUpThresholdMultiplier
  }

  /**
   * The direction test as the classifier writes it: for an upward movement the
   * displacement is compared with the up threshold; for any other movement only
   * the truth value of the direction threshold (non-zero) is tested.
   */
  predicate DirectionTest(dy: real, c: Config)
  {
    if dy < 0.0 then Abs(dy) > UpThreshold(c) else c.scrollDirectionThreshold != 0.0
  }

  /**
   * The scroll estimate from the scroll window `w` AFTER the current sample
   * `(avgY, now)` has been appended to it.
   */
  function ScrollEstimate(w: seq<ScrollSample>, avgY: real, now: real, c: Config): Option<ScrollInfo>
  {
    if |w| < 2 then ZoneFallback(avgY, c)
    else
      var dy := avgY - w[0].avgY;
      var dt := now - w[0].t;
      if dt == 0.0 then None
      else
        var normalized := NormalizeVelocity(Abs(dy) / dt, c);
        if DirectionTest(dy, c) then
          if dy < 0.0 then Some(ScrollInfo(Up, BoostUp(normalized, c)))
          else Some(ScrollInfo(Down, normalized))
        else ZoneFallback(avgY, c)
  }

  /** Two samples with the same time give no estimate rather than a division by zero. */
  lemma EstimateSameTime(w: seq<ScrollSample>, avgY: real, now: real, c: Config)
    requires |w| >= 2 && now == w[0].t
    ensures ScrollEstimate(w, avgY, now, c) == None
  {
  }

  /** Upward movement past the up threshold: direction up, boosted velocity capped at 1, within [minimum, 1]. */
  lemma EstimateUp(w: seq<ScrollSample>, avgY: real, now: real, c: Config)
    requires |w| >= 2 && now != w[0].t
    requires avgY < w[0].avgY && w[0].avgY - avgY > UpThreshold(c)
    ensures var normalized := NormalizeVelocity((w[0].avgY - avgY) / (now - w[0].t), c);
            ScrollEstimate(w, avgY, now, c) == Some(ScrollInfo(Up, BoostUp(normalized, c)))
    ensures VelocityAssumptions(c) ==>
              var v := ScrollEstimate(w, avgY, now, c).value.velocity;
              c.scrollMinVelocity <= v <= 1.0
  {
    var normalized := NormalizeVelocity((w[0].avgY - avgY) / (now - w[0].t), c);
    assert Abs(avgY - w[0].avgY) == w[0].avgY - avgY;
    if VelocityAssumptions(c) {
      ProductNonNegative(normalized, c.scrollUpVelocityBoost - 1.0);
    }
  }

  /**
   * With a non-zero direction threshold, any movement that is not upward (even
   * none at all) yields "down" at the normalised velocity, without a magnitude test.
   */
  lemma EstimateDown(w: seq<ScrollSample>, avgY: real, now: real, c: Config)
    requires |w| >= 2 && now != w[0].t
    requires avgY >= w[0].avgY && c.scrollDirectionThreshold != 0.0
    ensures ScrollEstimate(w, avgY, now, c)
            == Some(ScrollInfo(Down, NormalizeVelocity((avgY - w[0].avgY) / (now - w[0].t), c)))
  {
  }

  /**
   * The zone rule is reached on the first sample, or when an upward movement stays
   * within the up threshold, or when the direction threshold is zero and the
   * movement is not upward.
   */
  lemma EstimateFallback(w: seq<ScrollSample>, avgY: real, now: real, c: Config)
    requires |w| < 2
             || (now != w[0].t && avgY < w[0].avgY && w[0].avgY - avgY <= UpThreshold(c))
             || (now != w[0].t && avgY >= w[0].avgY && c.scrollDirectionThreshold == 0.0)
    ensures ScrollEstimate(w, avgY, now, c) == ZoneFallback(avgY, c)
  {
  }

  /**
   * Every estimate's velocity lies in [minimum, 1], given that the up-zone base
   * velocity does too.
   */
  lemma EstimateInRange(w: seq<ScrollSample>, avgY: real, now: real, c: Config)
    requires IntentAssumptions(c)
    ensures ScrollEstimate(w, avgY, now, c).Some? ==>
              c.scrollMinVelocity <= ScrollEstimate(w, avgY, now, c).value.velocity <= 1.0
  {
    if |w| >= 2 && now != w[0].t && avgY < w[0].avgY && w[0].avgY - avgY > UpThreshold(c) {
      EstimateUp(w, avgY, now, c);
    }
  }

  /**
   * A consequence of the direction test: fingers held still in the up zone, after
   * the first sample, scroll DOWN at the minimum velocity, not up.
   */
  lemma StillInUpZoneScrollsDown(w: seq<ScrollSample>, avgY: real, now: real, c: Config)
    requires |w| >= 2 && now > w[0].t && w[0].avgY == avgY
    requires avgY < c.scrollUpZone
    requires c.scrollDirectionThreshold != 0.0 && c.scrollMaxVelocityThreshold > 0.0
    ensures ZoneFallback(avgY, c) == Some(ScrollInfo(Up, c.scrollUpBaseVelocity))
    ensures ScrollEstimate(w, avgY, now, c) == Some(ScrollInfo(Down, c.scrollMinVelocity))
  {
    assert Abs(avgY - w[0].avgY) / (now - w[0].t) == 0.0;
  }

  // ---------------------------------------------------------------- one update

  /** The classifier's state. */
  datatype EngineState = EngineState(history: seq<Sample>, scrollHistory: seq<ScrollSample>,
                                     lastClick: real, scrollActive: bool)

  /** The state after construction or reset. */
  const Initial: EngineState := EngineState([], [], 0.0, false)

  predicate WindowsBounded(s: EngineState)
  {
    |s.history| <= HISTORY_CAPACITY && |s.scrollHistory| <= SCROLL_WINDOW_CAPACITY
  }

  datatype ScrollOutcome = ScrollOutcome(scrollHistory: seq<ScrollSample>, active: bool, action: Option<Action>)

  /** The scroll window after the current sample is appended to `window`. */
  function WindowAfter(window: seq<ScrollSample>, f: Frame, now: real): seq<ScrollSample>
  {
    Push(window, ScrollSample(AverageY(f), now), SCROLL_WINDOW_CAPACITY)
  }

  /** The scroll part of an update: new scroll window, new flag and at most one scroll action. */
  function ScrollTransition(active: bool, window: seq<ScrollSample>, f: Frame, now: real, c: Config): ScrollOutcome
  {
    var signal := DetectScrollGesture(f, active, c);
    var w := WindowAfter(window, f, now);
    if signal == Some(StartCandidate) && !active then
      match ScrollEstimate(w, AverageY(f), now, c)
      case Some(info) => ScrollOutcome(w, true, Some(StartScroll(info.direction, info.velocity)))
      case None => ScrollOutcome(w, false, None)
    else if signal == Some(StopCandidate) && active then
      ScrollOutcome([], false, Some(StopScroll))
    else if signal.Some? && active then
      match ScrollEstimate(w, AverageY(f), now, c)
      case Some(info) => ScrollOutcome(w, true, Some(UpdateScroll(info.direction, info.velocity)))
      case None => ScrollOutcome(w, true, None)
    else
      ScrollOutcome(window, active, None)
  }

  datatype StepResult = StepResult(state: EngineState, actions: seq<Action>)

  /** The actions before the scroll part: move, then click, then swipe. */
  function PointerActions(s: EngineState, f: Frame, now: real, c: Config): seq<Action>
  {
    [Move(f.indexTip.x, f.indexTip.y)]
    + (if ClickDue(f, now, s.lastClick, c) then [Click] else [])
    + AsSeq(DetectSwipe(s.history, f.indexTip.x, now, c))
  }

  /** One update: the new state and the ordered actions it emits. */
  function Step(s: EngineState, f: Frame, now: real, c: Config): StepResult
  {
    var scroll := ScrollTransition(s.scrollActive, s.scrollHistory, f, now, c);
    StepResult(
      EngineState(Push(s.history, Sample(f.indexTip.x, f.indexTip.y, now), HISTORY_CAPACITY),
                  scroll.scrollHistory,
                  if ClickDue(f, now, s.lastClick, c) then now else s.lastClick,
                  scroll.active),
      PointerActions(s, f, now, c) + AsSeq(scroll.action))
  }

  /** What the pointer part holds: the move first, then only a click and swipes. */
  lemma PointerShape(s: EngineState, f: Frame, now: real, c: Config)
    ensures var p := PointerActions(s, f, now, c);
            var swipe := DetectSwipe(s.history, f.indexTip.x, now, c);
            |p| >= 1 && p[0] == Move(f.indexTip.x, f.indexTip.y)
            && (forall i :: 0 < i < |p| ==> p[i] == Click || p[i] == SwipeRight || p[i] == SwipeLeft)
            && (Click in p <==> ClickDue(f, now, s.lastClick, c))
            && (forall i, j :: 0 <= i < j < |p| ==> !(p[i] == Click && p[j] == Click))
            && (SwipeRight in p <==> swipe == Some(SwipeRight))
            && (SwipeLeft in p <==> swipe == Some(SwipeLeft))
  {
    var swipe := DetectSwipe(s.history, f.indexTip.x, now, c);
    var move := Move(f.indexTip.x, f.indexTip.y);
    var p := PointerActions(s, f, now, c);
    if ClickDue(f, now, s.lastClick, c) {
      assert p == [move, Click] + AsSeq(swipe);
    } else {
      assert p == [move] + AsSeq(swipe);
    }
  }

  /**
   * The scroll part of an update, from flag `wasActive` and pose `pose`, is
   * edge-triggered: a start exactly when it turns scrolling on (and only with the
   * pose), a stop exactly when it turns scrolling off (only without the pose, and
   * emptying the window), an update only while scrolling stays on with the pose.
   */
  predicate EdgeTriggered(wasActive: bool, pose: bool, o: ScrollOutcome)
  {
    (o.action.Some? ==> IsScrollAction(o.action.value))
    && ((o.action.Some? && o.action.value.StartScroll?) <==> !wasActive && o.active)
    && (o.action == Some(StopScroll) <==> wasActive && !o.active)
    && (o.action.Some? && o.action.value.StartScroll? ==> pose)
    && (o.action == Some(StopScroll) ==> o.scrollHistory == [] && !pose)
    && (o.action.Some? && o.action.value.UpdateScroll? ==> wasActive && o.active && pose)
  }

  lemma ScrollTransitionEdges(s: EngineState, f: Frame, now: real, c: Config)
    ensures EdgeTriggered(s.scrollActive, TwoFingerPose(f, c), ScrollTransition(s.scrollActive, s.scrollHistory, f, now, c))
    ensures |s.scrollHistory| <= SCROLL_WINDOW_CAPACITY ==>
              |ScrollTransition(s.scrollActive, s.scrollHistory, f, now, c).scrollHistory| <= SCROLL_WINDOW_CAPACITY
  {
  }

  /** Losing the pose while scrolling always stops: flag off, window emptied, a stop emitted. */
  lemma ScrollTransitionStops(active: bool, window: seq<ScrollSample>, f: Frame, now: real, c: Config)
    requires active && !TwoFingerPose(f, c)
    ensures ScrollTransition(active, window, f, now, c) == ScrollOutcome([], false, Some(StopScroll))
  {
  }

  /**
   * The pose while idle: the window gains the sample; with an estimate scrolling
   * starts and carries it, without one nothing is emitted and scrolling stays off.
   */
  lemma ScrollTransitionStarts(active: bool, window: seq<ScrollSample>, f: Frame, now: real, c: Config)
    requires !active && TwoFingerPose(f, c)
    ensures var w := WindowAfter(window, f, now);
            var e := ScrollEstimate(w, AverageY(f), now, c);
            var o := ScrollTransition(active, window, f, now, c);
            o.scrollHistory == w
            && (e.Some? ==> o.active && o.action == Some(StartScroll(e.value.direction, e.value.velocity)))
            && (e.None? ==> !o.active && o.action == None)
  {
  }

  /**
   * The pose while scrolling: the window gains the sample, scrolling stays on, and
   * an update carrying the estimate is emitted exactly when there is one.
   */
  lemma ScrollTransitionUpdates(active: bool, window: seq<ScrollSample>, f: Frame, now: real, c: Config)
    requires active && TwoFingerPose(f, c)
    ensures var w := WindowAfter(window, f, now);
            var e := ScrollEstimate(w, AverageY(f), now, c);
            var o := ScrollTransition(active, window, f, now, c);
            o.scrollHistory == w && o.active
            && o.action == (if e.Some? then Some(UpdateScroll(e.value.direction, e.value.velocity)) else None)
  {
  }

  /** No pose while idle: nothing changes and nothing is emitted. */
  lemma ScrollTransitionIdle(active: bool, window: seq<ScrollSample>, f: Frame, now: real, c: Config)
    requires !active && !TwoFingerPose(f, c)
    ensures ScrollTransition(active, window, f, now, c) == ScrollOutcome(window, false, None)
  {
  }

  /** Under the settings' assumptions, the scroll part's start or update carries a velocity in [minimum, 1]. */
  lemma ScrollTransitionInRange(s: EngineState, f: Frame, now: real, c: Config)
    requires IntentAssumptions(c)
    ensures var o := ScrollTransition(s.scrollActive, s.scrollHistory, f, now, c);
            o.action.Some? && (o.action.value.StartScroll? || o.action.value.UpdateScroll?) ==>
              c.scrollMinVelocity <= o.action.value.velocity <= 1.0
  {
    EstimateInRange(WindowAfter(s.scrollHistory, f, now), AverageY(f), now, c);
  }

  /**
   * The actions of one update, seen from their scroll part: none but the last is a
   * scroll action, and starts, stops and updates obey the edge rules.
   */
  predicate ScrollEdgesHold(wasActive: bool, pose: bool, acts: seq<Action>, active: bool, window: seq<ScrollSample>)
  {
    |acts| >= 1
    && (forall i :: 0 <= i < |acts| - 1 ==> !IsScrollAction(acts[i]))
    && (forall i :: 0 <= i < |acts| && acts[i].StartScroll? ==> !wasActive && active && pose)
    && (forall i :: 0 <= i < |acts| && acts[i].StopScroll? ==> wasActive && !active && window == [] && !pose)
    && (forall i :: 0 <= i < |acts| && acts[i].UpdateScroll? ==> wasActive && active && pose)
    && (!wasActive && active ==> acts[|acts| - 1].StartScroll?)
    && (wasActive && !active ==> acts[|acts| - 1] == StopScroll)
  }

  lemma ScrollEdgesOf(p: seq<Action>, wasActive: bool, pose: bool, o: ScrollOutcome)
    requires |p| >= 1 && forall i :: 0 <= i < |p| ==> !IsScrollAction(p[i])
    requires EdgeTriggered(wasActive, pose, o)
    ensures ScrollEdgesHold(wasActive, pose, p + AsSeq(o.action), o.active, o.scrollHistory)
  {
    var a := p + AsSeq(o.action);
    forall i | 0 <= i < |a| && IsScrollAction(a[i])
      ensures o.action.Some? && i == |a| - 1 && a[i] == o.action.value
    {
    }
  }

  lemma VelocityOf(p: seq<Action>, x: Option<Action>, lo: real)
    requires forall i :: 0 <= i < |p| ==> !IsScrollAction(p[i])
    requires x.Some? && (x.value.StartScroll? || x.value.UpdateScroll?) ==> lo <= x.value.velocity <= 1.0
    ensures var a := p + AsSeq(x);
            forall i :: 0 <= i < |a| && (a[i].StartScroll? || a[i].UpdateScroll?) ==> lo <= a[i].velocity <= 1.0
  {
  }

  lemma MoveFirstOf(p: seq<Action>, x: Option<Action>)
    requires |p| >= 1 && p[0].Move? && forall i :: 0 < i < |p| ==> !p[i].Move?
    requires x.Some? ==> !x.value.Move?
    ensures var a := p + AsSeq(x);
            |a| >= 1 && a[0] == p[0] && forall i :: 0 < i < |a| ==> !a[i].Move?
  {
  }

  /** Every update emits exactly one move, first, carrying the raw index-fingertip position. */
  lemma StepMoveFirst(s: EngineState, f: Frame, now: real, c: Config)
    ensures var acts := Step(s, f, now, c).actions;
            |acts| >= 1 && acts[0] == Move(f.indexTip.x, f.indexTip.y)
            && forall i :: 0 < i < |acts| ==> !acts[i].Move?
  {
    var p := PointerActions(s, f, now, c);
    var o := ScrollTransition(s.scrollActive, s.scrollHistory, f, now, c);
    PointerShape(s, f, now, c);
    ScrollTransitionEdges(s, f, now, c);
    MoveFirstOf(p, o.action);
  }

  /**
   * A click is emitted (at most once) exactly when the pinch is closer than the
   * threshold and the cooldown has elapsed; it records `now`, otherwise the last
   * click time is kept.
   */
  lemma StepClick(s: EngineState, f: Frame, now: real, c: Config)
    ensures var r := Step(s, f, now, c);
            (Click in r.actions <==> ClickDue(f, now, s.lastClick, c))
            && r.state.lastClick == (if ClickDue(f, now, s.lastClick, c) then now else s.lastClick)
            && forall i, j :: 0 <= i < j < |r.actions| ==> !(r.actions[i] == Click && r.actions[j] == Click)
  {
    var p := PointerActions(s, f, now, c);
    var o := ScrollTransition(s.scrollActive, s.scrollHistory, f, now, c);
    PointerShape(s, f, now, c);
    ScrollTransitionEdges(s, f, now, c);
    assert Step(s, f, now, c).actions == p + AsSeq(o.action);
  }

  /** A swipe action appears exactly when the swipe detector reports it. */
  lemma StepSwipe(s: EngineState, f: Frame, now: real, c: Config)
    ensures var acts := Step(s, f, now, c).actions;
            var swipe := DetectSwipe(s.history, f.indexTip.x, now, c);
            (SwipeRight in acts <==> swipe == Some(SwipeRight))
            && (SwipeLeft in acts <==> swipe == Some(SwipeLeft))
  {
    var p := PointerActions(s, f, now, c);
    var o := ScrollTransition(s.scrollActive, s.scrollHistory, f, now, c);
    PointerShape(s, f, now, c);
    ScrollTransitionEdges(s, f, now, c);
    assert Step(s, f, now, c).actions == p + AsSeq(o.action);
  }

  /**
   * The history gains the current sample last, keeps its older entries in order
   * and holds at most 10 entries.
   */
  lemma StepHistory(s: EngineState, f: Frame, now: real, c: Config)
    ensures var h := Step(s, f, now, c).state.history;
            |h| == (if |s.history| < HISTORY_CAPACITY then |s.history| + 1 else HISTORY_CAPACITY)
            && h[|h| - 1] == Sample(f.indexTip.x, f.indexTip.y, now)
            && h[..|h| - 1] == s.history[|s.history| - (|h| - 1)..]
  {
    PushContents(s.history, Sample(f.indexTip.x, f.indexTip.y, now), HISTORY_CAPACITY);
  }

  /** Neither window ever exceeds its capacity. */
  lemma StepWindowsBounded(s: EngineState, f: Frame, now: real, c: Config)
    requires WindowsBounded(s)
    ensures WindowsBounded(Step(s, f, now, c).state)
  {
    ScrollTransitionEdges(s, f, now, c);
  }

  /**
   * A fired swipe does not reseed the history: while the history is not full, the
   * next swipe test compares against the same oldest sample, so one sustained
   * motion can swipe on consecutive updates.
   */
  lemma SwipeKeepsOldestSample(s: EngineState, f: Frame, now: real, c: Config)
    requires 3 <= |s.history| < HISTORY_CAPACITY
    ensures Step(s, f, now, c).state.history[0] == s.history[0]
  {
    var h := Step(s, f, now, c).state.history;
    assert h == s.history + [Sample(f.indexTip.x, f.indexTip.y, now)];
  }

  /**
   * Scroll transitions are edge-triggered and an update emits at most one scroll
   * action, the last one:
   *  - a start only from inactive, with the pose, and it activates;
   *  - a stop only from active, without the pose, and it deactivates and empties the window;
   *  - an update only while active and the pose still holds;
   *  - the flag changes only together with a start or a stop.
   */
  lemma StepScrollEdges(s: EngineState, f: Frame, now: real, c: Config)
    ensures var r := Step(s, f, now, c);
            ScrollEdgesHold(s.scrollActive, TwoFingerPose(f, c), r.actions, r.state.scrollActive, r.state.scrollHistory)
  {
    var p := PointerActions(s, f, now, c);
    PointerShape(s, f, now, c);
    ScrollTransitionEdges(s, f, now, c);
    ScrollEdgesOf(p, s.scrollActive, TwoFingerPose(f, c), ScrollTransition(s.scrollActive, s.scrollHistory, f, now, c));
  }

  /** The scroll outcome decides the new flag and window, and the scroll action is the last action, if any. */
  predicate ScrollPartOf(acts: seq<Action>, active: bool, window: seq<ScrollSample>, o: ScrollOutcome)
  {
    active == o.active && window == o.scrollHistory && |acts| >= 1
    && (o.action.Some? ==> acts[|acts| - 1] == o.action.value)
    && (o.action.None? ==> forall i :: 0 <= i < |acts| ==> !IsScrollAction(acts[i]))
  }

  lemma ScrollPartAppended(p: seq<Action>, o: ScrollOutcome)
    requires |p| >= 1 && forall i :: 0 <= i < |p| ==> !IsScrollAction(p[i])
    ensures ScrollPartOf(p + AsSeq(o.action), o.active, o.scrollHistory, o)
  {
  }

  /** An update's flag, window and scroll action are exactly those of its scroll part. */
  lemma StepScrollPart(s: EngineState, f: Frame, now: real, c: Config)
    ensures var r := Step(s, f, now, c);
            ScrollPartOf(r.actions, r.state.scrollActive, r.state.scrollHistory,
                         ScrollTransition(s.scrollActive, s.scrollHistory, f, now, c))
  {
    PointerShape(s, f, now, c);
    ScrollPartAppended(PointerActions(s, f, now, c), ScrollTransition(s.scrollActive, s.scrollHistory, f, now, c));
  }

  /** Losing the pose while scrolling: the update ends with a stop, turns scrolling off and empties the window. */
  lemma StepStopsOnLostPose(s: EngineState, f: Frame, now: real, c: Config)
    requires s.scrollActive && !TwoFingerPose(f, c)
    ensures var r := Step(s, f, now, c);
            r.actions[|r.actions| - 1] == StopScroll && !r.state.scrollActive && r.state.scrollHistory == []
  {
    StepScrollPart(s, f, now, c);
    ScrollTransitionStops(s.scrollActive, s.scrollHistory, f, now, c);
  }

  /** The pose while idle: the update ends with a start carrying the estimate, or emits no scroll action and stays idle. */
  lemma StepStartCarriesEstimate(s: EngineState, f: Frame, now: real, c: Config)
    requires !s.scrollActive && TwoFingerPose(f, c)
    ensures var r := Step(s, f, now, c);
            var w := WindowAfter(s.scrollHistory, f, now);
            var e := ScrollEstimate(w, AverageY(f), now, c);
            r.state.scrollHistory == w
            && (e.Some? ==> r.state.scrollActive
                            && r.actions[|r.actions| - 1] == StartScroll(e.value.direction, e.value.velocity))
            && (e.None? ==> !r.state.scrollActive
                            && forall i :: 0 <= i < |r.actions| ==> !IsScrollAction(r.actions[i]))
  {
    StepScrollPart(s, f, now, c);
    ScrollTransitionStarts(s.scrollActive, s.scrollHistory, f, now, c);
  }

  /** The pose while scrolling: the update keeps scrolling on and ends with an update carrying the estimate, if any. */
  lemma StepUpdateCarriesEstimate(s: EngineState, f: Frame, now: real, c: Config)
    requires s.scrollActive && TwoFingerPose(f, c)
    ensures var r := Step(s, f, now, c);
            var w := WindowAfter(s.scrollHistory, f, now);
            var e := ScrollEstimate(w, AverageY(f), now, c);
            r.state.scrollHistory == w && r.state.scrollActive
            && (e.Some? ==> r.actions[|r.actions| - 1] == UpdateScroll(e.value.direction, e.value.velocity))
            && (e.None? ==> forall i :: 0 <= i < |r.actions| ==> !IsScrollAction(r.actions[i]))
  {
    StepScrollPart(s, f, now, c);
    ScrollTransitionUpdates(s.scrollActive, s.scrollHistory, f, now, c);
  }

  /** Given the settings' velocity assumptions, every scroll action carries a velocity in [minimum, 1]. */
  lemma StepVelocityInRange(s: EngineState, f: Frame, now: real, c: Config)
    requires IntentAssumptions(c)
    ensures var acts := Step(s, f, now, c).actions;
            forall i :: 0 <= i < |acts| && (acts[i].StartScroll? || acts[i].UpdateScroll?) ==>
              c.scrollMinVelocity <= acts[i].velocity <= 1.0
  {
    var p := PointerActions(s, f, now, c);
    var o := ScrollTransition(s.scrollActive, s.scrollHistory, f, now, c);
    PointerShape(s, f, now, c);
    ScrollTransitionInRange(s, f, now, c);
    VelocityOf(p, o.action, c.scrollMinVelocity);
  }

  // ---------------------------------------------------------------- several updates

  /**
   * Two pinches: when the first clicks, a second within the cooldown does not;
   * when both are spaced beyond the cooldown, both click.
   */
  lemma ClickDebounce(s: EngineState, f1: Frame, t1: real, f2: Frame, t2: real, c: Config)
    ensures var r1 := Step(s, f1, t1, c);
            var r2 := Step(r1.state, f2, t2, c);
            (Click in r1.actions && t2 - t1 <= c.clickCooldown ==> Click !in r2.actions)
            && (ClickDue(f1, t1, s.lastClick, c) && PinchDistance(f2) < c.pinchThreshold && t2 - t1 > c.clickCooldown
                ==> Click in r1.actions && Click in r2.actions)
  {
    var r1 := Step(s, f1, t1, c);
    StepClick(s, f1, t1, c);
    StepClick(r1.state, f2, t2, c);
  }

  datatype Input = Input(frame: Frame, now: real)

  /** Several updates in a row: the final state and all actions, in order. */
  function Run(s: EngineState, inputs: seq<Input>, c: Config): StepResult
    decreases |inputs|
  {
    if inputs == [] then StepResult(s, [])
    else
      var first := Step(s, inputs[0].frame, inputs[0].now, c);
      var rest := Run(first.state, inputs[1..], c);
      StepResult(rest.state, first.actions + rest.actions)
  }

  /**
   * Re-pinching within the cooldown is ignored however many updates it spans:
   * when every update falls within the cooldown of the last click, none of them
   * clicks and the last click time is kept.
   */
  lemma {:induction false} NoClickWithinCooldown(s: EngineState, inputs: seq<Input>, c: Config)
    requires forall i :: 0 <= i < |inputs| ==> inputs[i].now - s.lastClick <= c.clickCooldown
    decreases |inputs|
    ensures var r := Run(s, inputs, c);
            Click !in r.actions && r.state.lastClick == s.lastClick
  {
    if inputs != [] {
      var first := Step(s, inputs[0].frame, inputs[0].now, c);
      StepClick(s, inputs[0].frame, inputs[0].now, c);
      assert inputs[0].now - s.lastClick <= c.clickCooldown;
      NoClickWithinCooldown(first.state, inputs[1..], c);
      var rest := Run(first.state, inputs[1..], c);
      assert Run(s, inputs, c).actions == first.actions + rest.actions;
    }
  }

  function CountStarts(acts: seq<Action>): nat
  {
    if acts == [] then 0 else (if acts[0].StartScroll? then 1 else 0) + CountStarts(acts[1..])
  }

  lemma {:induction false} CountStartsAppend(a: seq<Action>, b: seq<Action>)
    ensures CountStarts(a + b) == CountStarts(a) + CountStarts(b)
  {
    if a != [] {
      var ab := a + b;
      assert ab != [] && ab[0] == a[0];
      assert ab[1..] == a[1..] + b;
      CountStartsAppend(a[1..], b);
      assert CountStarts(ab) == (if a[0].StartScroll? then 1 else 0) + CountStarts(a[1..] + b);
    } else {
      assert a + b == b;
    }
  }

  lemma {:induction false} CountStartsNone(a: seq<Action>)
    requires forall i :: 0 <= i < |a| ==> !a[i].StartScroll?
    ensures CountStarts(a) == 0
  {
    if a != [] {
      CountStartsNone(a[1..]);
    }
  }

  lemma CountStartsOf(p: seq<Action>, x: Option<Action>)
    requires forall i :: 0 <= i < |p| ==> !p[i].StartScroll?
    ensures CountStarts(p + AsSeq(x)) == if x.Some? && x.value.StartScroll? then 1 else 0
  {
    CountStartsNone(p);
    CountStartsAppend(p, AsSeq(x));
    if x.Some? {
      assert AsSeq(x)[1..] == [];
    }
  }

  /** One update emits a start exactly when it turns scrolling on. */
  lemma StepCountStarts(s: EngineState, f: Frame, now: real, c: Config)
    ensures var r := Step(s, f, now, c);
            CountStarts(r.actions) == if !s.scrollActive && r.state.scrollActive then 1 else 0
  {
    var p := PointerActions(s, f, now, c);
    var o := ScrollTransition(s.scrollActive, s.scrollHistory, f, now, c);
    PointerShape(s, f, now, c);
    ScrollTransitionEdges(s, f, now, c);
    CountStartsOf(p, o.action);
  }

  /**
   * Holding the two-finger pose over any number of updates emits one start at
   * most (none when scrolling was already on) and no stop; scrolling, once on,
   * stays on.
   */
  lemma {:induction false} SustainedPoseStartsOnce(s: EngineState, inputs: seq<Input>, c: Config)
    requires forall i :: 0 <= i < |inputs| ==> TwoFingerPose(inputs[i].frame, c)
    decreases |inputs|
    ensures var r := Run(s, inputs, c);
            CountStarts(r.actions) == (if !s.scrollActive && r.state.scrollActive then 1 else 0)
            && (s.scrollActive ==> r.state.scrollActive)
            && StopScroll !in r.actions
  {
    if inputs != [] {
      var first := Step(s, inputs[0].frame, inputs[0].now, c);
      StepCountStarts(s, inputs[0].frame, inputs[0].now, c);
      StepScrollEdges(s, inputs[0].frame, inputs[0].now, c);
      SustainedPoseStartsOnce(first.state, inputs[1..], c);
      var rest := Run(first.state, inputs[1..], c);
      CountStartsAppend(first.actions, rest.actions);
      assert TwoFingerPose(inputs[0].frame, c);
    }
  }

  // ---------------------------------------------------------------- the object

  class GestureEngine {
    var history: seq<Sample>
    var lastClick: real
    var scrollActive: bool
    var scrollHistory: seq<ScrollSample>
    const cfg: Config

    function State(): EngineState
      reads this
    {
      EngineState(history, scrollHistory, lastClick, scrollActive)
    }

    ghost predicate Valid()
      reads this
    {
      WindowsBounded(State())
    }

    constructor (cfg: Config)
      ensures Valid() && State() == Initial && this.cfg == cfg
    {
      history := [];
      lastClick := 0.0;
      scrollActive := false;
      scrollHistory := [];
      this.cfg := cfg;
    }

    /** Classifies one frame at time `now`. */
    method Update(f: Frame, now: real) returns (actions: seq<Action>)
      requires Valid()
      modifies this
      ensures Valid()
      ensures StepResult(State(), actions) == Step(old(State()), f, now, cfg)
    {
      ghost var s := State();
      actions := [Move(f.indexTip.x, f.indexTip.y)];

      var dist := Abs(f.indexTip.x - f.thumbTip.x) + Abs(f.indexTip.y - f.thumbTip.y);
      if dist < cfg.pinchThreshold && now - lastClick > cfg.clickCooldown {
        actions := actions + [Click];
        lastClick := now;
      }

      var swipe := DetectSwipe(history, f.indexTip.x, now, cfg);
      if swipe.Some? {
        actions := actions + [swipe.value];
      }
      assert actions == PointerActions(s, f, now, cfg);

      var scroll := HandleScroll(f, now);
      actions := actions + AsSeq(scroll);

      history := Push(history, Sample(f.indexTip.x, f.indexTip.y, now), HISTORY_CAPACITY);
    }

    /** The scroll part of an update: start, stop or update scrolling from the pose and the flag. */
    method HandleScroll(f: Frame, now: real) returns (action: Option<Action>)
      requires Valid()
      modifies this`scrollActive, this`scrollHistory
      ensures Valid()
      ensures ScrollOutcome(scrollHistory, scrollActive, action)
              == ScrollTransition(old(scrollActive), old(scrollHistory), f, now, cfg)
    {
      action := None;
      var signal := DetectScrollGesture(f, scrollActive, cfg);
      if signal.Some? {
        if signal == Some(StartCandidate) && !scrollActive {
          var info := GetScrollInfo(f, now);
          if info.Some? {
            action := Some(StartScroll(info.value.direction, info.value.velocity));
            scrollActive := true;
          }
        } else if signal == Some(StopCandidate) && scrollActive {
          action := Some(StopScroll);
          scrollActive := false;
          scrollHistory := [];
        } else if scrollActive {
          var info := GetScrollInfo(f, now);
          if info.Some? {
            action := Some(UpdateScroll(info.value.direction, info.value.velocity));
          }
        }
      }
    }

    /** Appends the current mean fingertip height to the scroll window, then estimates from it. */
    method GetScrollInfo(f: Frame, now: real) returns (info: Option<ScrollInfo>)
      requires Valid()
      modifies this`scrollHistory
      ensures Valid()
      ensures scrollHistory == WindowAfter(old(scrollHistory), f, now)
      ensures info == ScrollEstimate(scrollHistory, AverageY(f), now, cfg)
    {
      var avgY := (f.indexTip.y + f.middleTip.y) / 2.0;
      scrollHistory := Push(scrollHistory, ScrollSample(avgY, now), SCROLL_WINDOW_CAPACITY);

      if |scrollHistory| < 2 {
        if avgY < cfg.scrollUpZone {
          return Some(ScrollInfo(Up, cfg.scrollUpBaseVelocity));
        } else if avgY > SCROLL_DOWN_ZONE {
          return Some(ScrollInfo(Down, cfg.scrollMinVelocity));
        }
        return None;
      }

      var initial := scrollHistory[0];
      var dy := avgY - initial.avgY;
      var dt := now - initial.t;
      if dt == 0.0 {
        return None;
      }

      var velocityY := Abs(dy) / dt;
      var normalized := NormalizeVelocity(velocityY, cfg);

      var upThreshold := UpThreshold(cfg);
      if (if dy < 0.0 then Abs(dy) > upThreshold else cfg.scrollDirectionThreshold != 0.0) {
        if dy < 0.0 {
          return Some(ScrollInfo(Up, BoostUp(normalized, cfg)));
        } else {
          return Some(ScrollInfo(Down, normalized));
        }
      }

      if avgY < cfg.scrollUpZone {
        return Some(ScrollInfo(Up, cfg.scrollUpBaseVelocity));
      } else if avgY > SCROLL_DOWN_ZONE {
        return Some(ScrollInfo(Down, cfg.scrollMinVelocity));
      }
      return None;
    }

    /** Empties both windows, zeroes the last click time and turns scrolling off. */
    method Reset()
      modifies this
      ensures Valid() && State() == Initial
    {
      history := [];
      scrollHistory := [];
      lastClick := 0.0;
      scrollActive := false;
    }
  }
}

# Hand-gesture mouse control: a Dafny model of its core

The application watches a hand through a webcam and drives the mouse. A landmark
tracker turns each camera frame into hand landmarks. Three pieces of sequential logic
then decide what the operating system sees:

- **The gesture classifier** (`GestureEngine`, gestures/gesture_engine.py). Each
  update turns one frame into an ordered list of actions:
  - a cursor move, on every update;
  - a click, on a pinch outside the click cooldown;
  - a left or right swipe, on fast horizontal travel since the oldest remembered sample;
  - start, update or stop of continuous scrolling, from a two-finger pose.

  It keeps four pieces of state: a 10-sample position history, a 5-sample scroll
  window, the time of the last click and a scroll-active flag.
- **The exponential moving-average filter** (`ExponentialMovingAverage`,
  utils/filters.py). It smooths cursor positions. Its first value passes through
  unchanged; each later value is blended with the stored one.
- **The OS controller** (`OSController`, input/os_controller.py):
  - it moves the cursor in screen pixels, dropping jitter inside a dead zone;
  - it holds the scroll intent (active, direction, velocity) that a background loop reads;
  - each loop iteration turns that intent into one wheel step and a pause.

## How the model is organised

- `common.dfy` (module `Common`): the shared value types.
  - `Option`, `Point` and `Direction`.
  - `Abs`, `Min` and `Max`.
  - `Trunc`, which is Python's `int()` on a float and truncates toward zero.
- `settings.dfy` (module `Settings`): the configuration constants as one `Config`
  record. Their values are not part of this model, so they are parameters. Each
  property names the assumptions about them that it needs: `VelocityAssumptions`,
  `IntentAssumptions` and `TickAssumptions`.
- `filters.dfy` (module `Filters`): the filter.
  - The class `ExponentialMovingAverage` mutates its `value` field.
  - Its methods are proved equal to the pure `Smooth`.
  - `Approach` iterates `Blend`, the smoothing step once a value is stored, toward a fixed target. The convergence facts are
    proved about it.
- `gesture_engine.dfy` (module `Gestures`): the classifier.
  - The class `GestureEngine` keeps the four fields as sequences. A bounded deque
    becomes `Push`, which keeps the newest `cap` entries.
  - `Update` mutates the fields step by step, in the source's order. It is proved
    equal to the pure `Step`, and all properties are proved about `Step`.
  - `Run` chains updates, which gives properties over several updates.
- `os_controller.dfy` (module `Controller`): the controller.
  - The class `OSController` keeps the scroll intent and the last issued cursor position.
  - The intent transitions are proved equal to the pure `Start`, `Retarget` and `Stop`.
  - One loop iteration is the pure `NextTickOf`.
  - OS calls become return values: a `Pixel` for a cursor move, a `Tick` for a wheel
    step, and `spawned` for launching the loop.

Time is an explicit `now` per update instead of clock reads. Coordinates and times
are `real`.

The direction test on gestures/gesture_engine.py:149 is modelled as the line parses,
as `DirectionTest`. For an upward movement the displacement is compared with the up
threshold. For any other movement only the truth value of the direction threshold is
tested, so any non-upward movement, even none, scrolls down while that threshold is
non-zero. `EstimateDown` and `StillInUpZoneScrollsDown` state the consequences.

The clamps in `start_infinite_scroll` while active and in `update_scroll_direction`
(input/os_controller.py:70, 117) keep the scroll velocity in [minimum velocity, 1]. An
idle start does not: it stores the given velocity unclamped (input/os_controller.py:75).
- `IdleStartKeepsUnclampedVelocity` exhibits an out-of-range velocity.
- `IntentKeepsVelocityInRange` states the condition under which the range is kept.
- `Gestures.StepVelocityInRange` shows that the classifier only produces in-range velocities, given `IntentAssumptions`, that is, when the up-zone base velocity lies in [minimum velocity, 1]. The zone rule emits that setting unchanged (gestures/gesture_engine.py:121, 157), so outside the range a start is out of range too.

## Model

| member | source | states |
|---|---|---|
| Common.Trunc | input/os_controller.py:45-46 | `int()` of a float truncates toward zero: the result has the sign of the input and lies within 1 of it, on the zero side |
| Gestures.Push | gestures/gesture_engine.py:20-23 | appending to a bounded deque grows it by one until the capacity is reached, and then keeps the length at the capacity |
| Gestures.PushContents | gestures/gesture_engine.py:68 | the appended element is last, and in front of it are the newest older entries in their original order |
| Gestures.ClickDue | gestures/gesture_engine.py:41-42 | definition: the Manhattan pinch distance is below the threshold and more than the cooldown has passed since the last click; characterised per update by `StepClick`, `ClickDebounce` and `NoClickWithinCooldown` |
| Gestures.DetectSwipe | gestures/gesture_engine.py:71-91 | no swipe with fewer than 3 samples or when `dt == 0`; otherwise a swipe exactly when the travel from the oldest sample beats both the distance and the speed thresholds, right for positive travel and left otherwise |
| Gestures.TwoFingerPose | gestures/gesture_engine.py:100-105 | definition: index and middle tips above their middle joints and closer than the scroll-gesture threshold; `DetectScrollGesture`'s contract turns it into the start and stop signals |
| Gestures.DetectScrollGesture | gestures/gesture_engine.py:93-109 | start signal exactly when the two-finger pose holds; stop signal exactly when it fails while scrolling |
| Gestures.ZoneFallback | gestures/gesture_engine.py:119-124 | definition: UP at the base velocity above the up zone, DOWN at the minimum below 0.6, none between; used unchanged at lines 156-161; characterised by `EstimateFallback` and `StillInUpZoneScrollsDown` |
| Gestures.DirectionTest | gestures/gesture_engine.py:147-149 | definition of line 149's parse: an upward movement must exceed the up threshold, any other movement passes exactly when the direction threshold is non-zero; characterised by `EstimateUp`, `EstimateDown` and `EstimateFallback` |
| Gestures.ScrollEstimate | gestures/gesture_engine.py:116-161 | definition on the window after the append; split into every case by `EstimateSameTime`, `EstimateUp`, `EstimateDown` and `EstimateFallback`, bounded by `EstimateInRange` |
| Gestures.NormalizeVelocity | gestures/gesture_engine.py:136-145 | given the velocity assumptions, the normalised velocity lies in [minimum velocity, 1] |
| Gestures.EstimateSameTime | gestures/gesture_engine.py:126-134 | on the windowed path, equal timestamps give no estimate |
| Gestures.EstimateUp | gestures/gesture_engine.py:147-152 | an upward movement past the up threshold gives UP with `min(1, normalised * boost)`, which lies in [minimum, 1] under the velocity assumptions |
| Gestures.EstimateDown | gestures/gesture_engine.py:147-154 | with a non-zero direction threshold, any non-upward movement gives DOWN at the normalised velocity, with no magnitude test |
| Gestures.EstimateFallback | gestures/gesture_engine.py:119-161 | the zone rule (UP at base velocity above the up zone, DOWN at the minimum when avgY > 0.6, else none) is reached on the first sample, when an upward movement stays within the up threshold, or when a non-upward movement meets a zero direction threshold (both windowed cases with distinct timestamps) |
| Gestures.EstimateInRange | gestures/gesture_engine.py:111-161 | every estimate's velocity lies in [minimum, 1] when the up-zone base velocity does |
| Gestures.StillInUpZoneScrollsDown | gestures/gesture_engine.py:147-161 | fingers held still inside the up zone scroll DOWN at the minimum velocity after the first sample, although the zone rule alone would say UP |
| Gestures.PointerActions | gestures/gesture_engine.py:34-48 | definition: move, then the click when due, then the detected swipe; characterised by `PointerShape`, `StepMoveFirst`, `StepClick` and `StepSwipe` |
| Gestures.PointerShape | gestures/gesture_engine.py:34-48 | the actions before the scroll part are the move, then at most one click, then at most one swipe |
| Gestures.ScrollTransition | gestures/gesture_engine.py:50-66 | definition of the scroll part; characterised by `ScrollTransitionEdges`, `ScrollTransitionStops`, `ScrollTransitionStarts`, `ScrollTransitionUpdates`, `ScrollTransitionIdle` and `ScrollTransitionInRange` |
| Gestures.ScrollTransitionEdges | gestures/gesture_engine.py:50-66 | the scroll part is edge-triggered: a start is emitted exactly when the flag turns on, and only with the pose; a stop exactly when the flag turns off, only without the pose, and it empties the window; an update only while the flag stays on with the pose; the window stays within 5 |
| Gestures.ScrollTransitionStops | gestures/gesture_engine.py:58-61 | losing the pose while scrolling always stops: flag off, window emptied, a stop emitted |
| Gestures.ScrollTransitionStarts | gestures/gesture_engine.py:52-57 | the pose while idle always appends the sample; with an estimate, scrolling starts carrying its direction and velocity; without one, nothing is emitted and scrolling stays off |
| Gestures.ScrollTransitionUpdates | gestures/gesture_engine.py:62-66 | the pose while scrolling always appends the sample and keeps scrolling on; an update carrying the estimate is emitted exactly when there is one |
| Gestures.ScrollTransitionIdle | gestures/gesture_engine.py:50-51 | no pose while idle: no scroll signal, so nothing changes and nothing is emitted |
| Gestures.StepScrollPart | gestures/gesture_engine.py:50-66 | an update's new flag and window are those of its scroll part, whose action, if any, is the update's last action; with no scroll action the update emits none |
| Gestures.StepStopsOnLostPose | gestures/gesture_engine.py:58-61 | an update that loses the pose while scrolling ends with a stop, turns scrolling off and empties the window |
| Gestures.StepStartCarriesEstimate | gestures/gesture_engine.py:52-57 | an update with the pose while idle appends to the window and either ends with a start carrying the estimate and turns scrolling on, or, with no estimate, emits no scroll action and stays idle |
| Gestures.StepUpdateCarriesEstimate | gestures/gesture_engine.py:62-66 | an update with the pose while scrolling appends to the window, keeps scrolling on and ends with an update carrying the estimate when there is one, and emits no scroll action otherwise |
| Gestures.ScrollTransitionInRange | gestures/gesture_engine.py:50-66 | started and updated scrolls carry a velocity in [minimum, 1] under the settings' assumptions |
| Gestures.Step | gestures/gesture_engine.py:32-69 | definition of one update: pointer actions, then the scroll part, with the history appended; characterised by the `Step*` lemmas and realised by `GestureEngine.Update` |
| Gestures.StepMoveFirst | gestures/gesture_engine.py:34-39 | every update's actions are non-empty, begin with the move to the index fingertip and hold no other move |
| Gestures.StepClick | gestures/gesture_engine.py:41-44 | a click is emitted exactly when the Manhattan pinch distance is below the threshold and the cooldown has passed; the last click time becomes `now` then, and is kept otherwise; there is never more than one click |
| Gestures.StepSwipe | gestures/gesture_engine.py:46-48 | a right (left) swipe is among the actions exactly when the swipe detector reports it |
| Gestures.StepHistory | gestures/gesture_engine.py:68 | the history has `min(old length + 1, 10)` entries; the current fingertip sample is last; the older entries keep their order |
| Gestures.StepWindowsBounded | gestures/gesture_engine.py:20-23 | history at most 10 and scroll window at most 5 entries are preserved by every update |
| Gestures.SwipeKeepsOldestSample | gestures/gesture_engine.py:68-76 | while the history is not full, an update keeps its oldest sample, so the next swipe test measures from the same origin |
| Gestures.StepScrollEdges | gestures/gesture_engine.py:50-66 | one update emits at most one scroll action, as the last action; start, stop and update obey the edge rules; the flag changes only with a start or a stop |
| Gestures.StepVelocityInRange | gestures/gesture_engine.py:50-66 | every start or update action of an update carries a velocity in [minimum, 1] |
| Gestures.StepCountStarts | gestures/gesture_engine.py:52-57 | an update emits one start exactly when it turns scrolling on, and none otherwise |
| Gestures.ClickDebounce | tests/test_core.py:110-122 | after a click, a second pinch within the cooldown does not click; two pinches spaced beyond the cooldown both click |
| Gestures.NoClickWithinCooldown | gestures/gesture_engine.py:41-44 | over any number of updates that all fall within the cooldown of the last click, no click is emitted and the last click time is kept, however long the run and whatever the pinch does |
| Gestures.SustainedPoseStartsOnce | gestures/gesture_engine.py:50-66 | holding the pose over any number of updates emits at most one start (none if scrolling was on) and no stop, and scrolling once on stays on |
| Gestures.GestureEngine.constructor | gestures/gesture_engine.py:19-23 | empty history and window, last click 0, scrolling off |
| Gestures.GestureEngine.Update | gestures/gesture_engine.py:32-69 | the new fields and the returned actions are those of `Step` from the old fields; the window bounds are kept |
| Gestures.GestureEngine.HandleScroll | gestures/gesture_engine.py:50-66 | the scroll part of an update changes the flag and window and returns the scroll action exactly as `ScrollTransition` says |
| Gestures.GestureEngine.GetScrollInfo | gestures/gesture_engine.py:111-161 | the current sample is always appended to the window, even when no estimate results; the result is the estimate from the appended window |
| Gestures.GestureEngine.Reset | gestures/gesture_engine.py:163-168 | both windows emptied, last click 0, scrolling off |
| Filters.Blend | utils/filters.py:25-28 | definition: `alpha * new + (1 - alpha) * stored` per axis; characterised by `BlendGap`, `BlendBetween` and, iterated, by `ApproachGap` |
| Filters.Smooth | utils/filters.py:20-29 | definition: the input on first use, `Blend` afterwards; characterised by `SmoothPassThrough` and realised by `ExponentialMovingAverage.Update` |
| Filters.SmoothPassThrough | utils/filters.py:22-23 | with nothing stored, the filter returns its input unchanged |
| Filters.BlendGap | utils/filters.py:25-28 | a later update shrinks each axis's gap to the input by the factor `1 - alpha` |
| Filters.BlendBetween | utils/filters.py:25-28 | for alpha in [0, 1], each axis of the result lies between the stored value and the input |
| Filters.ApproachGap | utils/filters.py:25-28 | after n updates toward a constant target, the gap is `(1 - alpha)^n` times the initial gap |
| Filters.ApproachMonotone | utils/filters.py:25-28 | for alpha in [0, 1], the gap to a constant target never grows from one update to the next |
| Filters.Convergence | tests/test_core.py:28-34 | with alpha 0.5, seven or more updates from (0, 0) toward (1, 1) land within 0.01 of the target |
| Filters.ExponentialMovingAverage.constructor | utils/filters.py:12-18 | stores alpha and nothing else |
| Filters.ExponentialMovingAverage.Update | utils/filters.py:20-29 | stores and returns the input on first use, and `alpha * new + (1 - alpha) * stored` per axis afterwards |
| Filters.ExponentialMovingAverage.Reset | utils/filters.py:31-33 | forgets the stored value; alpha is a constant |
| Filters.SmoothingScenario | tests/test_core.py:21-26 | alpha 0.3: (0, 0) then (1, 1) gives (0.3, 0.3) |
| Filters.ConvergenceScenario | tests/test_core.py:28-34 | alpha 0.5: after seeding with (0, 0), seven or more updates with (1, 1) land within 0.01 of it on both axes |
| Filters.ResetScenario | tests/test_core.py:36-42 | after a reset the next update passes (0.8, 0.8) through |
| Controller.ClampPixel | input/os_controller.py:47-48 | the clamped pixel lies in `[0, size - 1]` for a screen of at least one pixel; in-range values are kept; values below go to 0 and values above go to `size - 1` |
| Controller.ToPixel | input/os_controller.py:45-48 | every issued coordinate lies in `[0, size - 1]` for a screen of at least one pixel |
| Controller.ToPixelInside | input/os_controller.py:45-48 | for a normalised coordinate in [0, 1) the clamp never bites: the pixel is `floor(v * size)` |
| Controller.ToPixelOutside | input/os_controller.py:45-48 | coordinates left of or above the frame go to pixel 0, and those at or beyond 1 go to the last pixel |
| Controller.InDeadZone | input/os_controller.py:37-41 | definition: there is a last issued position and both axes moved less than the dead zone; characterised by `DeadZoneNeedsPreviousMove` and used by `OSController.MoveCursor` |
| Controller.DeadZoneNeedsPreviousMove | input/os_controller.py:37-41 | the first move, and every move with a non-positive dead zone, is never dropped |
| Controller.ClampVelocity | input/os_controller.py:70 | the clamped velocity lies in [minimum, 1]; in-range values are kept; values below go to the minimum and values above go to 1 |
| Controller.Start | input/os_controller.py:64-75 | definition of the intent after a start; characterised by `StartFromIdle`, `IdleStartKeepsUnclampedVelocity` and `IntentKeepsVelocityInRange` |
| Controller.Retarget | input/os_controller.py:111-117 | definition of the intent after a retarget; characterised by `RetargetIsRestart` and `IntentKeepsVelocityInRange` |
| Controller.Stop | input/os_controller.py:119-122 | definition of the intent after a stop; characterised by `StopIdempotent` and `TickFollowsIntent` |
| Controller.StartFromIdle | input/os_controller.py:73-75 | a start from idle turns scrolling on with the given direction, and stores the given velocity unclamped, or the minimum when none is given |
| Controller.IdleStartKeepsUnclampedVelocity | input/os_controller.py:73-75 | an idle start with velocity 2 leaves the velocity out of range; a retarget with the same velocity brings it back to 1 |
| Controller.RetargetIsRestart | input/os_controller.py:111-117 | while active, a retarget is exactly a restart; while idle, it changes nothing |
| Controller.IntentKeepsVelocityInRange | input/os_controller.py:64-122 | retarget and stop keep the velocity in range, and so does a start unless it comes from idle with an out-of-range velocity |
| Controller.StopIdempotent | input/os_controller.py:119-122 | stopping twice is stopping once; after a stop, only a start turns scrolling back on |
| Controller.NextTickOf | input/os_controller.py:78-104 | definition of one loop iteration: none when the intent is off, else the signed wheel step and the interval; characterised by `BaseTickBounds`, `BaseTickMonotone`, `TickSign` and `TickFollowsIntent` |
| Controller.BaseTickBounds | input/os_controller.py:87-96 | for a velocity in [0, 1], with the base amount at most the maximum and the minimum interval at most the base, the amount lies in [base, max] and the interval in [min, base] before the upward adjustments |
| Controller.BaseTickMonotone | input/os_controller.py:87-96 | a higher velocity never scrolls less per step and never waits longer |
| Controller.TickSign | input/os_controller.py:87-104 | an active intent produces a step: `+int(boosted amount)`, non-negative, for UP; `-int(amount)`, between `-floor(max)` and 0, for DOWN |
| Controller.TickFollowsIntent | input/os_controller.py:78-85 | the iteration after a stop emits nothing and the loop exits; after a start it emits a step with the requested direction's interval |
| Controller.OSController.constructor | input/os_controller.py:15-27 | fresh filter with the configured alpha, no last position, scrolling off, direction DOWN at the minimum velocity |
| Controller.OSController.MoveCursor | input/os_controller.py:29-50 | the filter always absorbs the point; inside the dead zone of the last issued move nothing is issued and the last position is kept; otherwise the smoothed point is recorded and issued as clamped pixels within the screen |
| Controller.OSController.StartInfiniteScroll | input/os_controller.py:64-109 | the intent becomes `Start` of the old intent; a new loop is launched exactly when scrolling was off |
| Controller.OSController.UpdateScrollDirection | input/os_controller.py:111-117 | the intent becomes `Retarget` of the old intent |
| Controller.OSController.StopInfiniteScroll | input/os_controller.py:119-125 | scrolling off, direction and velocity kept, the loop emits no further step |
| Controller.OSController.Reset | input/os_controller.py:131-135 | filter and last position cleared, scrolling off |

## Left out

- Threads: the background scroll thread, its lock, `time.sleep`, `join(timeout=0.5)` and the `scroll_thread` field are concurrency. The loop body is the single-iteration function `NextTickOf`, and a launch is the `spawned` result.
- OS calls: the automation-library calls are foreign I/O. These are `moveTo`, `scroll`, `click` and `press`, and the `FAILSAFE` and `PAUSE` settings. Moves and wheel steps are returned values instead. The screen size is a constructor parameter instead of a query.
- `click`, `next_page`, `prev_page`, `get_screen_size` and `cleanup` of the controller are not modelled. The first four only call the automation library or return the constructor's values. `cleanup` is just `stop_infinite_scroll`.
- Gestures.GestureEngine.Update: the clock is read several times per update in the source. The model takes one `now` per update and does not require it to be non-decreasing.
- Direction strings: directions are `Up` and `Down` only. The source compares strings, and the loop treats any string other than "UP" as down.
- Default arguments: the source defaults `direction` to "DOWN", `velocity` to none and `alpha` to 0.3. Callers of the model pass these explicitly.
- Controller.OSController.MoveCursor: the `smoothed is None` early return is not modelled, because the filter always returns a point.
- Floating point: coordinates, times and velocities are exact reals. IEEE rounding, and the test tolerances of `1e-6`, are not modelled.
- Filters.ConvergenceScenario: the twenty updates of the original scenario become any number from seven on.
- The camera loop (main.py), the landmark tracker (vision/hand_tracker.py) and the action dispatcher (actions/dispatcher.py) are not part of this model. The configuration module utils/config.py is not part of this model either; its constants are the parameters in `Settings.Config`.

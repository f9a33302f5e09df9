/**
 * The tunable constants of the configuration module. Their values are not part
 * of this model, so they are parameters; each property states which assumptions
 * about them it needs.
 */
module Settings {

  datatype Config = Config(
    // gesture engine
    clickCooldown: real,
    pinchThreshold: real,
    swipeThreshold: real,
    swipeVelocityThreshold: real,
    scrollGestureThreshold: real,
    scrollDirectionThreshold: real,
    scrollUpThresholdMultiplier: real,
    scrollUpZone: real,
    scrollUpBaseVelocity: real,
    scrollMinVelocity: real,
    scrollMaxVelocityThreshold: real,
    scrollUpVelocityBoost: real,
    // cursor smoothing
    emaAlpha: real,
    deadZone: real,
    // scroll actuator
    scrollAmount: real,
    scrollMaxAmount: real,
    scrollInterval: real,
    scrollMinInterval: real,
    scrollUpAmountBoost: real,
    scrollUpIntervalMultiplier: real)

  /** What the velocity bounds of the scroll estimator rely on. */
  predicate VelocityAssumptions(c: Config)
  {
    0.0 <= c.scrollMinVelocity <= 1.0
    && c.scrollMaxVelocityThreshold > 0.0
    && c.scrollUpVelocityBoost >= 1.0
  }

  /** In addition, the base velocity of the upper zone lies in the velocity range. */
  predicate IntentAssumptions(c: Config)
  {
    VelocityAssumptions(c) && c.scrollMinVelocity <= c.scrollUpBaseVelocity <= 1.0
  }

  /** What the tick arithmetic of the scroll loop relies on. */
  predicate TickAssumptions(c: Config)
  {
    0.0 <= c.scrollAmount <= c.scrollMaxAmount
    && 0.0 <= c.scrollMinInterval <= c.scrollInterval
  }
}

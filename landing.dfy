/**
 * Outcome classification of a LunarLander step: the failure and success
 * predicates that the monitor evaluates on the environment's answer.
 */
module Landing {

  /** The 8-element LunarLander observation. The two leg-contact entries are
      numbers (0.0 or 1.0 in practice); a leg touches when its entry is non-zero. */
  datatype Obs = Obs(
    x: real,
    y: real,
    vx: real,
    vy: real,
    angle: real,
    angularVelocity: real,
    leftLeg: real,
    rightLeg: real)

  /** The keyword parameters shared by both predicates. */
  datatype Thresholds = Thresholds(velocity: real, height: real, xMin: real, xMax: real, angle: real)

  /** Default keyword values of the failure predicate. */
  const FailureDefaults := Thresholds(2.0, 0.1, -0.2, 0.2, 0.2)

  /** Default keyword values of the success predicate (its height is never read). */
  const SuccessDefaults := Thresholds(0.5, 0.1, -0.2, 0.2, 0.2)

  function Abs(v: real): (r: real)
    ensures 0.0 <= r && (r == v || r == -v)
  {
    if v < 0.0 then -v else v
  }

  /** A step is terminal when the environment reports it terminated or truncated. */
  predicate IsTerminal(terminated: bool, truncated: bool)
  {
    terminated || truncated
  }

  /** Failure: on a terminal step, a fast touchdown, a landing outside
      [xMin, xMax] (strict comparisons), or too much tilt. */
  function IsLandingFailure(terminated: bool, truncated: bool, obs: Obs, t: Thresholds): (failed: bool)
    ensures failed ==> IsTerminal(terminated, truncated)
  {
    if IsTerminal(terminated, truncated) then
      if obs.y <= t.height && Abs(obs.vy) > t.velocity then true
      else if obs.x < t.xMin || obs.x > t.xMax then true
      else Abs(obs.angle) > t.angle
    else false
  }

  /** Success: on a terminal step, at or below ground level (height is
      hard-coded to 0, the height threshold is ignored), slow in both axes,
      inside [xMin, xMax] (inclusive), nearly upright, and a leg in contact. */
  function IsLandingSuccess(terminated: bool, truncated: bool, obs: Obs, t: Thresholds): (succeeded: bool)
    ensures succeeded ==> IsTerminal(terminated, truncated)
    ensures succeeded ==> obs.y <= 0.0 && (obs.leftLeg != 0.0 || obs.rightLeg != 0.0)
  {
    if IsTerminal(terminated, truncated) then
      obs.y <= 0.0
      && Abs(obs.vy) < t.velocity
      && Abs(obs.vx) < t.velocity
      && t.xMin <= obs.x <= t.xMax
      && Abs(obs.angle) < t.angle
      && (obs.leftLeg != 0.0 || obs.rightLeg != 0.0)
    else false
  }

  /** On a step that is neither terminated nor truncated, neither predicate
      holds, whatever the observation and thresholds. */
  lemma NonTerminalIsOngoing(obs: Obs, failure: Thresholds, success: Thresholds)
    ensures !IsLandingFailure(false, false, obs, failure)
    ensures !IsLandingSuccess(false, false, obs, success)
  {
  }

  /** The failure predicate with its default keyword values, written out. */
  lemma FailureWithDefaults(terminated: bool, truncated: bool, obs: Obs)
    ensures IsLandingFailure(terminated, truncated, obs, FailureDefaults) <==>
      (terminated || truncated) &&
      ((obs.y <= 0.1 && (obs.vy > 2.0 || obs.vy < -2.0))
       || obs.x < -0.2 || obs.x > 0.2
       || obs.angle > 0.2 || obs.angle < -0.2)
  {
  }

  /** The success predicate with its default keyword values, written out. */
  lemma SuccessWithDefaults(terminated: bool, truncated: bool, obs: Obs)
    ensures IsLandingSuccess(terminated, truncated, obs, SuccessDefaults) <==>
      (terminated || truncated)
      && obs.y <= 0.0
      && -0.5 < obs.vy < 0.5
      && -0.5 < obs.vx < 0.5
      && -0.2 <= obs.x <= 0.2
      && -0.2 < obs.angle < 0.2
      && (obs.leftLeg != 0.0 || obs.rightLeg != 0.0)
  {
  }

  /** The height threshold has no effect on the success predicate. */
  lemma SuccessIgnoresHeight(terminated: bool, truncated: bool, obs: Obs, t: Thresholds, height: real)
    ensures IsLandingSuccess(terminated, truncated, obs, t) ==
            IsLandingSuccess(terminated, truncated, obs, t.(height := height))
  {
  }

  /** Success thresholds no looser than the failure thresholds. */
  predicate Nested(failure: Thresholds, success: Thresholds)
  {
    success.velocity <= failure.velocity
    && failure.xMin <= success.xMin
    && success.xMax <= failure.xMax
    && success.angle <= failure.angle
  }

  /** When the success thresholds are nested in the failure thresholds, no
      observation satisfies both predicates, so the failure-first priority
      never has to decide between them. */
  lemma NestedThresholdsAreExclusive(terminated: bool, truncated: bool, obs: Obs, failure: Thresholds, success: Thresholds)
    requires Nested(failure, success)
    ensures !(IsLandingFailure(terminated, truncated, obs, failure) &&
              IsLandingSuccess(terminated, truncated, obs, success))
  {
  }

  /** With the default values in place the two outcomes are exclusive. */
  lemma DefaultsAreExclusive(terminated: bool, truncated: bool, obs: Obs)
    ensures !(IsLandingFailure(terminated, truncated, obs, FailureDefaults) &&
              IsLandingSuccess(terminated, truncated, obs, SuccessDefaults))
  {
    NestedThresholdsAreExclusive(terminated, truncated, obs, FailureDefaults, SuccessDefaults);
  }

  /** A low, slow, upright touchdown on one leg, 0.05 above the ground, is
      neither a failure (the height clause of the failure test holds but the
      vertical speed 0.1 is below 2.0) nor a success (success demands y <= 0,
      whatever the height threshold says); the same state at y = 0 is a success. */
  lemma HoveringTouchdownIsNeither()
    ensures var obs := Obs(0.0, 0.05, 0.05, 0.1, 0.05, 0.0, 1.0, 0.0);
      !IsLandingFailure(true, false, obs, FailureDefaults) &&
      !IsLandingSuccess(true, false, obs, SuccessDefaults) &&
      !IsLandingFailure(true, false, obs.(y := 0.0), FailureDefaults) &&
      IsLandingSuccess(true, false, obs.(y := 0.0), SuccessDefaults)
  {
  }
}

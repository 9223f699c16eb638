/**
 * The per-step landing monitor as functions over its state: the fuel
 * governor's choice of action, failure-first classification with the
 * success debounce window, fuel consumption, and the episode-end reset,
 * composed in that order.
 */
module Monitor {
  import opened Landing
  import opened Fuel

  /** LunarLander's discrete actions; 0 is "do nothing". */
  type Action = nat

  const Neutral: Action := 0

  /** The script's constants, gathered. */
  datatype Config = Config(
    failure: Thresholds,
    success: Thresholds,
    delayLimit: int,
    maxFuel: real,
    rate: real)

  const DefaultConfig := Config(FailureDefaults, SuccessDefaults, 100, 10.0, 0.01)

  /** A capacity and a consumption rate that keep the tank within bounds. */
  predicate ValidConfig(c: Config)
  {
    0.0 <= c.maxFuel && 0.0 <= c.rate
  }

  /** The monitor's module-level variables. */
  datatype State = State(
    failures: nat,
    successes: nat,
    inProgress: bool,
    delayCounter: int,
    fuel: real)

  /** Zero counters, no pending window, a full tank. */
  function Initial(c: Config): (s: State)
    ensures s.failures == 0 && s.successes == 0 && !s.inProgress && s.fuel == c.maxFuel
    ensures ValidConfig(c) ==> Inv(c, s)
  {
    State(0, 0, false, 0, c.maxFuel)
  }

  /** What the environment answered to one step. */
  datatype Transition = Transition(obs: Obs, terminated: bool, truncated: bool)

  /** One step's inputs: the action the policy would pick, and the
      environment's answer. */
  datatype StepInput = StepInput(policyAction: Action, env: Transition)

  predicate Terminal(e: Transition)
  {
    IsTerminal(e.terminated, e.truncated)
  }

  predicate Failed(c: Config, e: Transition)
  {
    IsLandingFailure(e.terminated, e.truncated, e.obs, c.failure)
  }

  predicate Succeeded(c: Config, e: Transition)
  {
    IsLandingSuccess(e.terminated, e.truncated, e.obs, c.success)
  }

  /** A pending window has between 1 and delayLimit - 1 steps left. */
  predicate WindowOk(c: Config, s: State)
  {
    s.inProgress ==> 1 <= s.delayCounter <= c.delayLimit - 1
  }

  /** The state invariant: the tank within [0, maxFuel] and a sane window. */
  predicate Inv(c: Config, s: State)
  {
    0.0 <= s.fuel <= c.maxFuel && WindowOk(c, s)
  }

  /** Phase 1: an empty tank forces the neutral action and pins the tank at zero. */
  function Govern(s: State, policyAction: Action): (r: (State, Action))
    ensures s.fuel <= 0.0 ==> r.1 == Neutral && r.0 == s.(fuel := 0.0)
    ensures s.fuel > 0.0 ==> r.1 == policyAction && r.0 == s
    // on a tank that is never negative, pinning it at zero changes nothing
    ensures 0.0 <= s.fuel ==> r.0 == s
  {
    if OutOfFuel(s.fuel) then (s.(fuel := 0.0), Neutral) else (s, policyAction)
  }

  /** Phase 2: failure-first classification, then the debounce countdown. */
  function Debounce(c: Config, s: State, e: Transition): (r: State)
    ensures r.fuel == s.fuel
    // failure has priority: counted, window cancelled, nothing armed or committed
    ensures Failed(c, e) ==> r == s.(failures := s.failures + 1, inProgress := false)
    ensures !Failed(c, e) ==> r.failures == s.failures
    // nothing happens to an idle monitor on a step that is neither outcome
    ensures !Failed(c, e) && !Succeeded(c, e) && !s.inProgress ==> r == s
    // a success while idle arms the window, already decremented once
    ensures !Failed(c, e) && Succeeded(c, e) && !s.inProgress && c.delayLimit >= 2 ==>
              r.inProgress && r.delayCounter == c.delayLimit - 1 && r.successes == s.successes
    // a pending window only counts down, whatever the step; it is never re-armed
    ensures !Failed(c, e) && s.inProgress ==>
              r.delayCounter == s.delayCounter - 1 && r.inProgress == (s.delayCounter > 1)
    // at most one success, committed exactly when the countdown reaches zero
    // on a step that itself satisfies the success predicate
    ensures r.successes == s.successes || r.successes == s.successes + 1
    ensures r.successes == s.successes + 1 <==>
              !Failed(c, e) && Succeeded(c, e) &&
              (if s.inProgress then s.delayCounter else c.delayLimit) <= 1
    ensures r.successes == s.successes + 1 ==> !r.inProgress
    ensures r.inProgress ==> 1 <= r.delayCounter
    ensures WindowOk(c, s) ==> WindowOk(c, r)
  {
    var failed := Failed(c, e);
    var succeeded := Succeeded(c, e);
    var armed :=
      if failed then s.(failures := s.failures + 1, inProgress := false)
      else if succeeded && !s.inProgress then s.(inProgress := true, delayCounter := c.delayLimit)
      else s;
    if !armed.inProgress then armed
    else
      var left := armed.delayCounter - 1;
      if left > 0 then armed.(delayCounter := left)
      else armed.(delayCounter := left, inProgress := false,
                  successes := if succeeded then armed.successes + 1 else armed.successes)
  }

  /** Phase 3: consume one step of fuel. */
  function Burn(c: Config, s: State): (r: State)
    ensures r == s.(fuel := r.fuel)
    ensures s.fuel > 0.0 ==> r.fuel == Max(0.0, s.fuel - c.rate)
    ensures s.fuel <= 0.0 ==> r.fuel == s.fuel
    ensures ValidConfig(c) && Inv(c, s) ==> Inv(c, r)
  {
    s.(fuel := Consume(s.fuel, c.rate))
  }

  /** Phase 4: a terminal step refills the tank for the next episode. */
  function EndEpisode(c: Config, s: State, e: Transition): (r: State)
    ensures Terminal(e) ==> r == s.(fuel := c.maxFuel)
    ensures !Terminal(e) ==> r == s
    ensures ValidConfig(c) && Inv(c, s) ==> Inv(c, r)
  {
    if Terminal(e) then s.(fuel := c.maxFuel) else s
  }

  /** One iteration of the monitoring loop: the new state and the action sent
      to the environment. */
  function Step(c: Config, s: State, i: StepInput): (r: (State, Action))
    // the action is forced to neutral exactly when the tank is empty
    ensures r.1 == (if s.fuel <= 0.0 then Neutral else i.policyAction)
    // fuel: refilled on a terminal step, otherwise one clamped consumption
    ensures Terminal(i.env) ==> r.0.fuel == c.maxFuel
    ensures !Terminal(i.env) && s.fuel > 0.0 ==> r.0.fuel == Max(0.0, s.fuel - c.rate)
    ensures !Terminal(i.env) && s.fuel <= 0.0 ==> r.0.fuel == 0.0
    // counters: never down, at most one of them up, and by one
    ensures r.0.failures == s.failures + (if Failed(c, i.env) then 1 else 0)
    ensures r.0.successes == s.successes || r.0.successes == s.successes + 1
    ensures r.0.successes == s.successes + 1 ==>
              !Failed(c, i.env) && Succeeded(c, i.env) && Terminal(i.env)
    ensures ValidConfig(c) && Inv(c, s) ==> Inv(c, r.0)
    // apart from the tank, the step is the classification and debounce phase
    ensures r.0.(fuel := s.fuel) == Debounce(c, s, i.env)
  {
    var (governed, action) := Govern(s, i.policyAction);
    var classified := Debounce(c, governed, i.env);
    (EndEpisode(c, Burn(c, classified), i.env), action)
  }

  /** The state after a sequence of steps. */
  function Run(c: Config, s: State, inputs: seq<StepInput>): (r: State)
    ensures r.failures >= s.failures && r.successes >= s.successes
    ensures r.failures + r.successes <= s.failures + s.successes + |inputs|
    ensures ValidConfig(c) && Inv(c, s) ==> Inv(c, r)
  {
    if inputs == [] then s
    else Step(c, Run(c, s, inputs[..|inputs| - 1]), inputs[|inputs| - 1]).0
  }

  /** The actions sent to the environment along a sequence of steps. */
  function Actions(c: Config, s: State, inputs: seq<StepInput>): (r: seq<Action>)
    ensures |r| == |inputs|
  {
    if inputs == [] then []
    else
      var prefix := inputs[..|inputs| - 1];
      Actions(c, s, prefix) + [Step(c, Run(c, s, prefix), inputs[|inputs| - 1]).1]
  }
}

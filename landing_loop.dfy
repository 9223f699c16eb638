/**
 * The monitoring loop as the scripts run it: counters, window flag,
 * countdown and tank are variables updated in place, step by step.
 * Each method is proved against the matching function of module Monitor.
 */
module LandingLoop {
  import opened Landing
  import opened Fuel
  import opened Monitor

  class LandingMonitor {
    const config: Config
    var failures: nat
    var successes: nat
    var inProgress: bool
    var delayCounter: int
    var fuel: real

    /** The variables as a value of the specification's state. */
    function Snapshot(): State
      reads this
    {
      State(failures, successes, inProgress, delayCounter, fuel)
    }

    ghost predicate Valid()
      reads this
    {
      ValidConfig(config) && Inv(config, Snapshot())
    }

    /** Zero counters, no pending window, a full tank. */
    constructor (config: Config)
      requires ValidConfig(config)
      ensures Valid() && this.config == config
      ensures Snapshot() == Initial(config)
    {
      this.config := config;
      failures, successes := 0, 0;
      inProgress, delayCounter := false, 0;
      fuel := config.maxFuel;
    }

    /** Picks the action: neutral, with the tank pinned at zero, when it is
        empty; the policy's action otherwise. */
    method ChooseAction(policyAction: Action) returns (action: Action)
      requires Valid()
      modifies this`fuel
      ensures Valid()
      ensures (Snapshot(), action) == Govern(old(Snapshot()), policyAction)
      ensures action == Neutral <== old(fuel) <= 0.0
    {
      if OutOfFuel(fuel) {
        action := Neutral;
        fuel := 0.0;
      } else {
        action := policyAction;
      }
    }

    /** Failure-first classification of the environment's answer, then the
        debounce countdown. */
    method Classify(e: Transition)
      requires Valid()
      modifies this`failures, this`successes, this`inProgress, this`delayCounter
      ensures Valid()
      ensures Snapshot() == Debounce(config, old(Snapshot()), e)
    {
      if IsLandingFailure(e.terminated, e.truncated, e.obs, config.failure) {
        failures := failures + 1;
        inProgress := false;
      } else if IsLandingSuccess(e.terminated, e.truncated, e.obs, config.success) {
        if !inProgress {
          inProgress := true;
          delayCounter := config.delayLimit;
        }
      }
      if inProgress {
        delayCounter := delayCounter - 1;
        if delayCounter <= 0 {
          if IsLandingSuccess(e.terminated, e.truncated, e.obs, config.success) {
            successes := successes + 1;
          }
          inProgress := false;
        }
      }
    }

    /** Consumes one step of fuel from a tank that is not empty, clamped at zero. */
    method ConsumeFuel()
      requires Valid()
      modifies this`fuel
      ensures Valid()
      ensures Snapshot() == Burn(config, old(Snapshot()))
    {
      if !OutOfFuel(fuel) {
        fuel := fuel - config.rate;
        if fuel < 0.0 {
          fuel := 0.0;
        }
      }
    }

    /** Refills the tank when the step ended the episode. */
    method ResetOnEpisodeEnd(e: Transition)
      requires Valid()
      modifies this`fuel
      ensures Valid()
      ensures Snapshot() == EndEpisode(config, old(Snapshot()), e)
    {
      if e.terminated || e.truncated {
        fuel := config.maxFuel;
      }
    }

    /** One iteration of the loop body: choose the action, take the
        environment's answer, classify and debounce, consume fuel, reset
        on episode end. */
    method Tick(input: StepInput) returns (action: Action)
      requires Valid()
      modifies this
      ensures Valid()
      ensures (Snapshot(), action) == Step(config, old(Snapshot()), input)
    {
      action := ChooseAction(input.policyAction);
      Classify(input.env);
      ConsumeFuel();
      ResetOnEpisodeEnd(input.env);
    }

    /** A block of steps, one Tick each, collecting the actions sent. */
    method RunBlock(inputs: seq<StepInput>) returns (actions: seq<Action>)
      requires Valid()
      modifies this
      ensures Valid()
      ensures Snapshot() == Run(config, old(Snapshot()), inputs)
      ensures actions == Actions(config, old(Snapshot()), inputs)
    {
      ghost var start := Snapshot();
      actions := [];
      var i := 0;
      while i < |inputs|
        invariant 0 <= i <= |inputs|
        invariant Valid()
        invariant Snapshot() == Run(config, start, inputs[..i])
        invariant actions == Actions(config, start, inputs[..i])
      {
        var action := Tick(inputs[i]);
        assert inputs[..i + 1][..i] == inputs[..i];
        actions := actions + [action];
        i := i + 1;
      }
      assert inputs[..i] == inputs;
    }
  }
}

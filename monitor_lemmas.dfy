/**
 * Properties of the monitor over sequences of steps: how a pending window
 * counts down and when it commits, how the tank drains, and what an empty
 * tank does to the actions.
 */
module MonitorLemmas {
  import opened Landing
  import opened Fuel
  import opened Monitor

  /** Running two sequences back to back is running their concatenation. */
  lemma {:induction false} RunAppend(c: Config, s: State, a: seq<StepInput>, b: seq<StepInput>)
    ensures Run(c, s, a + b) == Run(c, Run(c, s, a), b)
  {
    if b != [] {
      var ab := a + b;
      assert ab[..|ab| - 1] == a + b[..|b| - 1];
      assert ab[|ab| - 1] == b[|b| - 1];
      RunAppend(c, s, a, b[..|b| - 1]);
    } else {
      assert a + b == a;
    }
  }

  /** Steps that are not failures never cancel a pending window: it counts
      down by one per step, commits nothing and counts no failure. */
  lemma {:induction false} PendingCountsDown(c: Config, s: State, inputs: seq<StepInput>)
    requires s.inProgress && |inputs| < s.delayCounter
    requires forall k :: 0 <= k < |inputs| ==> !Failed(c, inputs[k].env)
    ensures var r := Run(c, s, inputs);
      r.inProgress && r.delayCounter == s.delayCounter - |inputs|
      && r.successes == s.successes && r.failures == s.failures
  {
    if inputs != [] {
      var prefix := inputs[..|inputs| - 1];
      PendingCountsDown(c, s, prefix);
      var last := inputs[|inputs| - 1];
      assert !Failed(c, last.env);
    }
  }

  /** A pending window resolves on its last counted step: after
      delayCounter - 1 steps that are not failures, the next step closes it,
      and a success is counted exactly when that step is not a failure and
      satisfies the success predicate itself. */
  lemma PendingWindowResolves(c: Config, s: State, waiting: seq<StepInput>, last: StepInput)
    requires s.inProgress && 1 <= s.delayCounter
    requires |waiting| == s.delayCounter - 1
    requires forall k :: 0 <= k < |waiting| ==> !Failed(c, waiting[k].env)
    ensures var r := Run(c, s, waiting + [last]);
      !r.inProgress
      && r.successes == s.successes + (if !Failed(c, last.env) && Succeeded(c, last.env) then 1 else 0)
      && r.failures == s.failures + (if Failed(c, last.env) then 1 else 0)
  {
    PendingCountsDown(c, s, waiting);
    RunAppend(c, s, waiting, [last]);
    var pending := Run(c, s, waiting);
    assert [last][..0] == [] && Run(c, pending, []) == pending;
    assert Run(c, pending, [last]) == Step(c, pending, last).0;
  }

  /** The full life of a window. A success seen while idle arms it; after
      delayLimit - 2 steps that are not failures, the next step (the
      (delayLimit - 1)th after the arming one, the 99th by default) closes it,
      and a success is counted exactly when that step is not a failure and
      satisfies the success predicate itself. */
  lemma WindowClosesAfterCountdown(c: Config, s: State, arm: StepInput, waiting: seq<StepInput>, last: StepInput)
    requires c.delayLimit >= 2 && !s.inProgress
    requires !Failed(c, arm.env) && Succeeded(c, arm.env)
    requires |waiting| == c.delayLimit - 2
    requires forall k :: 0 <= k < |waiting| ==> !Failed(c, waiting[k].env)
    ensures var r := Run(c, s, [arm] + waiting + [last]);
      !r.inProgress
      && r.successes == s.successes + (if !Failed(c, last.env) && Succeeded(c, last.env) then 1 else 0)
      && r.failures == s.failures + (if Failed(c, last.env) then 1 else 0)
  {
    assert [arm][..0] == [] && Run(c, s, []) == s;
    var armed := Run(c, s, [arm]);
    assert armed == Step(c, s, arm).0;
    PendingWindowResolves(c, armed, waiting, last);
    RunAppend(c, s, [arm], waiting + [last]);
    assert [arm] + waiting + [last] == [arm] + (waiting + [last]);
  }

  /** Without success steps, the success counter does not move. */
  lemma {:induction false} NoSuccessKeepsSuccesses(c: Config, s: State, inputs: seq<StepInput>)
    requires forall j :: 0 <= j < |inputs| ==> !Succeeded(c, inputs[j].env)
    ensures Run(c, s, inputs).successes == s.successes
  {
    if inputs != [] {
      var prefix := inputs[..|inputs| - 1];
      assert !Succeeded(c, inputs[|inputs| - 1].env);
      NoSuccessKeepsSuccesses(c, s, prefix);
    }
  }

  /** Over steps that end no episode, a non-negative tank follows the
      closed form of repeated clamped consumption. */
  lemma {:induction false} RunDrainsFuel(c: Config, s: State, inputs: seq<StepInput>)
    requires 0.0 <= s.fuel && 0.0 <= c.rate
    requires forall k :: 0 <= k < |inputs| ==> !Terminal(inputs[k].env)
    ensures Run(c, s, inputs).fuel == Drain(s.fuel, c.rate, |inputs|)
  {
    if inputs != [] {
      var prefix := inputs[..|inputs| - 1];
      RunDrainsFuel(c, s, prefix);
      DrainClosedForm(s.fuel, c.rate, |prefix|);
      assert !Terminal(inputs[|inputs| - 1].env);
    }
  }

  /** With the default configuration a full tank is empty after exactly
      1000 steps within one episode, and not before. */
  lemma DefaultTankEmptiesAfterThousandSteps(s: State, inputs: seq<StepInput>)
    requires s.fuel == 10.0
    requires forall k :: 0 <= k < |inputs| ==> !Terminal(inputs[k].env)
    ensures OutOfFuel(Run(DefaultConfig, s, inputs).fuel) <==> |inputs| >= 1000
  {
    RunDrainsFuel(DefaultConfig, s, inputs);
    DefaultTankLastsThousandSteps(|inputs|);
  }

  /** An empty tank stays empty, and every action is the neutral one,
      until a step ends the episode. */
  lemma {:induction false} EmptyTankForcesNeutral(c: Config, s: State, inputs: seq<StepInput>)
    requires s.fuel == 0.0
    requires forall k :: 0 <= k < |inputs| ==> !Terminal(inputs[k].env)
    ensures Run(c, s, inputs).fuel == 0.0
    ensures forall k :: 0 <= k < |inputs| ==> Actions(c, s, inputs)[k] == Neutral
  {
    if inputs != [] {
      var prefix := inputs[..|inputs| - 1];
      EmptyTankForcesNeutral(c, s, prefix);
      assert !Terminal(inputs[|inputs| - 1].env);
    }
  }

  /** The k-th action of a run is forced to neutral exactly when the tank
      is empty after the first k steps, and is the policy's action otherwise. */
  lemma {:induction false} ActionForcedExactlyWhenEmpty(c: Config, s: State, inputs: seq<StepInput>, k: nat)
    requires k < |inputs|
    ensures Actions(c, s, inputs)[k] ==
            (if Run(c, s, inputs[..k]).fuel <= 0.0 then Neutral else inputs[k].policyAction)
  {
    var prefix := inputs[..|inputs| - 1];
    if k < |prefix| {
      ActionForcedExactlyWhenEmpty(c, s, prefix, k);
      assert prefix[..k] == inputs[..k];
    }
  }

  /** A step that ends the episode always leaves a full tank, so the first
      step of the next episode is never forced when the capacity is positive. */
  lemma RefillAfterEpisode(c: Config, s: State, i: StepInput, next: StepInput)
    requires 0.0 < c.maxFuel && Terminal(i.env)
    ensures Step(c, Step(c, s, i).0, next).1 == next.policyAction
  {
  }
}

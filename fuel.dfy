/**
 * The fuel governor: the out-of-fuel test, the clamped per-step
 * consumption, and what repeated consumption adds up to.
 */
module Fuel {

  function Max(a: real, b: real): (m: real)
    ensures a <= m && b <= m && (m == a || m == b)
  {
    if a < b then b else a
  }

  /** The tank counts as empty at or below zero; for a tank that is never
      negative that means exactly zero. */
  function OutOfFuel(fuel: real): (empty: bool)
    ensures 0.0 <= fuel ==> (empty <==> fuel == 0.0)
  {
    fuel <= 0.0
  }

  /** One step of consumption: a tank that is not empty loses `rate`, and
      the result is clamped at zero; an empty tank is left as it is. */
  function Consume(fuel: real, rate: real): (r: real)
    ensures OutOfFuel(fuel) ==> r == fuel
    ensures 0.0 <= fuel && 0.0 <= rate ==> 0.0 <= r <= fuel
  {
    if !OutOfFuel(fuel) then
      var left := fuel - rate;
      if left < 0.0 then 0.0 else left
    else fuel
  }

  /** The tank after `steps` consecutive consumptions. */
  function Drain(fuel: real, rate: real, steps: nat): (r: real)
    ensures 0.0 <= fuel && 0.0 <= rate ==> 0.0 <= r <= fuel
  {
    if steps == 0 then fuel else Consume(Drain(fuel, rate, steps - 1), rate)
  }

  /** Starting from a non-negative tank, k steps leave max(0, fuel - k * rate). */
  lemma {:induction false} DrainClosedForm(fuel: real, rate: real, steps: nat)
    requires 0.0 <= fuel && 0.0 <= rate
    ensures Drain(fuel, rate, steps) == Max(0.0, fuel - steps as real * rate)
  {
    if steps > 0 {
      DrainClosedForm(fuel, rate, steps - 1);
      ConsumeAfterDrain(fuel, rate, steps);
    }
  }

  /** One more consumption after k - 1 steps lands on the closed form for k. */
  lemma ConsumeAfterDrain(fuel: real, rate: real, steps: nat)
    requires 0.0 <= fuel && 0.0 <= rate && 0 < steps
    ensures Consume(Max(0.0, fuel - (steps - 1) as real * rate), rate) == Max(0.0, fuel - steps as real * rate)
  {
    assert steps as real * rate == (steps - 1) as real * rate + rate;
  }

  /** A tank of 10.0 draining 0.01 per step is empty after exactly 1000 steps
      and not before. */
  lemma DefaultTankLastsThousandSteps(steps: nat)
    ensures OutOfFuel(Drain(10.0, 0.01, steps)) <==> steps >= 1000
  {
    DrainClosedForm(10.0, 0.01, steps);
  }
}

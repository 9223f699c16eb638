# LunarLander landing monitor

A Dafny model of the per-step landing monitor that the two training scripts of
this repository (`Foguete1.py` and `DQNLunarLanderV3.py`) wrap around a
LunarLander-v3 environment. The two scripts hold the same monitor logic line for
line. It is modelled once here; the table below maps each piece to its lines in
both files.

On every step the monitor does four things, in this order:

1. It asks the fuel governor (`check_fuel`) whether the tank is empty. If it is,
   the action is forced to 0 ("do nothing") and the tank is pinned at 0.
   Otherwise the policy's action is used.
2. It takes the environment's answer (observation, `terminated`, `truncated`)
   and classifies it failure-first with `is_landing_failure` and
   `is_landing_success`. A failure is counted at once and cancels any pending
   window. A success seen while idle arms a debounce window of
   `landing_delay_limit` (100) steps. A pending window counts down on every step,
   and when the countdown reaches zero it commits one success only if the
   current step satisfies the success predicate.
3. It consumes `fuel_consumption_rate` (0.01) from a tank that is not empty,
   clamping at 0.
4. On a terminal step it refills the tank to `max_fuel` (10).

Files:

- `landing.dfy` (module `Landing`): the observation, the thresholds, and the two
  outcome predicates with their default values.
- `fuel.dfy` (module `Fuel`): `check_fuel`, one step of clamped consumption, and
  the closed form of repeated consumption.
- `monitor.dfy` (module `Monitor`): the monitor state and one step as functions
  (`Govern`, `Debounce`, `Burn`, `EndEpisode`, composed by `Step`), plus `Run`
  and `Actions` over a sequence of steps.
- `monitor_lemmas.dfy` (module `MonitorLemmas`): properties over several steps,
  covering the debounce window's timing and the fuel drain.
- `landing_loop.dfy` (module `LandingLoop`): class `LandingMonitor`. It holds the
  scripts' module-level variables as fields updated in place. `Tick` is the loop
  body and `RunBlock` is the inner `for` loop. Each method is proved equal to
  the matching function of `Monitor`.

Three points of the code that are easy to misread:

- `landing_delay_limit` is 100, but the counter is decremented on the arming
  step itself, so the commit check happens 99 steps after arming
  (`WindowClosesAfterCountdown`).
- The success test hard-codes `pos_y <= 0` and ignores its `height_threshold`.
  A slow, upright, one-leg terminal state at y = 0.05 is therefore neither a
  failure nor a success (`HoveringTouchdownIsNeither`).
- No observation is kept while a window is pending. Only the current step is
  checked when the countdown reaches zero.

Design observations that the model makes visible without changing them:

- Both predicates hold only on terminal steps. The arming step and the
  committing step must therefore both be terminal, and exactly
  `landing_delay_limit - 1` steps apart. Since every terminal step also ends the
  episode, a success is counted only when two landings in different episodes
  happen to fall that far apart.
- Intermediate steps that are not failures never cancel a pending window
  (`PendingCountsDown`).
- With the default thresholds no observation is both a failure and a success
  (`DefaultsAreExclusive`). The failure-first priority therefore never has to
  choose between them.

## Line correspondence

| piece | Foguete1.py | DQNLunarLanderV3.py |
|---|---|---|
| `is_landing_failure` | 8-25 | 15-28 |
| `is_landing_success` | 28-51 | 31-48 |
| state and constants | 89-109 | 87-99 |
| `check_fuel` | 112-113 | 101-102 |
| loop body: forced action | 123-129 | 109-113 |
| loop body: classify and debounce | 133-151 | 117-130 |
| loop body: fuel consumption | 153-157 | 132-135 |
| loop body: episode reset | 159-162 | 137-139 |

## Model

| member | source | states |
|---|---|---|
| Landing.IsLandingFailure | Foguete1.py:8-25 | a failure is only ever reported on a terminated or truncated step |
| Landing.IsLandingSuccess | Foguete1.py:28-51 | a success is only ever reported on a terminal step with the craft at or below y = 0 and a leg in contact |
| Landing.NonTerminalIsOngoing | DQNLunarLanderV3.py:15-48 | on a step that is neither terminated nor truncated both predicates are false, for every observation and threshold |
| Landing.FailureWithDefaults | DQNLunarLanderV3.py:15-28 | with the default keyword values, failure is exactly: terminal and (y <= 0.1 and abs(vy) > 2.0, or x < -0.2, or x > 0.2, or abs(angle) > 0.2); the x bounds are strict |
| Landing.SuccessWithDefaults | DQNLunarLanderV3.py:31-48 | with the default keyword values, success is exactly: terminal, y <= 0, abs(vy) < 0.5, abs(vx) < 0.5, -0.2 <= x <= 0.2 (inclusive), abs(angle) < 0.2, and a non-zero leg flag |
| Landing.SuccessIgnoresHeight | Foguete1.py:28-44 | changing the success predicate's height threshold never changes its answer |
| Landing.NestedThresholdsAreExclusive | Foguete1.py:8-51 | if the success thresholds are no looser than the failure ones, no observation is both a failure and a success |
| Landing.DefaultsAreExclusive | Foguete1.py:133-142 | with the default values the two outcomes never hold together, so the failure-first branch never overrides a success |
| Landing.HoveringTouchdownIsNeither | Foguete1.py:17-49 | a slow, upright, one-leg terminal state at y = 0.05 is neither outcome; the same state at y = 0 is a success and not a failure |
| Fuel.OutOfFuel | Foguete1.py:112-113 | for a tank that is never negative, the empty test holds exactly when the tank is at zero |
| Fuel.Consume | Foguete1.py:153-157 | an empty tank is left as it is; a non-negative tank with a non-negative rate stays within [0, old level] |
| Fuel.Drain | Foguete1.py:153-157 | repeated consumption keeps a non-negative tank within [0, its starting level] |
| Fuel.DrainClosedForm | Foguete1.py:153-157 | k consecutive consumptions leave max(0, fuel - k * rate) |
| Fuel.DefaultTankLastsThousandSteps | Foguete1.py:95-97 | a tank of 10 draining 0.01 per step is empty after exactly 1000 steps and not before (real arithmetic) |
| Monitor.Initial | Foguete1.py:89-96 | the counters start at zero, no window is pending, the tank is full, and this start state satisfies the invariant |
| Monitor.Govern | Foguete1.py:123-129 | on an empty tank the action is 0 and the tank is pinned at zero; otherwise the policy's action is used and nothing changes; on a never-negative tank the state is unchanged either way |
| Monitor.Debounce | Foguete1.py:133-151 | a failure adds exactly one failure, closes the window and changes nothing else; a success while idle arms the window at limit - 1; a pending window counts down by one on every non-failure step and is never re-armed; at most one success is added, exactly when the countdown reaches zero on a non-failure step that satisfies the success predicate; a pending window always has 1 to limit - 1 steps left |
| Monitor.Burn | Foguete1.py:153-157 | only the tank changes; a tank with fuel drops to max(0, fuel - rate), an empty one is left alone, and the invariant is preserved |
| Monitor.EndEpisode | Foguete1.py:159-162 | a terminal step refills the tank to max_fuel and changes nothing else; any other step changes nothing; the invariant is preserved |
| Monitor.Step | Foguete1.py:121-162 | the action is forced to 0 exactly when the tank is empty at the start of the step; a terminal step ends with a full tank; a non-terminal step with fuel leaves max(0, fuel - rate), and an empty tank stays at 0; failures grow by one exactly on failure steps; successes grow by at most one and only on terminal success steps; the fuel bounds and window invariant are preserved; apart from the tank the step is the debounce phase |
| Monitor.Run | DQNLunarLanderV3.py:108-139 | over any finite sequence of steps both counters never decrease, together they grow by at most one per step, and the invariant is preserved |
| Monitor.Actions | Foguete1.py:121-131 | one action is sent to the environment per step; what each action is (0 exactly when the tank is empty, the policy's otherwise) is stated by MonitorLemmas.ActionForcedExactlyWhenEmpty |
| MonitorLemmas.RunAppend | Foguete1.py:121-162 | running two blocks of steps one after the other is running their concatenation |
| MonitorLemmas.PendingCountsDown | Foguete1.py:145-147 | steps that are not failures never cancel a pending window: each lowers the countdown by one and adds no count |
| MonitorLemmas.PendingWindowResolves | DQNLunarLanderV3.py:125-130 | a pending window closes on its last counted step, adding a success exactly when that step is a non-failure success step, and a failure exactly when it is a failure step |
| MonitorLemmas.WindowClosesAfterCountdown | Foguete1.py:139-151 | after a success arms an idle window and limit - 2 non-failure steps pass, the next step (the 99th after arming by default) closes it and commits one success exactly when that step itself is a non-failure success step |
| MonitorLemmas.NoSuccessKeepsSuccesses | DQNLunarLanderV3.py:117-130 | without a step that satisfies the success predicate, the success counter never moves |
| MonitorLemmas.RunDrainsFuel | DQNLunarLanderV3.py:132-135 | within one episode a non-negative tank follows the closed form of repeated clamped consumption |
| MonitorLemmas.DefaultTankEmptiesAfterThousandSteps | Foguete1.py:94-97 | with the default configuration and a full tank, the empty test holds after k steps of one episode exactly when k >= 1000 |
| MonitorLemmas.ActionForcedExactlyWhenEmpty | Foguete1.py:122-129 | along any run, the action of each step is 0 exactly when the tank is empty after the steps before it, and the policy's action otherwise |
| MonitorLemmas.EmptyTankForcesNeutral | Foguete1.py:123-129 | once the tank is at zero it stays there and every action is 0 until a step ends the episode |
| MonitorLemmas.RefillAfterEpisode | Foguete1.py:159-162 | with a positive capacity, the step after a terminal step always uses the policy's action |
| LandingLoop.LandingMonitor.constructor | Foguete1.py:89-96 | the counters start at zero, no window is pending and the tank is full |
| LandingLoop.LandingMonitor.ChooseAction | Foguete1.py:123-129 | the action is 0 with the tank pinned at zero when it is empty, and the policy's action otherwise |
| LandingLoop.LandingMonitor.Classify | Foguete1.py:133-151 | the in-place update of counters, flag and countdown equals Monitor.Debounce |
| LandingLoop.LandingMonitor.ConsumeFuel | Foguete1.py:153-157 | the in-place fuel update equals one clamped consumption and keeps the tank within [0, max_fuel] |
| LandingLoop.LandingMonitor.ResetOnEpisodeEnd | Foguete1.py:159-162 | a terminal step refills the tank; other steps leave it alone |
| LandingLoop.LandingMonitor.Tick | DQNLunarLanderV3.py:108-139 | the loop body's new state and action equal Monitor.Step, and the invariant holds after every step |
| LandingLoop.LandingMonitor.RunBlock | Foguete1.py:121-162 | running a block of steps in place gives the state of Monitor.Run and the actions of Monitor.Actions |

## Left out

- The DQN policy: `model.predict` becomes the `policyAction` input of each step. `model.learn` and `model.save` are not modelled. They belong to a foreign training library.
- The environment: `gym.make`, `make_vec_env`, `env.step`, `env.reset`, `env.render` and `env.close` are not modelled. Each step's observation and terminal flags are inputs. The observation that `env.reset` returns feeds only the policy, so it is not kept either.
- All pygame work: display set-up, fonts, text overlays, frame transposition and blitting, and `clock.tick` pacing. It is all display and timing I/O, and none of it affects the counters or the tank.
- The SDL environment-variable settings at DQNLunarLanderV3.py:3-6. They are process set-up.
- The outer `while current_timesteps < total_timesteps` loop. `current_timesteps` is never updated, so that loop never ends. The model covers arbitrary finite sequences of steps instead (`Run`, `RunBlock`).
- The unused values `reward`, `info`, `max_episodes`, `n_envs` and `vec_env`. The predicates take `reward` but never read it, so it is dropped from their parameters.
- Floating point: observations, thresholds and fuel are exact reals, not IEEE-754 floats. The "empty after exactly 1000 steps" result holds for reals. Repeated float subtraction of 0.01 need not land exactly on 0.0.
- Leg-contact flags are reals tested for being non-zero, as Python's truthiness does. NaN is not modelled.
- LandingLoop.LandingMonitor.constructor: it requires a non-negative capacity and a non-negative rate. The scripts hard-code 10 and 0.01 and never check them.

# Production agents with a pre-bound random function

This project models `rand_example.py`. A `ProductionAgent` has a fixed
production rate, an optional pre-bound random function and a running total
`work_to_date`. Each step adds the rate to the total, or the rate times one
sample from the random function when one is bound. A `MyModel` builds
`num_agents` agents that share one rate and one random function. Each model
step counts the step, lets the scheduler step every agent once and sums the
agents' totals.

The model is one module, `RandExample`, in `rand_example.dfy`:

- `ProductionAgent` is a class whose `Step` updates `workToDate` in place.
  The rate and the random function are set once, at construction, and are
  constants. A ghost field `draws` records the sample supplied at each step.
  `Valid()` ties the total to the specification function `WorkAfter`.
- `MyModel` is a class holding the agents in a `seq` plus `numSteps`. Its
  constructor creates the agents in a loop. Its `Step` takes the scheduler's
  activation order and the stream of samples in the order the shared random
  function is called: the `k`-th agent activated receives the `k`-th sample.
  `Step` first calls `Advance`, which counts the step and runs the scheduler
  pass, then sums the totals. `TotalProduction()` is the sum of the agents'
  totals.
- `ActivateAll` is the scheduler pass: it steps each agent once in a given
  order and reports, as a ghost result, which sample each agent received.
- The lemmas cover: the total with no random function, the total as the rate
  times the sum of samples, monotonicity, bounds for bounded samples, and the
  model-level total.

Randomness is a parameter. Each value the bound random function would return
is an explicit `real` argument. It is used only when a random function is bound.
The random function itself (`functools.partial` over `random.triangular` or
`random.uniform`) is the value `Sampler`. Only its identity is stored. Python
floats are exact `real`s.

`random.uniform(0.75, 1.25)` may return either end point, so five steps at
rate 10 give each agent a total in the closed interval [37.5, 62.5].
`range(num_agents)` with a negative `num_agents` is empty, so such a model has
no agents; the model keeps `numAgents` as given and builds `max(0, numAgents)`
agents.

## Model

| member | source | states |
|---|---|---|
| RandExample.ProductionAgent.constructor | rand_example.py:11-16 | a new agent stores the given id, rate and random function, has total 0 and has taken no step |
| RandExample.ProductionAgent.Step | rand_example.py:19-26 | a step adds the rate when no random function is bound, otherwise rate times the sample; it records exactly one sample and may change only the running total (the rate and the random function are constants) |
| RandExample.WorkWithoutSampler | rand_example.py:23-24 | with no random function bound, N steps give a total of rate times N |
| RandExample.WorkWithSampler | rand_example.py:25-26 | with a random function bound, the total is the rate times the sum of the samples, one per step |
| RandExample.WorkIsSumOfIncrements | rand_example.py:19-26 | the total after N steps is the sum of the N per-step increments (rate times sample, sample 1 when none is bound) |
| RandExample.IncrementNonNegative | rand_example.py:23-26 | a step never lowers the total when the rate and the sample are non-negative |
| RandExample.WorkNeverDecreases | rand_example.py:23-26 | with a non-negative rate and non-negative samples, further steps never lower the total |
| RandExample.IncrementBounded | rand_example.py:25-26 | for a non-negative rate and a sample in [lo, hi], one step adds between rate*lo and rate*hi |
| RandExample.WorkBounded | rand_example.py:25-26 | for a non-negative rate and N samples in [lo, hi], the total lies between rate*lo*N and rate*hi*N |
| RandExample.UniformExample | rand_example.py:68-72 | rate 10 with samples from a uniform [0.75, 1.25] over five steps gives each agent's total in [37.5, 62.5] |
| RandExample.MyModel.constructor | rand_example.py:32-46 | the model keeps num_agents, has taken no step, and holds max(0, num_agents) distinct fresh agents with ids 0.. in order, all with the given rate and random function and total 0 |
| RandExample.MyModel.Step | rand_example.py:48-52 | the step counter grows by exactly 1; every agent takes exactly one step, the `k`-th agent activated receiving the `k`-th sample of the stream; the returned total is the sum of the agents' totals, and for every activation order it equals the old total plus the sum of the increments of the stream's samples |
| RandExample.MyModel.Advance | rand_example.py:50-51 | the step counter grows by exactly 1 and every agent takes exactly one step, the `k`-th agent activated receiving the `k`-th sample; the model invariant (shared rate and random function, one recorded sample per step) is kept |
| RandExample.MyModel.TotalProduction | rand_example.py:52 | the sum of the agents' running totals, in agent order; when no running total is negative, the sum is non-negative and at least every agent's own total |
| RandExample.SumAfterActivation | rand_example.py:51-52 | when a scheduler pass adds to each agent's total the increment for the sample that agent received, the summed total grows by the sum of the increments of the samples in call order, whatever the activation order |
| RandExample.SumOfNonNegatives | rand_example.py:52 | a sum of non-negative totals is non-negative and bounds each of them |
| RandExample.ActivateAll | rand_example.py:51 | stepping the agents once each in the activation order gives the `k`-th agent activated the `k`-th sample and exactly one step; every agent stays valid |
| RandExample.SumReordered | rand_example.py:51-52 | handing the samples to the agents in any activation order leaves the sum of the increments unchanged |
| RandExample.SumActivated | rand_example.py:51-52 | activating distinct agents one after another, each gaining its increment, raises the summed total by the sum of the increments |
| RandExample.SumPointwise | rand_example.py:52 | the sum of the agents' totals after a step is the old sum plus the sum of the per-agent increments |
| RandExample.ActivationOrderCoversAll | rand_example.py:51 | an activation order of n distinct indices below n visits every agent |
| RandExample.AgentWorksWithoutSampler | rand_example.py:23-24 | with no random function bound, every agent of a model has done the rate times the number of steps taken |
| RandExample.TotalWithoutSampler | rand_example.py:48-52 | with no random function bound, the total production is agents times rate times steps taken |

## Left out

- The mesa framework is not part of this model. This covers the `mesa.Agent` and `mesa.Model` base classes and the agent's back-reference to its model (lines 6, 13, 36). It also covers the shuffling and the step and time counters of `mesa.time.RandomActivation` (line 40). The shuffled order is an input of `MyModel.Step` that must list every agent exactly once.
- The random functions are not modelled. `random.triangular`, `random.uniform` and `functools.partial` (lines 60, 68) are foreign calls that return floating-point draws. Each draw is an unconstrained `real`, which covers whatever the bound function returns.
- The demo's triangular distribution has `mode=0.25` outside `[0.75, 1.25]` (lines 57-60). Its samples are not assumed to lie in that range. Only the bounds lemmas, with an explicit range precondition, speak about sample ranges.
- Console output (lines 17, 53) is not modelled. The total that line 53 prints is instead returned by `MyModel.Step`; the source's `step` returns nothing.
- The `__main__` demo (lines 56-72) is not modelled, apart from the bound on each agent's total stated in `UniformExample`. The demo's second model has two agents, so its printed total is the sum of two such totals.
- The model uses exact `real` arithmetic, not floating-point rounding.
- Python default arguments (`production=10`, `num_agents=1`, `default_production=10`, no random function) are not modelled. The Dafny constructors take every argument explicitly.

/** A production agent that accumulates work once per step, optionally scaled by
    a sample from a pre-bound random function, and the model that owns a group
    of such agents, steps each of them once per model step and reports the sum
    of their totals.

    Randomness is not modelled: every sample the source would draw from the
    bound random function is passed in as an explicit `real` argument. Python
    floats become exact `real`s. */
module RandExample {

  datatype Option<T> = None | Some(value: T)

  /** A pre-bound random function: the distribution and the fixed arguments it
      was bound with. Only its identity is modelled; what it returns when
      called is the caller-supplied draw. */
  datatype Sampler =
    | Triangular(low: real, high: real, mode: real)
    | Uniform(a: real, b: real)

  // ---------------------------------------------------------------------------
  // Specification functions
  // ---------------------------------------------------------------------------

  /** What one agent step adds to the running total: the production rate when
      no random function is bound, otherwise the rate times the sample drawn. */
  function Increment(production: real, randfunc: Option<Sampler>, draw: real): real
  {
    if randfunc.None? then production else production * draw
  }

  /** The running total after one step per element of `draws`, taken in order
      from a total of 0. */
  function WorkAfter(production: real, randfunc: Option<Sampler>, draws: seq<real>): real
  {
    if |draws| == 0 then 0.0
    else WorkAfter(production, randfunc, draws[..|draws| - 1])
         + Increment(production, randfunc, draws[|draws| - 1])
  }

  /** The per-step increments for a sequence of draws. */
  function Increments(production: real, randfunc: Option<Sampler>, draws: seq<real>): seq<real>
  {
    seq(|draws|, i requires 0 <= i < |draws| => Increment(production, randfunc, draws[i]))
  }

  /** The sum of a sequence of reals (Python's built-in `sum`). */
  function Sum(s: seq<real>): real
  {
    if |s| == 0 then 0.0 else Sum(s[..|s| - 1]) + s[|s| - 1]
  }

  /** The running totals of a sequence of agents, in order. */
  function Works(agents: seq<ProductionAgent>): (r: seq<real>)
    reads set a | a in agents
    ensures |r| == |agents|
    ensures forall i :: 0 <= i < |agents| ==> r[i] == agents[i].workToDate
  {
    seq(|agents|, i reads set a | a in agents requires 0 <= i < |agents| => agents[i].workToDate)
  }

  /** An activation order for `n` agents: every index below `n` exactly once. */
  predicate IsActivationOrder(order: seq<nat>, n: nat)
  {
    |order| == n
    && (forall k :: 0 <= k < |order| ==> order[k] < n)
    && (forall k, l :: 0 <= k < l < |order| ==> order[k] != order[l])
  }

  // ---------------------------------------------------------------------------
  // The agent
  // ---------------------------------------------------------------------------

  /** An agent that does work. `draws` records the sample supplied to each step
      taken so far, so that `Valid` can tie the running total to `WorkAfter`. */
  class ProductionAgent {
    const uniqueId: int
    const randfunc: Option<Sampler>
    const production: real
    var workToDate: real
    ghost var draws: seq<real>

    ghost predicate Valid()
      reads this
    {
      workToDate == WorkAfter(production, randfunc, draws)
    }

    /** A fresh agent keeps the rate and random function it was given and has
        done no work yet. */
    constructor (uniqueId: int, production: real, randomFunction: Option<Sampler>)
      ensures Valid()
      ensures this.uniqueId == uniqueId
      ensures this.production == production && randfunc == randomFunction
      ensures workToDate == 0.0 && draws == []
    {
      this.uniqueId := uniqueId;
      randfunc := randomFunction;
      this.production := production;
      workToDate := 0.0;
      draws := [];
    }

    /** Do one step of work; `draw` stands for the value the bound random
        function returns and is ignored when none is bound. */
    method Step(draw: real)
      requires Valid()
      modifies this`workToDate, this`draws
      ensures Valid()
      ensures draws == old(draws) + [draw]
      ensures workToDate == old(workToDate) + Increment(production, randfunc, draw)
    {
      if randfunc.None? {
        workToDate := workToDate + production;
      } else {
        workToDate := workToDate + production * draw;
      }
      draws := draws + [draw];
    }
  }

  // ---------------------------------------------------------------------------
  // The model
  // ---------------------------------------------------------------------------

  /** A model owning `numAgents` agents that share one production rate and one
      random function. `production` and `randomizer` record the construction
      arguments every agent was built with. */
  class MyModel {
    var numAgents: int
    var numSteps: nat
    var agents: seq<ProductionAgent>
    ghost var production: real
    ghost var randomizer: Option<Sampler>

    ghost predicate Valid()
      reads this, set a | a in agents
    {
      |agents| == (if numAgents < 0 then 0 else numAgents)
      && (forall i, j :: 0 <= i < j < |agents| ==> agents[i] != agents[j])
      && (forall i :: 0 <= i < |agents| ==>
            agents[i].uniqueId == i
            && agents[i].production == production
            && agents[i].randfunc == randomizer
            && |agents[i].draws| == numSteps
            && agents[i].Valid())
    }

    /** Total production: the sum of the agents' running totals. When no
        running total is negative, neither is the sum, and no agent's total
        exceeds it. */
    function TotalProduction(): (r: real)
      reads this, set a | a in agents
      ensures (forall i :: 0 <= i < |agents| ==> agents[i].workToDate >= 0.0) ==>
                r >= 0.0 && forall i :: 0 <= i < |agents| ==> agents[i].workToDate <= r
    {
      SumOfNonNegatives(Works(agents));
      Sum(Works(agents))
    }

    /** Creates one agent per id in `range(numAgents)`, all with the same
        production rate and random function; no step has been taken. */
    constructor (numAgents: int, defaultProduction: real, productionRandomizer: Option<Sampler>)
      ensures Valid()
      ensures this.numAgents == numAgents && numSteps == 0
      ensures production == defaultProduction && randomizer == productionRandomizer
      ensures forall i :: 0 <= i < |agents| ==> fresh(agents[i]) && agents[i].workToDate == 0.0
    {
      var built: seq<ProductionAgent> := [];
      var i := 0;
      while i < numAgents
        invariant 0 <= i <= (if numAgents < 0 then 0 else numAgents)
        invariant |built| == i
        invariant forall j, k :: 0 <= j < k < i ==> built[j] != built[k]
        invariant forall k :: 0 <= k < i ==>
                    fresh(built[k])
                    && built[k].uniqueId == k
                    && built[k].production == defaultProduction
                    && built[k].randfunc == productionRandomizer
                    && built[k].workToDate == 0.0
                    && built[k].draws == []
      {
        var a := new ProductionAgent(i, defaultProduction, productionRandomizer);
        built := built + [a];
        i := i + 1;
      }
      this.numAgents := numAgents;
      numSteps := 0;
      agents := built;
      production := defaultProduction;
      randomizer := productionRandomizer;
    }

    /** Advance the model by one step: count the step, then step every agent
        once in the activation order `order`. The shared random function is
        called once per activation, so the `k`-th agent activated,
        `agents[order[k]]`, receives `draws[k]`; `received[i]` is the draw
        agent `i` got. Returns the total production after the step, which for
        a given stream of draws is the same whatever the order. */
    method Step(order: seq<nat>, draws: seq<real>) returns (totalProduction: real, ghost received: seq<real>)
      requires Valid()
      requires IsActivationOrder(order, |agents|)
      requires |draws| == |agents|
      modifies this`numSteps, set a | a in agents
      ensures Valid()
      ensures numSteps == old(numSteps) + 1
      ensures |received| == |agents|
      ensures forall k :: 0 <= k < |order| ==> received[order[k]] == draws[k]
      ensures forall i :: 0 <= i < |agents| ==>
                agents[i].draws == old(agents[i].draws) + [received[i]]
                && agents[i].workToDate == old(agents[i].workToDate) + Increment(production, randomizer, received[i])
      ensures totalProduction == TotalProduction()
      ensures totalProduction == old(TotalProduction()) + Sum(Increments(production, randomizer, draws))
    {
      ghost var before := Works(agents);
      received := Advance(order, draws);
      SumAfterActivation(order, draws, received, production, randomizer, before, Works(agents));
      totalProduction := TotalProduction();
    }

    /** The first two actions of a model step: count the step, then let the
        scheduler step every agent once in the activation order `order`, the
        `k`-th agent activated receiving `draws[k]`. */
    method Advance(order: seq<nat>, draws: seq<real>) returns (ghost received: seq<real>)
      requires Valid()
      requires IsActivationOrder(order, |agents|)
      requires |draws| == |agents|
      modifies this`numSteps, set a | a in agents
      ensures Valid()
      ensures numSteps == old(numSteps) + 1
      ensures |received| == |agents|
      ensures forall k :: 0 <= k < |order| ==> received[order[k]] == draws[k]
      ensures forall i :: 0 <= i < |agents| ==>
                agents[i].draws == old(agents[i].draws) + [received[i]]
                && agents[i].workToDate == old(agents[i].workToDate) + Increment(production, randomizer, received[i])
    {
      numSteps := numSteps + 1;
      received := ActivateAll(agents, order, draws);
    }
  }

  /** One scheduler pass: step each agent once, in the activation order
      `order`, the `k`-th agent activated receiving the `k`-th draw;
      `received[i]` is the draw agent `i` got. */
  method ActivateAll(agents: seq<ProductionAgent>, order: seq<nat>, draws: seq<real>) returns (ghost received: seq<real>)
    requires forall i, j :: 0 <= i < j < |agents| ==> agents[i] != agents[j]
    requires forall i :: 0 <= i < |agents| ==> agents[i].Valid()
    requires IsActivationOrder(order, |agents|)
    requires |draws| == |agents|
    modifies set a | a in agents
    ensures |received| == |agents|
    ensures forall k :: 0 <= k < |order| ==> received[order[k]] == draws[k]
    ensures forall i :: 0 <= i < |agents| ==>
              agents[i].Valid()
              && agents[i].draws == old(agents[i].draws) + [received[i]]
              && agents[i].workToDate
                 == old(agents[i].workToDate) + Increment(agents[i].production, agents[i].randfunc, received[i])
  {
    ActivationOrderCoversAll(order, |agents|);
    received := draws;
    var k := 0;
    while k < |order|
      invariant 0 <= k <= |order|
      invariant |received| == |agents|
      invariant forall j :: 0 <= j < k ==> received[order[j]] == draws[j]
      invariant forall i :: 0 <= i < |agents| ==> agents[i].Valid()
      invariant forall i :: 0 <= i < |agents| && i in order[..k] ==>
                  agents[i].draws == old(agents[i].draws) + [received[i]]
                  && agents[i].workToDate
                     == old(agents[i].workToDate) + Increment(agents[i].production, agents[i].randfunc, received[i])
      invariant forall i :: 0 <= i < |agents| && i !in order[..k] ==>
                  agents[i].draws == old(agents[i].draws)
                  && agents[i].workToDate == old(agents[i].workToDate)
    {
      var i := order[k];
      assert order[..k + 1] == order[..k] + [i];
      assert i !in order[..k];
      assert forall j :: 0 <= j < |agents| && j != i ==> agents[j] != agents[i];
      received := received[i := draws[k]];
      agents[i].Step(draws[k]);
      k := k + 1;
    }
    assert order[..k] == order;
  }

  // ---------------------------------------------------------------------------
  // Lemmas
  // ---------------------------------------------------------------------------

  /** Every index below `n` occurs in an activation order for `n` agents. */
  lemma {:induction false} ActivationOrderCoversAll(order: seq<nat>, n: nat)
    requires IsActivationOrder(order, n)
    ensures forall i :: 0 <= i < n ==> i in order
    decreases n
  {
    if n == 0 {
      return;
    }
    // Drop the last position; where the dropped value `x` was not last, the
    // value `n - 1` takes its place, giving an activation order for `n - 1`.
    var x := order[n - 1];
    var rest := seq(n - 1, k requires 0 <= k < n - 1 => if order[k] == n - 1 then x else order[k]);
    ActivationOrderCoversAll(rest, n - 1);
    forall i | 0 <= i < n ensures i in order {
      if i == x {
        assert order[n - 1] == i;
      } else if i < n - 1 {
        assert i in rest;
        var k :| 0 <= k < |rest| && rest[k] == i;
        assert order[k] == i;
      } else {
        assert x in rest;
        var k :| 0 <= k < |rest| && rest[k] == x;
        assert order[k] == i;
      }
    }
  }

  /** Replacing one element of a sequence changes its sum by the difference. */
  lemma {:induction false} SumUpdate(s: seq<real>, i: nat, v: real)
    requires i < |s|
    ensures Sum(s[i := v]) == Sum(s) - s[i] + v
  {
    var n := |s| - 1;
    if i == n {
      assert s[i := v][..n] == s[..n];
    } else {
      SumUpdate(s[..n], i, v);
      assert s[i := v][..n] == s[..n][i := v];
    }
  }

  /** Activating the distinct positions `order` of `a` in turn, the `k`-th one
      gaining `b[k]`, adds `Sum(b)` to the sum, whatever the order. */
  lemma {:induction false} SumActivated(order: seq<nat>, a: seq<real>, b: seq<real>, c: seq<real>)
    requires |a| == |c| && |b| == |order|
    requires forall k :: 0 <= k < |order| ==> order[k] < |a|
    requires forall k, l :: 0 <= k < l < |order| ==> order[k] != order[l]
    requires forall j :: 0 <= j < |a| && j !in order ==> c[j] == a[j]
    requires forall k :: 0 <= k < |order| ==> c[order[k]] == a[order[k]] + b[k]
    ensures Sum(c) == Sum(a) + Sum(b)
  {
    if |order| == 0 {
      assert c == a;
    } else {
      var m := |order| - 1;
      var i := order[m];
      var c' := c[i := a[i]];
      assert forall j :: 0 <= j < |a| && j !in order[..m] ==> j == i || j !in order;
      SumActivated(order[..m], a, b[..m], c');
      SumUpdate(c', i, c[i]);
      assert c'[i := c[i]] == c;
    }
  }

  /** The sum of pointwise sums is the sum of the sums. */
  lemma {:induction false} SumPointwise(a: seq<real>, b: seq<real>, c: seq<real>)
    requires |a| == |b| == |c|
    requires forall i :: 0 <= i < |c| ==> c[i] == a[i] + b[i]
    ensures Sum(c) == Sum(a) + Sum(b)
  {
    if |c| > 0 {
      var n := |c| - 1;
      SumPointwise(a[..n], b[..n], c[..n]);
    }
  }

  /** Placing the `k`-th element of `b` at position `order[k]` keeps the sum. */
  lemma SumReordered(order: seq<nat>, b: seq<real>, c: seq<real>)
    requires IsActivationOrder(order, |c|)
    requires |b| == |c|
    requires forall k :: 0 <= k < |order| ==> c[order[k]] == b[k]
    ensures Sum(c) == Sum(b)
  {
    var zeros := seq(|c|, i => 0.0);
    ActivationOrderCoversAll(order, |c|);
    SumConstant(zeros, 0.0);
    SumActivated(order, zeros, b, c);
  }

  /** A scheduler pass that adds to each running total the increment for the
      draw that agent received adds the increments of the draws, taken in call
      order, to the sum of the running totals, whatever the activation order. */
  lemma SumAfterActivation(order: seq<nat>, draws: seq<real>, received: seq<real>,
                           production: real, randfunc: Option<Sampler>, before: seq<real>, after: seq<real>)
    requires IsActivationOrder(order, |before|)
    requires |draws| == |received| == |after| == |before|
    requires forall k :: 0 <= k < |order| ==> received[order[k]] == draws[k]
    requires forall i :: 0 <= i < |before| ==> after[i] == before[i] + Increment(production, randfunc, received[i])
    ensures Sum(after) == Sum(before) + Sum(Increments(production, randfunc, draws))
  {
    SumPointwise(before, Increments(production, randfunc, received), after);
    SumReordered(order, Increments(production, randfunc, draws), Increments(production, randfunc, received));
  }

  /** A sum of non-negative reals is non-negative and bounds each of them. */
  lemma {:induction false} SumOfNonNegatives(s: seq<real>)
    ensures (forall i :: 0 <= i < |s| ==> s[i] >= 0.0) ==>
              Sum(s) >= 0.0 && forall i :: 0 <= i < |s| ==> s[i] <= Sum(s)
  {
    if |s| > 0 {
      SumOfNonNegatives(s[..|s| - 1]);
    }
  }

  /** With no random function bound, `n` steps accumulate `production * n`. */
  lemma {:induction false} WorkWithoutSampler(production: real, draws: seq<real>)
    ensures WorkAfter(production, None, draws) == production * (|draws| as real)
  {
    if |draws| > 0 {
      WorkWithoutSampler(production, draws[..|draws| - 1]);
    }
  }

  /** With a random function bound, the total is the rate times the sum of the
      samples drawn, one sample per step. */
  lemma {:induction false} WorkWithSampler(production: real, sampler: Sampler, draws: seq<real>)
    ensures WorkAfter(production, Some(sampler), draws) == production * Sum(draws)
  {
    if |draws| > 0 {
      WorkWithSampler(production, sampler, draws[..|draws| - 1]);
    }
  }

  /** The running total is the sum over the steps of `production * sample`,
      where the sample is 1 when no random function is bound. */
  lemma {:induction false} WorkIsSumOfIncrements(production: real, randfunc: Option<Sampler>, draws: seq<real>)
    ensures WorkAfter(production, randfunc, draws) == Sum(Increments(production, randfunc, draws))
  {
    if |draws| > 0 {
      var n := |draws| - 1;
      WorkIsSumOfIncrements(production, randfunc, draws[..n]);
      assert Increments(production, randfunc, draws)[..n] == Increments(production, randfunc, draws[..n]);
    }
  }

  /** One step's increment is non-negative when the rate is, and, with a random
      function bound, the sample is too. */
  lemma IncrementNonNegative(production: real, randfunc: Option<Sampler>, draw: real)
    requires production >= 0.0
    requires randfunc.Some? ==> draw >= 0.0
    ensures Increment(production, randfunc, draw) >= 0.0
  {
  }

  /** With a non-negative rate and non-negative samples, further steps never
      decrease the running total. */
  lemma {:induction false} WorkNeverDecreases(production: real, randfunc: Option<Sampler>, draws: seq<real>, more: seq<real>)
    requires production >= 0.0
    requires randfunc.Some? ==> forall i :: 0 <= i < |more| ==> more[i] >= 0.0
    ensures WorkAfter(production, randfunc, draws) <= WorkAfter(production, randfunc, draws + more)
  {
    if |more| == 0 {
      assert draws + more == draws;
    } else {
      var n := |more| - 1;
      WorkNeverDecreases(production, randfunc, draws, more[..n]);
      assert (draws + more)[..|draws + more| - 1] == draws + more[..n];
      assert (draws + more)[|draws + more| - 1] == more[n];
      assert WorkAfter(production, randfunc, draws + more)
          == WorkAfter(production, randfunc, draws + more[..n]) + Increment(production, randfunc, more[n]);
      IncrementNonNegative(production, randfunc, more[n]);
    }
  }

  /** A sample in `[lo, hi]` gives an increment in `[production * lo, production * hi]`
      for a non-negative rate. */
  lemma IncrementBounded(production: real, sampler: Sampler, draw: real, lo: real, hi: real)
    requires production >= 0.0
    requires lo <= draw <= hi
    ensures production * lo <= Increment(production, Some(sampler), draw) <= production * hi
  {
    assert production * draw - production * lo == production * (draw - lo);
    assert production * hi - production * draw == production * (hi - draw);
  }

  /** `n` samples in `[lo, hi]` give a total in `[production * lo * n, production * hi * n]`
      for a non-negative rate. */
  lemma {:induction false} WorkBounded(production: real, sampler: Sampler, draws: seq<real>, lo: real, hi: real)
    requires production >= 0.0
    requires forall i :: 0 <= i < |draws| ==> lo <= draws[i] <= hi
    ensures production * lo * (|draws| as real) <= WorkAfter(production, Some(sampler), draws)
    ensures WorkAfter(production, Some(sampler), draws) <= production * hi * (|draws| as real)
  {
    if |draws| > 0 {
      var n := |draws| - 1;
      WorkBounded(production, sampler, draws[..n], lo, hi);
      IncrementBounded(production, sampler, draws[n], lo, hi);
      assert production * lo * (|draws| as real) == production * lo * (n as real) + production * lo;
      assert production * hi * (|draws| as real) == production * hi * (n as real) + production * hi;
    }
  }

  /** The sum of `n` copies of `x` is `n * x`. */
  lemma {:induction false} SumConstant(s: seq<real>, x: real)
    requires forall i :: 0 <= i < |s| ==> s[i] == x
    ensures Sum(s) == (|s| as real) * x
  {
    if |s| > 0 {
      SumConstant(s[..|s| - 1], x);
    }
  }

  /** With no random function bound, a model's total production is the number
      of agents times the rate times the number of steps taken. */
  lemma TotalWithoutSampler(m: MyModel)
    requires m.Valid()
    requires m.randomizer.None?
    ensures m.TotalProduction() == (|m.agents| as real) * (m.production * (m.numSteps as real))
  {
    AgentWorksWithoutSampler(m);
    SumConstant(Works(m.agents), m.production * (m.numSteps as real));
    assert m.TotalProduction() == Sum(Works(m.agents));
  }

  /** With no random function bound, every agent of a model has done the rate
      times the number of steps taken. */
  lemma AgentWorksWithoutSampler(m: MyModel)
    requires m.Valid()
    requires m.randomizer.None?
    ensures forall i :: 0 <= i < |m.agents| ==> m.agents[i].workToDate == m.production * (m.numSteps as real)
  {
    forall i | 0 <= i < |m.agents| ensures m.agents[i].workToDate == m.production * (m.numSteps as real) {
      WorkWithoutSampler(m.production, m.agents[i].draws);
    }
  }

  /** Rate 10 with a uniform sampler on [0.75, 1.25] for five steps gives a
      total between 37.5 and 62.5. */
  lemma UniformExample(draws: seq<real>)
    requires |draws| == 5
    requires forall i :: 0 <= i < |draws| ==> 0.75 <= draws[i] <= 1.25
    ensures 37.5 <= WorkAfter(10.0, Some(Uniform(0.75, 1.25)), draws) <= 62.5
  {
    WorkBounded(10.0, Uniform(0.75, 1.25), draws, 0.75, 1.25);
  }
}

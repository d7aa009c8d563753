/**
 * The generation controller of LearnToHerd.cs: the width of the network's
 * input layer, the sizing of the configured layers, the move budget that
 * grows each generation, the two triggers of a new generation, and
 * MutateFlock, which breeds the next generation of networks from the
 * fitness each dog's flock reached.
 */
module LearnToHerd {
  import opened Numerics
  import opened Activation
  import opened Tensors
  import opened NeuralNetwork
  import opened Population
  import F = Flock

  /*
   * The input layer.
   */

  /** The Config values that decide which inputs the network is fed. */
  datatype InputToggles = InputToggles(
    useSheepSensor: bool,
    sheepVisionAngleInDegrees: real,
    usingWallSensors: bool,
    wallSensorSamplePoints: int,
    knowsWhereDogIsOnTheScreen: bool,
    knowsDistanceToSheepCenterOfMass: bool,
    knowsAngleSheepNeedToHead: bool,
    knowsRelativeDistanceDogToCM: bool,
    knowsAngleOfDog: bool,
    knowsAngleRelativeToHerd: bool,
    knowsAngleSheepAreMoving: bool,
    knowsPositionOfCenterOfMass: bool,
    knowsHowCloseItCanGetToSheep: bool)

  /** The number of sectors the sheep sensor reports: (int)(360 / angle). */
  function SheepSensorWidth(t: InputToggles): int
    requires t.sheepVisionAngleInDegrees != 0.0
  {
    Trunc(360.0 / t.sheepVisionAngleInDegrees)
  }

  /** `n` when the toggle is on, 0 otherwise. */
  function When(on: bool, n: int): int
  {
    if on then n else 0
  }

  /**
   * DetermineRequiredNumberOfInputNeurons: the widths of the enabled inputs
   * added up; the distance the dog may approach the sheep is not among them.
   */
  function InputWidth(t: InputToggles): (n: int)
    requires t.sheepVisionAngleInDegrees != 0.0
  {
    When(t.useSheepSensor, SheepSensorWidth(t)) + When(t.usingWallSensors, t.wallSensorSamplePoints) +
    When(t.knowsWhereDogIsOnTheScreen, 2) + When(t.knowsDistanceToSheepCenterOfMass, 1) +
    When(t.knowsAngleSheepNeedToHead, 1) + When(t.knowsRelativeDistanceDogToCM, 2) +
    When(t.knowsAngleOfDog, 1) + When(t.knowsAngleRelativeToHerd, 1) +
    When(t.knowsAngleSheepAreMoving, 1) + When(t.knowsPositionOfCenterOfMass, 2)
  }

  /**
   * The input width the network needs: InputWidth plus the one input the
   * dog appends when it is told how close it may get to the sheep.
   * Dog.Inputs proves that the input vector has exactly this width.
   */
  function RequiredInputWidth(t: InputToggles): int
    requires t.sheepVisionAngleInDegrees != 0.0
  {
    InputWidth(t) + When(t.knowsHowCloseItCanGetToSheep, 1)
  }

  /**
   * The shipped configuration: the sheep sensor with 5.703125-degree sectors
   * and the angle the sheep need to head; every other input is off.
   */
  const DefaultToggles: InputToggles := InputToggles(true, 5.703125, false, 8, false, false, true, false, false, false, false, false, false)

  /** With the shipped toggles there are 63 sheep sectors and one further input. */
  lemma DefaultInputWidth()
    ensures SheepSensorWidth(DefaultToggles) == 63
    ensures InputWidth(DefaultToggles) == 64 && RequiredInputWidth(DefaultToggles) == 64
  {
    assert 63.0 <= 360.0 / 5.703125 < 64.0;
  }

  /*
   * Sizing the configured layers.
   */

  /** How InitialiseNeuralNetworkLayersRequiredForSettings ended. */
  datatype Sizing = Sized | NoLayers | NegativeLayer(index: nat)

  /** A hidden layer of 0 neurons stands for a layer as wide as the input. */
  function HiddenSize(configured: int, inputs: int): (r: int)
    ensures configured != 0 ==> r == configured
    ensures configured == 0 ==> r == inputs
  {
    if configured == 0 then inputs else configured
  }

  /**
   * InitialiseNeuralNetworkLayersRequiredForSettings, in place on the
   * configured layer sizes: the first becomes the input width, then the
   * last becomes 2 (speed and direction; with a single entry that entry
   * is overwritten), then the hidden sizes from the second on are
   * resolved left to right until one is negative, which throws with the
   * earlier ones already written. An empty array throws before anything
   * is written.
   */
  method SizeLayers(sizes: array<int>, inputs: int) returns (outcome: Sizing)
    modifies sizes
    ensures sizes.Length == 0 ==> outcome == NoLayers && unchanged(sizes)
    ensures sizes.Length != 0 ==> outcome != NoLayers
    ensures sizes.Length != 0 ==> sizes[sizes.Length - 1] == 2
    ensures 1 < sizes.Length ==> sizes[0] == inputs
    ensures outcome == Sized <==>
              sizes.Length != 0 && forall i :: 1 <= i < sizes.Length - 1 ==> 0 <= HiddenSize(old(sizes[i]), inputs)
    ensures outcome == Sized ==> forall i :: 1 <= i < sizes.Length - 1 ==> sizes[i] == HiddenSize(old(sizes[i]), inputs)
    ensures outcome == Sized && 0 < inputs ==> forall i :: 0 <= i < sizes.Length ==> 0 < sizes[i]
    ensures outcome.NegativeLayer? ==>
              var n := outcome.index;
              1 <= n < sizes.Length - 1 && sizes[n] == HiddenSize(old(sizes[n]), inputs) < 0 &&
              (forall i :: 1 <= i < n ==> 0 <= sizes[i] == HiddenSize(old(sizes[i]), inputs)) &&
              (forall i :: n < i < sizes.Length - 1 ==> sizes[i] == old(sizes[i]))
  {
    if sizes.Length == 0 {
      return NoLayers;
    }
    sizes[0] := inputs;
    sizes[sizes.Length - 1] := 2;
    var i := 1;
    while i < sizes.Length - 1
      invariant 1 <= i <= if sizes.Length < 2 then 1 else sizes.Length - 1
      invariant sizes[sizes.Length - 1] == 2 && (1 < sizes.Length ==> sizes[0] == inputs)
      invariant forall k :: 1 <= k < i ==> 0 <= sizes[k] == HiddenSize(old(sizes[k]), inputs)
      invariant forall k :: i <= k < sizes.Length - 1 ==> sizes[k] == old(sizes[k])
    {
      if sizes[i] == 0 {
        sizes[i] := inputs;
      }
      if sizes[i] < 0 {
        return NegativeLayer(i);
      }
      i := i + 1;
    }
    return Sized;
  }

  /*
   * The move budget.
   */

  /**
   * The budget of the next generation as NextGeneration computes it: the
   * product is 32-bit, so it wraps once it passes IntMax, and the division
   * truncates toward zero.
   */
  function NextBudgetAsWritten(budget: int, pct: int): (r: int)
  {
    CsDiv(Wrap32(budget * Wrap32(100 + pct)), 100)
  }

  /** The budget grown by `pct` percent, truncated: the growth NextGeneration is meant to give. */
  function NextBudget(budget: int, pct: int): (r: int)
    ensures 0 <= budget && 0 <= pct ==> budget <= r
    ensures 0 <= budget && -100 <= pct ==> 0 <= r
  {
    if 0 <= budget && 0 <= pct then
      assert budget * 100 <= budget * (100 + pct);
      CsDivBounds(budget * (100 + pct), 100, budget, budget * (100 + pct));
      CsDiv(budget * (100 + pct), 100)
    else if 0 <= budget && -100 <= pct then
      assert 0 <= budget * (100 + pct);
      CsDiv(budget * (100 + pct), 100)
    else
      CsDiv(budget * (100 + pct), 100)
  }

  /** While the product fits in 32 bits the two agree. */
  lemma BudgetsAgreeWithoutOverflow(budget: int, pct: int)
    requires IntMin <= 100 + pct <= IntMax && IntMin <= budget * (100 + pct) <= IntMax
    ensures NextBudgetAsWritten(budget, pct) == NextBudget(budget, pct)
  {
  }

  /**
   * A budget of 21474837 moves grown by the default 5% overflows: the
   * product 2254857885 wraps to -2040109411, and the next budget is
   * negative, so every later move starts a new generation.
   */
  lemma BudgetOverflows()
    ensures NextBudgetAsWritten(21474837, 5) == -20401094
    ensures NextBudget(21474837, 5) == 22548578
  {
    assert 21474837 * 105 == 2254857885;
    assert Wrap32(2254857885) == -2040109411;
  }

  /*
   * The generation counters and the two triggers of a new generation.
   */

  /** The static counters of the controller. */
  datatype Counters = Counters(movesLeft: int, movesToCount: int, movesMade: int, generation: int)

  /**
   * NextGeneration, with InitialiseFlocks' increment of the generation: an
   * exhausted budget of 0 is first reset to the last count, then the budget
   * grows by `pct` percent and becomes both the count and the budget, and
   * no move has been made yet.
   */
  function NextGenerationOf(c: Counters, pct: int): (d: Counters)
    ensures d.movesMade == 0 && d.generation == c.generation + 1
    ensures d.movesLeft == d.movesToCount
    ensures 0 <= pct && 0 <= c.movesLeft && 0 <= c.movesToCount ==>
              (if c.movesLeft == 0 then c.movesToCount else c.movesLeft) <= d.movesLeft
  {
    var budget := if c.movesLeft == 0 then c.movesToCount else c.movesLeft;
    var grown := NextBudget(budget, pct);
    Counters(grown, grown, 0, c.generation + 1)
  }

  /** One pass of Learn's loop before the flocks move: one more move, and a new generation once the moves exceed the budget. */
  function TickOf(c: Counters, pct: int): Counters
  {
    var counted := c.(movesMade := c.movesMade + 1);
    if counted.movesMade > counted.movesLeft then NextGenerationOf(counted, pct) else counted
  }

  /** `k` passes of Learn's loop. */
  function Ticks(c: Counters, pct: int, k: nat): Counters
  {
    if k == 0 then c else TickOf(Ticks(c, pct, k - 1), pct)
  }

  /** The first `budget` moves of a generation only count: no new generation starts. */
  lemma {:induction false} BudgetLasts(c: Counters, pct: int, k: nat)
    requires c.movesMade == 0 && k <= c.movesLeft
    ensures Ticks(c, pct, k) == c.(movesMade := k)
  {
    if k > 0 {
      BudgetLasts(c, pct, k - 1);
    }
  }

  /**
   * A generation with a budget of b moves lasts exactly b moves: move
   * b + 1 starts the next generation, as NextGeneration would from the
   * same counters.
   */
  lemma GenerationEndsAfterBudget(c: Counters, pct: int)
    requires c.movesMade == 0 && 0 <= c.movesLeft
    ensures Ticks(c, pct, c.movesLeft + 1) == NextGenerationOf(c, pct)
    ensures forall k :: 0 <= k <= c.movesLeft ==> Ticks(c, pct, k).generation == c.generation
  {
    BudgetLasts(c, pct, c.movesLeft);
    forall k | 0 <= k <= c.movesLeft
      ensures Ticks(c, pct, k).generation == c.generation
    {
      BudgetLasts(c, pct, k);
    }
  }

  /** The counters of LearnToHerd. */
  class Trainer {
    /** The moves left before the next mutation: the budget of this generation. */
    var movesLeftBeforeNextMutation: int
    /** The number of moves the budget is reset to when it is 0. */
    var movesToCountBetweenEachMutation: int
    var numberOfMovesMadeByPredator: int
    var generation: int

    function CountersOf(): Counters
      reads this
    {
      Counters(movesLeftBeforeNextMutation, movesToCountBetweenEachMutation, numberOfMovesMadeByPredator, generation)
    }

    /** The counters as the static fields start: all 0. */
    constructor ()
      ensures CountersOf() == Counters(0, 0, 0, 0)
    {
      movesLeftBeforeNextMutation := 0;
      movesToCountBetweenEachMutation := 0;
      numberOfMovesMadeByPredator := 0;
      generation := 0;
    }

    /**
     * The counters in StartLearning: generation 0, the count set to the
     * initial number of moves, then the first NextGeneration.
     */
    method StartLearning(initialMoves: int, pct: int)
      modifies this
      ensures CountersOf() == NextGenerationOf(old(CountersOf()).(movesToCount := initialMoves, generation := 0), pct)
    {
      generation := 0;
      movesToCountBetweenEachMutation := initialMoves;
      NextGeneration(pct);
    }

    /** NextGeneration, on the counters (the flocks are rebuilt by InitialiseFlocks and MutateFlock). */
    method NextGeneration(pct: int)
      modifies this
      ensures CountersOf() == NextGenerationOf(old(CountersOf()), pct)
    {
      if movesLeftBeforeNextMutation == 0 {
        movesLeftBeforeNextMutation := movesToCountBetweenEachMutation;
      }
      movesToCountBetweenEachMutation := NextBudget(movesLeftBeforeNextMutation, pct);
      movesLeftBeforeNextMutation := movesToCountBetweenEachMutation;
      generation := generation + 1;
      numberOfMovesMadeByPredator := 0;
    }

    /**
     * The trigger in Learn: count the move, and start a new generation when
     * the moves made exceed the budget.
     */
    method Tick(pct: int) returns (started: bool)
      modifies this
      ensures started <==> old(numberOfMovesMadeByPredator) + 1 > old(movesLeftBeforeNextMutation)
      ensures CountersOf() == TickOf(old(CountersOf()), pct)
    {
      numberOfMovesMadeByPredator := numberOfMovesMadeByPredator + 1;
      started := numberOfMovesMadeByPredator > movesLeftBeforeNextMutation;
      if started {
        NextGeneration(pct);
      }
    }
  }

  /**
   * The mutateNow flag DrawAll computes: the failed flocks counted, and
   * true exactly when every flock has failed (also when there are none).
   */
  method MutateNow(flocks: seq<F.Flock>) returns (mutateNow: bool)
    ensures mutateNow <==> forall i :: 0 <= i < |flocks| ==> flocks[i].flockIsFailure
  {
    var failures := 0;
    var i := 0;
    while i < |flocks|
      invariant 0 <= i <= |flocks| && failures <= i
      invariant failures == i <==> forall j :: 0 <= j < i ==> flocks[j].flockIsFailure
    {
      if flocks[i].flockIsFailure {
        failures := failures + 1;
      }
      i := i + 1;
    }
    mutateNow := failures == |flocks|;
  }

  /*
   * MutateFlock: the next generation of networks bred from the fitness
   * each dog's flock reached.
   */

  /** Every field of a network, as a value. */
  datatype NetState = NetState(
    neurons: seq<seq<real>>, biases: seq<seq<real>>, weights: seq<seq<seq<real>>>,
    performance: seq<int>, fitness: real, score: real, generation: int, mutated: bool, rank: int)

  ghost function StateOf(net: Network): NetState
    reads net
  {
    NetState(net.neurons, net.biases, net.weights, net.performance, net.fitness, net.score,
             net.generationOfLastMutation, net.mutated, net.rank)
  }

  /** The state of each network of `nets`, in order. */
  ghost function StatesOf(nets: seq<Network>): (r: seq<NetState>)
    reads set i | 0 <= i < |nets| :: nets[i]
    ensures |r| == |nets| && forall i :: 0 <= i < |nets| ==> r[i] == StateOf(nets[i])
  {
    if nets == [] then [] else StatesOf(nets[..|nets| - 1]) + [StateOf(nets[|nets| - 1])]
  }

  /** The networks bound to the keys 0 to n - 1, in key order. */
  function KeyedNets(slots: map<int, Network>, n: nat): (r: seq<Network>)
    requires forall k :: 0 <= k < n ==> k in slots
    ensures |r| == n && forall k :: 0 <= k < n ==> r[k] == slots[k]
  {
    seq(n, k requires 0 <= k < n => slots[k])
  }

  /** The dictionary MutateFlock works on: keys 0 to n - 1, each bound to a valid network with the configured layers. */
  ghost predicate Keyed(registry: Registry, n: nat, layers: seq<nat>)
    reads registry, registry.Repr
  {
    registry.Valid() && (forall k :: k in registry.slots <==> 0 <= k < n) &&
    forall k :: k in registry.slots ==> registry.slots[k].Valid() && registry.slots[k].layers == layers
  }

  /** A network as the constructor leaves it, its parameters drawn from `rng`. */
  ghost predicate Newborn(net: Network, layers: seq<nat>, activations: seq<ActivationKind>, rng: nat -> Draw10000)
    reads net
  {
    net.Valid() && net.layers == layers && net.activations == activations &&
    (forall l :: 0 <= l < |layers| ==> net.neurons[l] == Zeros(layers[l])) &&
    Flatten2(net.biases) == InitialValues(rng, 0, |Flatten2(net.biases)|) &&
    Flatten3(net.weights) == InitialValues(rng, |Flatten2(net.biases)|, |Flatten3(net.weights)|) &&
    net.performance == [] && net.score == 0.0 && !net.mutated && net.rank == 0
  }

  /**
   * A network after the first loop of MutateFlock: not mutated, one
   * generation older, the flock's fitness, and that fitness (truncated)
   * appended to its history.
   */
  function Scored(s: NetState, fitness: real): NetState
  {
    s.(mutated := false, generation := s.generation + 1, fitness := fitness,
       performance := s.performance + [Trunc(fitness)])
  }

  /** The states of `before` after the first loop, each with its fitness from `fitness`. */
  function ScoredAll(before: seq<NetState>, fitness: seq<real>): (r: seq<NetState>)
    requires |before| == |fitness|
    ensures |r| == |before| && forall k :: 0 <= k < |before| ==> r[k] == Scored(before[k], fitness[k])
  {
    seq(|before|, k requires 0 <= k < |before| => Scored(before[k], fitness[k]))
  }

  /** The Score SortNetworkByFitness gives a network in state `s` when `max` is the best fitness of all. */
  function ScoreOfState(s: NetState, max: real, wayPointCount: nat): real
  {
    ScoreOf(s.fitness, s.generation, BestFitnessValue(s.performance, s.fitness, wayPointCount),
            AverageFitnessValue(s.performance, s.fitness), max, wayPointCount)
  }

  /** The Score of the state of each key of `keys`, in that order. */
  function ScoresAlong(s: seq<NetState>, keys: seq<int>, max: real, wayPointCount: nat): (r: seq<real>)
    requires forall i :: 0 <= i < |keys| ==> 0 <= keys[i] < |s|
    ensures |r| == |keys| && forall i :: 0 <= i < |keys| ==> r[i] == ScoreOfState(s[keys[i]], max, wayPointCount)
  {
    seq(|keys|, i requires 0 <= i < |keys| => ScoreOfState(s[keys[i]], max, wayPointCount))
  }

  /** What BestFitness reports for each network in that loop: the new fitness, the history before it grows. */
  function Successes(s: seq<NetState>, fitness: seq<real>, wayPointCount: nat): (r: seq<real>)
    requires |fitness| == |s|
    ensures |r| == |s|
    ensures forall k :: 0 <= k < |s| ==> r[k] == BestFitnessValue(s[k].performance, fitness[k], wayPointCount)
  {
    seq(|s|, k requires 0 <= k < |s| => BestFitnessValue(s[k].performance, fitness[k], wayPointCount))
  }

  /** The chance, in percent, MutateFlock passes to Mutate; its size is 0.25. */
  const MutationChance: int := 5

  /** A network due for replacement: at least maxSuccess generations since it last mutated. */
  predicate Due(s: NetState, maxSuccess: real)
  {
    s.generation as real >= maxSuccess
  }

  /** Sorted position i is due, but its donor at i + half is not proven: the replacement loop returns there. */
  predicate GivesUp(s: seq<NetState>, half: nat, maxSuccess: real, i: nat)
    requires i + half < |s|
  {
    Due(s[i], maxSuccess) && !Due(s[i + half], maxSuccess)
  }

  /** The first position from `i` on at which the replacement loop gives up, or `half` when there is none. */
  function StopFrom(s: seq<NetState>, half: nat, maxSuccess: real, i: nat): (r: nat)
    requires 2 * half <= |s| && i <= half
    ensures i <= r <= half
    ensures r < half ==> GivesUp(s, half, maxSuccess, r)
    ensures forall j :: i <= j < r ==> !GivesUp(s, half, maxSuccess, j)
    decreases half - i
  {
    if i == half then half
    else if GivesUp(s, half, maxSuccess, i) then i
    else StopFrom(s, half, maxSuccess, i + 1)
  }

  /**
   * A replaced network: the donor's biases and weights after one Mutate,
   * generation 0, and a history of the single entry
   * min(26, (int)donor.AverageFitness() - 1); everything else is its own.
   */
  ghost function Bred(worst: NetState, donor: NetState, layers: seq<nat>, draws: MutationDraws): NetState
    requires BiasShape(layers, donor.biases) && WeightShape(layers, donor.weights)
    requires Fires(layers, draws)
  {
    var pass := FirstFiringPass(layers, donor.biases, donor.weights, MutationChance, draws);
    worst.(biases := PerturbBiases(donor.biases, pass, MutationChance, draws),
           weights := PerturbWeights(donor.weights, pass, MutationChance, draws),
           generation := 0, mutated := true,
           performance := [MinInt(26, Trunc(AverageFitnessValue(donor.performance, donor.fitness)) - 1)])
  }

  /** Every state in `s` is shaped by `layers`. */
  ghost predicate Shaped(s: seq<NetState>, layers: seq<nat>)
  {
    forall i :: 0 <= i < |s| ==> BiasShape(layers, s[i].biases) && WeightShape(layers, s[i].weights)
  }

  /** Some pass of Mutate over `draws` fires. */
  ghost predicate Fires(layers: seq<nat>, draws: MutationDraws)
  {
    exists p: nat :: LayersFire(layers, p, MutationChance, draws)
  }

  /** The first `half` draws each let some pass of Mutate fire. */
  ghost predicate Firing(draws: seq<MutationDraws>, half: nat, layers: seq<nat>)
  {
    half <= |draws| && forall i :: 0 <= i < half ==> Fires(layers, draws[i])
  }

  /**
   * Sorted position j after the replacement loop: bred from position
   * j + half when it is due and lies before the position where the loop
   * gave up; untouched otherwise.
   */
  ghost function Replaced(s: seq<NetState>, half: nat, maxSuccess: real, layers: seq<nat>,
                          draws: seq<MutationDraws>, j: nat): NetState
    requires 2 * half <= |s| && j < |s| && Shaped(s, layers) && Firing(draws, half, layers)
  {
    if j < StopFrom(s, half, maxSuccess, 0) && Due(s[j], maxSuccess) then Bred(s[j], s[j + half], layers, draws[j])
    else s[j]
  }

  /** The sorted position whose average fitness the reseeded network inherits: (int)(N * 0.75). */
  function Keep(n: nat): (r: int)
    ensures 2 <= n ==> n / 2 <= r < n
  {
    var x := n as real * 0.75;
    assert (n / 2) as real <= x by {
      assert (n / 2) as real * 2.0 <= n as real;
    }
    Trunc(x)
  }

  /** The body of MutateFlock's first loop for one network; returns what BestFitness reported. */
  method ScoreNetwork(net: Network, fitness: real, wayPointCount: nat) returns (success: real)
    modifies net`mutated, net`generationOfLastMutation, net`fitness, net`performance
    ensures StateOf(net) == Scored(old(StateOf(net)), fitness)
    ensures success == BestFitnessValue(old(net.performance), fitness, wayPointCount)
  {
    net.mutated := false;
    net.generationOfLastMutation := net.generationOfLastMutation + 1;
    net.fitness := fitness;
    success := net.BestFitness(wayPointCount);
    net.performance := net.performance + [Trunc(net.fitness)];
  }

  /** The networks bound to distinct keys are distinct. */
  lemma KeysBindDistinctNetworks(registry: Registry, a: int, b: int)
    requires registry.Valid() && a in registry.slots && b in registry.slots && a != b
    ensures registry.slots[a] != registry.slots[b]
  {
    assert registry.slots[a].id == a && registry.slots[b].id == b;
  }

  /** Folding one more entry into a running maximum, as `if (x > max) max = x;` does. */
  lemma MaxOfNext(init: real, s: seq<real>, k: nat, x: real, before: real, after: real)
    requires k < |s| && x == s[k] && before == MaxOf(init, s[..k])
    requires after == if x > before then x else before
    ensures after == MaxOf(init, s[..k + 1])
  {
    assert s[..k + 1][..k] == s[..k];
  }

  /** MutateFlock's first loop, over the flocks' keys 0 to n - 1. */
  method UpdateFitness(registry: Registry, n: nat, fitness: seq<real>, wayPointCount: nat,
                       ghost layers: seq<nat>, ghost s0: seq<NetState>) returns (maxSuccess: real)
    requires Keyed(registry, n, layers) && |fitness| == n && |s0| == n
    requires forall k :: 0 <= k < n ==> StateOf(registry.slots[k]) == s0[k]
    modifies registry.Repr
    ensures Keyed(registry, n, layers)
    ensures forall k :: 0 <= k < n ==> StateOf(registry.slots[k]) == Scored(s0[k], fitness[k])
    ensures maxSuccess == MaxOf(0.0, Successes(s0, fitness, wayPointCount))
  {
    var nets := KeyedNets(registry.slots, n);
    forall i, j | 0 <= i < j < n
      ensures nets[i] != nets[j]
    {
      KeysBindDistinctNetworks(registry, i, j);
    }
    maxSuccess := ScoreAll(nets, fitness, wayPointCount, s0);
    forall k | 0 <= k < n
      ensures nets[k].Valid()
    {
      SameTensorsStayValid(nets[k], s0[k]);
    }
  }

  /** Validity depends only on the tensors: a network whose tensors are those of a valid state is valid. */
  lemma SameTensorsStayValid(net: Network, s: NetState)
    requires 2 <= |net.layers| && |net.activations| == |net.layers|
    requires NeuronShape(net.layers, s.neurons) && BiasShape(net.layers, s.biases) && WeightShape(net.layers, s.weights)
    requires net.neurons == s.neurons && net.biases == s.biases && net.weights == s.weights
    ensures net.Valid()
  {
  }

  /** The first loop over the networks of the keys in order. */
  method ScoreAll(nets: seq<Network>, fitness: seq<real>, wayPointCount: nat, ghost s0: seq<NetState>)
    returns (maxSuccess: real)
    requires |fitness| == |nets| && |s0| == |nets|
    requires forall i, j :: 0 <= i < j < |nets| ==> nets[i] != nets[j]
    requires forall k :: 0 <= k < |nets| ==> StateOf(nets[k]) == s0[k]
    modifies set k | 0 <= k < |nets| :: nets[k]
    ensures forall k :: 0 <= k < |nets| ==> StateOf(nets[k]) == Scored(s0[k], fitness[k])
    ensures maxSuccess == MaxOf(0.0, Successes(s0, fitness, wayPointCount))
  {
    maxSuccess := 0.0;
    ghost var successes := Successes(s0, fitness, wayPointCount);
    var k := 0;
    while k < |nets|
      invariant 0 <= k <= |nets|
      invariant ScoredUpTo(nets, s0, fitness, k)
      invariant maxSuccess == MaxOf(0.0, successes[..k])
    {
      maxSuccess := ScoreAt(nets, k, fitness, wayPointCount, s0, maxSuccess, successes);
      k := k + 1;
    }
    WholePrefix(successes);
  }

  /** The first `k` networks scored, the rest as they were. */
  ghost predicate ScoredUpTo(nets: seq<Network>, s0: seq<NetState>, fitness: seq<real>, k: nat)
    reads set i | 0 <= i < |nets| :: nets[i]
  {
    k <= |nets| == |s0| == |fitness| &&
    (forall j :: 0 <= j < k ==> StateOf(nets[j]) == Scored(s0[j], fitness[j])) &&
    (forall j :: k <= j < |nets| ==> StateOf(nets[j]) == s0[j])
  }

  lemma WholePrefix<T>(s: seq<T>)
    ensures s[..|s|] == s
  {
  }

  /**
   * ScoreAll's loop body: the network at position k scored (those before
   * it already are, those after it untouched), and the best success so
   * far raised to its BestFitness when that is greater.
   */
  method ScoreAt(nets: seq<Network>, k: nat, fitness: seq<real>, wayPointCount: nat, ghost s0: seq<NetState>,
                 maxSuccess: real, ghost successes: seq<real>)
    returns (newMax: real)
    requires k < |nets| && |fitness| == |nets| && |s0| == |nets|
    requires successes == Successes(s0, fitness, wayPointCount) && maxSuccess == MaxOf(0.0, successes[..k])
    requires forall i, j :: 0 <= i < j < |nets| ==> nets[i] != nets[j]
    requires ScoredUpTo(nets, s0, fitness, k)
    modifies nets[k]
    ensures ScoredUpTo(nets, s0, fitness, k + 1)
    ensures newMax == MaxOf(0.0, successes[..k + 1])
  {
    var success := ScoreNetwork(nets[k], fitness[k], wayPointCount);
    newMax := maxSuccess;
    if success > newMax {
      newMax := success;
    }
    MaxOfNext(0.0, successes, k, success, maxSuccess, newMax);
  }

  /**
   * MutateFlock's call of SortNetworkByFitness: only the scores change;
   * when some fitness is not 0 the keys are re-enumerated by ascending
   * score, otherwise nothing changes. `maxFitness` is the best fitness of
   * all, or -1 when every fitness is below -1.
   */
  method Rank(registry: Registry, n: nat, wayPointCount: nat, ghost layers: seq<nat>, ghost s1: seq<NetState>)
    returns (ghost maxFitness: real)
    requires Keyed(registry, n, layers) && |s1| == n
    requires forall k :: 0 <= k < n ==> StateOf(registry.slots[k]) == s1[k]
    modifies registry`order, registry.Repr
    ensures Keyed(registry, n, layers) && registry.slots == old(registry.slots)
    ensures forall k :: 0 <= k < n ==> StateOf(registry.slots[k]) == s1[k].(score := registry.slots[k].score)
    ensures -1.0 <= maxFitness && forall k :: 0 <= k < n ==> s1[k].fitness <= maxFitness
    ensures maxFitness == -1.0 || exists k :: 0 <= k < n && s1[k].fitness == maxFitness
    ensures maxFitness == 0.0 ==> registry.order == old(registry.order)
    ensures maxFitness == 0.0 ==> forall k :: 0 <= k < n ==> registry.slots[k].score == s1[k].score
    ensures maxFitness != 0.0 ==> forall k :: 0 <= k < n ==> registry.slots[k].score == ScoreOfState(s1[k], maxFitness, wayPointCount)
    ensures maxFitness != 0.0 ==>
              registry.order == Reorder(old(registry.order), SortPermutation(ScoresAlong(s1, old(registry.order), maxFitness, wayPointCount)))
    ensures maxFitness != 0.0 ==>
              forall i, j :: 0 <= i < j < |registry.order| ==> registry.slots[registry.order[i]].score <= registry.slots[registry.order[j]].score
  {
    BestFitnessOfAll(registry, n, layers, s1);
    ghost var scores;
    maxFitness, scores := registry.SortNetworkByFitness(wayPointCount);
    forall k | 0 <= k < n
      ensures StateOf(registry.slots[k]) == s1[k].(score := registry.slots[k].score)
      ensures registry.slots[k].Valid()
      ensures maxFitness == 0.0 ==> registry.slots[k].score == s1[k].score
    {
      assert registry.slots[k] in registry.Repr;
      SameTensorsStayValid(registry.slots[k], s1[k]);
    }
    if maxFitness != 0.0 {
      ScoresOfKeys(registry, n, layers, s1, maxFitness, wayPointCount, old(registry.order), scores);
    }
  }

  /** Once every network holds its Score, the scores SortNetworkByFitness ordered are those of the states by key. */
  lemma ScoresOfKeys(registry: Registry, n: nat, layers: seq<nat>, s1: seq<NetState>, max: real, wayPointCount: nat,
                     keys: seq<int>, scores: seq<real>)
    requires Keyed(registry, n, layers) && |s1| == n
    requires forall k :: 0 <= k < n ==> StateOf(registry.slots[k]) == s1[k].(score := registry.slots[k].score)
    requires forall k {:trigger NewScore(registry.slots[k], max, wayPointCount)} :: k in registry.slots ==>
               registry.slots[k].score == NewScore(registry.slots[k], max, wayPointCount)
    requires |scores| == |keys| && forall i :: 0 <= i < |keys| ==> 0 <= keys[i] < n && scores[i] == registry.slots[keys[i]].score
    ensures forall k :: 0 <= k < n ==> registry.slots[k].score == ScoreOfState(s1[k], max, wayPointCount)
    ensures scores == ScoresAlong(s1, keys, max, wayPointCount)
  {
    forall k | 0 <= k < n
      ensures registry.slots[k].score == ScoreOfState(s1[k], max, wayPointCount)
    {
      assert registry.slots[k].score == NewScore(registry.slots[k], max, wayPointCount);
    }
  }

  /** The maximum SortNetworkByFitness folds, over the keys in enumeration order, is the best of the fitnesses by key. */
  lemma BestFitnessOfAll(registry: Registry, n: nat, layers: seq<nat>, s1: seq<NetState>)
    requires Keyed(registry, n, layers) && |s1| == n
    requires forall k :: 0 <= k < n ==> StateOf(registry.slots[k]) == s1[k]
    ensures var m := MaxOf(-1.0, registry.FitnessesIn(registry.order));
            -1.0 <= m && (forall k :: 0 <= k < n ==> s1[k].fitness <= m) &&
            (m == -1.0 || exists k :: 0 <= k < n && s1[k].fitness == m)
  {
    var fitnesses := registry.FitnessesIn(registry.order);
    var m := MaxOf(-1.0, fitnesses);
    forall k | 0 <= k < n
      ensures s1[k].fitness <= m
    {
      assert k in registry.slots.Keys;
      assert k in registry.order;
      var i :| 0 <= i < |registry.order| && registry.order[i] == k;
      assert fitnesses[i] == s1[k].fitness;
    }
    if m != -1.0 {
      var i :| 0 <= i < |fitnesses| && fitnesses[i] == m;
      assert s1[registry.order[i]].fitness == m;
    }
  }

  /** One replacement: the donor copied into the worst network, which is then mutated and given a fresh history. */
  method Breed(worst: Network, donor: Network, draws: MutationDraws)
    requires worst != donor && worst.Valid() && donor.Valid() && worst.layers == donor.layers
    requires Fires(worst.layers, draws)
    modifies worst
    ensures worst.Valid()
    ensures StateOf(worst) == Bred(old(StateOf(worst)), StateOf(donor), worst.layers, draws)
  {
    ghost var w0, d := StateOf(worst), StateOf(donor);
    ghost var pass := CloneAndMutate(worst, donor, draws);
    ghost var mutant := StateOf(worst);
    Inherit(worst, donor);
    BredIs(w0, d, worst.layers, draws, pass, mutant.biases, mutant.weights);
  }

  /** A replacement's history: one entry, one below the donor's average fitness, at most 25. */
  method Inherit(worst: Network, donor: Network)
    requires worst != donor && worst.Valid()
    modifies worst`performance
    ensures worst.Valid()
    ensures StateOf(worst) == old(StateOf(worst)).(performance :=
              [MinInt(26, Trunc(AverageFitnessValue(donor.performance, donor.fitness)) - 1)])
  {
    ghost var before := StateOf(worst);
    var average := donor.AverageFitness();
    worst.performance := [MinInt(26, Trunc(average) - 1)];
    assert StateOf(worst) == before.(performance := [MinInt(26, Trunc(average) - 1)]);
    SameTensorsStayValid(worst, before);
  }

  /** A replacement's tensors: the donor's, perturbed by the first pass of Mutate that fires. */
  method CloneAndMutate(worst: Network, donor: Network, draws: MutationDraws) returns (ghost pass: nat)
    requires worst != donor && worst.Valid() && donor.Valid() && worst.layers == donor.layers
    requires Fires(worst.layers, draws)
    modifies worst`biases, worst`weights, worst`generationOfLastMutation, worst`mutated
    ensures worst.Valid()
    ensures pass == FirstFiringPass(worst.layers, donor.biases, donor.weights, MutationChance, draws)
    ensures StateOf(worst) == old(StateOf(worst)).(biases := PerturbBiases(donor.biases, pass, MutationChance, draws),
                                                   weights := PerturbWeights(donor.weights, pass, MutationChance, draws),
                                                   generation := 0, mutated := true)
  {
    ghost var w0 := StateOf(worst);
    Clone(worst, donor);
    pass := worst.Mutate(MutationChance, 0.25, draws);
    ghost var mutant := StateOf(worst);
    assert mutant == w0.(biases := mutant.biases, weights := mutant.weights, generation := 0, mutated := true);
  }

  /** The start of a replacement: CopyFromTo from the donor, then generation 0. */
  method Clone(worst: Network, donor: Network)
    requires worst != donor && worst.Valid() && donor.Valid() && worst.layers == donor.layers
    modifies worst`biases, worst`weights, worst`generationOfLastMutation
    ensures worst.Valid()
    ensures StateOf(worst) == old(StateOf(worst)).(biases := donor.biases, weights := donor.weights, generation := 0)
  {
    Network.CopyFromTo(donor, worst);
    worst.generationOfLastMutation := 0;
  }

  /** Bred spelled out, once the pass Mutate stopped at and its tensors are known. */
  lemma BredIs(w0: NetState, d: NetState, layers: seq<nat>, draws: MutationDraws, pass: nat,
               b: seq<seq<real>>, w: seq<seq<seq<real>>>)
    requires BiasShape(layers, d.biases) && WeightShape(layers, d.weights)
    requires Fires(layers, draws)
    requires pass == FirstFiringPass(layers, d.biases, d.weights, MutationChance, draws)
    requires b == PerturbBiases(d.biases, pass, MutationChance, draws)
    requires w == PerturbWeights(d.weights, pass, MutationChance, draws)
    ensures Bred(w0, d, layers, draws) ==
            w0.(biases := b, weights := w, generation := 0, mutated := true,
                performance := [MinInt(26, Trunc(AverageFitnessValue(d.performance, d.fitness)) - 1)])
  {
  }

  /**
   * MutateFlock's replacement loop over the sorted networks: each of the
   * first `half` that is due is replaced by a mutated clone of the network
   * `half` places further on, unless that one is not proven, in which case
   * the loop returns (`completed` false).
   */
  method ReplaceWorst(nets: seq<Network>, half: nat, maxSuccess: real, draws: seq<MutationDraws>,
                      ghost layers: seq<nat>, ghost s: seq<NetState>) returns (completed: bool)
    requires 2 * half <= |nets| && |s| == |nets| && Firing(draws, half, layers)
    requires forall i :: 0 <= i < |nets| ==> nets[i].Valid() && nets[i].layers == layers && StateOf(nets[i]) == s[i]
    requires forall i, j :: 0 <= i < j < |nets| ==> nets[i] != nets[j]
    modifies set i | 0 <= i < half :: nets[i]
    ensures Shaped(s, layers)
    ensures forall i :: 0 <= i < |nets| ==> nets[i].Valid() && StateOf(nets[i]) == Replaced(s, half, maxSuccess, layers, draws, i)
    ensures completed <==> StopFrom(s, half, maxSuccess, 0) == half
  {
    ghost var stop := StopFrom(s, half, maxSuccess, 0);
    var i := 0;
    while i < half
      invariant 0 <= i <= half && i <= stop
      invariant ReplacedUpTo(nets, half, maxSuccess, draws, layers, s, i)
    {
      var gaveUp := ReplaceAt(nets, half, maxSuccess, draws, layers, s, i);
      if gaveUp {
        StopsAt(nets, half, maxSuccess, draws, layers, s, i);
        return false;
      }
      i := i + 1;
    }
    StopsAt(nets, half, maxSuccess, draws, layers, s, half);
    return true;
  }

  /**
   * ReplaceWorst's loop invariant: the first `i` positions are as Replaced
   * says, the rest as they were, and every network is still valid.
   */
  ghost predicate ReplacedUpTo(nets: seq<Network>, half: nat, maxSuccess: real, draws: seq<MutationDraws>,
                               layers: seq<nat>, s: seq<NetState>, i: nat)
    reads set j | 0 <= j < |nets| :: nets[j]
  {
    2 * half <= |nets| == |s| && i <= half && Shaped(s, layers) && Firing(draws, half, layers) &&
    (forall j :: 0 <= j < |nets| ==> nets[j].Valid() && nets[j].layers == layers) &&
    (forall j :: 0 <= j < i ==> StateOf(nets[j]) == Replaced(s, half, maxSuccess, layers, draws, j)) &&
    (forall j :: i <= j < |nets| ==> StateOf(nets[j]) == s[j])
  }

  /** One round of ReplaceWorst's loop, at position `i`. */
  method ReplaceAt(nets: seq<Network>, half: nat, maxSuccess: real, draws: seq<MutationDraws>,
                   ghost layers: seq<nat>, ghost s: seq<NetState>, i: nat) returns (gaveUp: bool)
    requires ReplacedUpTo(nets, half, maxSuccess, draws, layers, s, i)
    requires i < half && i <= StopFrom(s, half, maxSuccess, 0)
    requires forall j, k :: 0 <= j < k < |nets| ==> nets[j] != nets[k]
    modifies nets[i]
    ensures gaveUp <==> GivesUp(s, half, maxSuccess, i)
    ensures gaveUp ==> ReplacedUpTo(nets, half, maxSuccess, draws, layers, s, i)
    ensures !gaveUp ==> i < StopFrom(s, half, maxSuccess, 0) && ReplacedUpTo(nets, half, maxSuccess, draws, layers, s, i + 1)
  {
    ghost var stop := StopFrom(s, half, maxSuccess, 0);
    assert StateOf(nets[i]) == s[i] && StateOf(nets[i + half]) == s[i + half];
    assert nets[i].generationOfLastMutation == s[i].generation;
    assert nets[i + half].generationOfLastMutation == s[i + half].generation;
    var due := nets[i].generationOfLastMutation as real >= maxSuccess;
    gaveUp := due && nets[i + half].generationOfLastMutation as real < maxSuccess;
    assert gaveUp == GivesUp(s, half, maxSuccess, i);
    if gaveUp {
      return;
    }
    assert i != stop;
    if due {
      assert Fires(layers, draws[i]);
      Breed(nets[i], nets[i + half], draws[i]);
      assert StateOf(nets[i]) == Bred(s[i], s[i + half], layers, draws[i]);
    }
  }

  /** Once the loop stops at `i`, every position from `i` on is as Replaced says: untouched. */
  lemma StopsAt(nets: seq<Network>, half: nat, maxSuccess: real, draws: seq<MutationDraws>,
                layers: seq<nat>, s: seq<NetState>, i: nat)
    requires ReplacedUpTo(nets, half, maxSuccess, draws, layers, s, i)
    requires i <= StopFrom(s, half, maxSuccess, 0)
    requires i < half ==> GivesUp(s, half, maxSuccess, i)
    ensures StopFrom(s, half, maxSuccess, 0) == i
    ensures forall j :: 0 <= j < |nets| ==> nets[j].Valid() && StateOf(nets[j]) == Replaced(s, half, maxSuccess, layers, draws, j)
  {
  }

  /** A keyed dictionary enumerates exactly the keys 0 to n - 1. */
  lemma OrderCoversKeys(registry: Registry, n: nat, layers: seq<nat>)
    requires Keyed(registry, n, layers)
    ensures |registry.order| == n
    ensures forall j :: 0 <= j < n ==> 0 <= registry.order[j] < n
  {
    RangeSize(registry.slots.Keys, n);
  }

  /**
   * The replacement loop run on the list of networks in sorted enumeration
   * order; the dictionary itself (keys, bindings, order) is left alone.
   */
  method ReplaceInOrder(registry: Registry, n: nat, nets: seq<Network>, maxSuccess: real,
                        draws: seq<MutationDraws>, ghost layers: seq<nat>, ghost ranked: seq<NetState>)
    returns (completed: bool)
    requires Keyed(registry, n, layers) && Firing(draws, n / 2, layers)
    requires |registry.order| == n == |nets| == |ranked|
    requires forall j :: 0 <= j < n ==> nets[j] == registry.slots[registry.order[j]] && StateOf(nets[j]) == ranked[j]
    modifies registry.Repr
    ensures Keyed(registry, n, layers) && AllReplaced(nets, ranked, n / 2, maxSuccess, layers, draws)
    ensures completed <==> StopFrom(ranked, n / 2, maxSuccess, 0) == n / 2
  {
    forall i, j | 0 <= i < j < n
      ensures nets[i] != nets[j]
    {
      KeysBindDistinctNetworks(registry, registry.order[i], registry.order[j]);
    }
    forall j | 0 <= j < n
      ensures nets[j].Valid() && nets[j].layers == layers
    {
      var k := registry.order[j];
      assert k in registry.slots;
      assert registry.slots[k].Valid() && registry.slots[k].layers == layers;
    }
    completed := ReplaceWorst(nets, n / 2, maxSuccess, draws, layers, ranked);
    forall k | k in registry.slots
      ensures registry.slots[k].Valid()
    {
      assert k in registry.order;
      var j :| 0 <= j < n && registry.order[j] == k;
      assert nets[j] == registry.slots[k];
    }
  }

  /**
   * The end of a completed MutateFlock: `key` rebound to a network made
   * afresh, with the given fitness and generation 0, then the dictionary
   * unsorted. Every other key keeps its network.
   */
  method Reset(registry: Registry, n: nat, key: int, layers: seq<nat>, activations: seq<ActivationKind>,
               rng: nat -> Draw10000, average: real) returns (ghost replacement: Network)
    requires Keyed(registry, n, layers) && 0 <= key < n && 2 <= |layers| && |activations| == |layers|
    modifies registry
    ensures Keyed(registry, n, layers) && registry.order == Positions(n)
    ensures registry.slots == old(registry.slots)[key := replacement]
    ensures fresh(replacement) && Newborn(replacement, layers, activations, rng)
    ensures replacement.id == key && replacement.fitness == average && replacement.generationOfLastMutation == 0
  {
    var net := NewReplacement(key, layers, activations, rng, average);
    registry.Register(net);
    registry.Unsort(n);
    replacement := net;
  }

  /** `new NeuralNetwork(key, ...) { Fitness = average, GenerationOfLastMutation = 0 }`, not registered. */
  method NewReplacement(key: int, layers: seq<nat>, activations: seq<ActivationKind>, rng: nat -> Draw10000,
                        average: real) returns (net: Network)
    requires 2 <= |layers| && |activations| == |layers|
    ensures fresh(net) && Newborn(net, layers, activations, rng)
    ensures net.id == key && net.fitness == average && net.generationOfLastMutation == 0
  {
    net := new Network(key, layers, activations, rng);
    ghost var born := StateOf(net);
    net.fitness := average;
    net.generationOfLastMutation := 0;
    SameTensorsStayValid(net, born);
  }

  /** A Breed result starts over: generation 0, mutated, one history entry of at most 26. */
  lemma BredStartsOver(worst: NetState, donor: NetState, layers: seq<nat>, draws: MutationDraws)
    requires BiasShape(layers, donor.biases) && WeightShape(layers, donor.weights) && Fires(layers, draws)
    ensures var r := Bred(worst, donor, layers, draws);
            r.generation == 0 && r.mutated && |r.performance| == 1 && r.performance[0] <= 26 &&
            r.fitness == worst.fitness && r.score == worst.score && r.neurons == worst.neurons
  {
  }

  /** When Mutate's delta draws are in range, a bred bias is within 0.125 of the donor's. */
  lemma BredBiasNearDonor(worst: NetState, donor: NetState, layers: seq<nat>, draws: MutationDraws, l: nat, i: nat)
    requires BiasShape(layers, donor.biases) && WeightShape(layers, donor.weights) && Fires(layers, draws)
    requires DeltasInRange(draws, 0.25) && l < |donor.biases| && i < |donor.biases[l]|
    ensures -0.125 <= Bred(worst, donor, layers, draws).biases[l][i] - donor.biases[l][i] < 0.125
  {
    var pass := FirstFiringPass(layers, donor.biases, donor.weights, MutationChance, draws);
    PerturbedBiasWithinHalfVal(donor.biases, pass, MutationChance, draws, 0.25, l, i);
  }

  /** When Mutate's delta draws are in range, a bred weight is within 0.125 of the donor's. */
  lemma BredWeightNearDonor(worst: NetState, donor: NetState, layers: seq<nat>, draws: MutationDraws,
                            l: nat, j: nat, k: nat)
    requires BiasShape(layers, donor.biases) && WeightShape(layers, donor.weights) && Fires(layers, draws)
    requires DeltasInRange(draws, 0.25) && l < |donor.weights| && j < |donor.weights[l]| && k < |donor.weights[l][j]|
    ensures -0.125 <= Bred(worst, donor, layers, draws).weights[l][j][k] - donor.weights[l][j][k] < 0.125
  {
    var pass := FirstFiringPass(layers, donor.biases, donor.weights, MutationChance, draws);
    PerturbedWeightWithinHalfVal(donor.weights, pass, MutationChance, draws, 0.25, l, j, k);
  }

  /**
   * Only a position in the lower half that is due and lies before the
   * stop is replaced; the upper half, the donors, is never touched.
   */
  lemma ReplacedOnlyWhenDue(s: seq<NetState>, half: nat, maxSuccess: real, layers: seq<nat>,
                            draws: seq<MutationDraws>, j: nat)
    requires 2 * half <= |s| && j < |s| && Shaped(s, layers) && Firing(draws, half, layers)
    ensures Replaced(s, half, maxSuccess, layers, draws, j) != s[j] ==>
              j < half && Due(s[j], maxSuccess) && j < StopFrom(s, half, maxSuccess, 0)
    ensures half <= j ==> Replaced(s, half, maxSuccess, layers, draws, j) == s[j]
  {
  }

  /** `ranked` lists, in the order `sorted`, the states of `before` after the first loop, each with its new score. */
  predicate RankedBy(before: seq<NetState>, fitness: seq<real>, sorted: seq<int>, ranked: seq<NetState>)
  {
    |before| == |fitness| == |sorted| == |ranked| &&
    (forall j :: 0 <= j < |sorted| ==> 0 <= sorted[j] < |before|) &&
    forall j :: 0 <= j < |sorted| ==> ranked[j] == Scored(before[sorted[j]], fitness[sorted[j]]).(score := ranked[j].score)
  }

  /** Scores ascend along `ranked`. */
  predicate Ascending(ranked: seq<NetState>)
  {
    forall i, j :: 0 <= i < j < |ranked| ==> ranked[i].score <= ranked[j].score
  }

  /**
   * What SortNetworkByFitness makes of the networks after the first loop,
   * their keys enumerated as `keys` before it: when the best fitness is 0
   * the scores and the enumeration stay as they were; otherwise every
   * network gets its Score and `sorted` re-enumerates the keys stably by
   * ascending Score.
   */
  predicate SortedByScore(before: seq<NetState>, fitness: seq<real>, keys: seq<int>, sorted: seq<int>,
                          ranked: seq<NetState>, maxFitness: real, wayPointCount: nat)
  {
    RankedBy(before, fitness, sorted, ranked) && |keys| == |before| &&
    (forall i :: 0 <= i < |keys| ==> 0 <= keys[i] < |before|) &&
    (maxFitness == 0.0 ==>
       sorted == keys && forall j :: 0 <= j < |ranked| ==> ranked[j].score == before[sorted[j]].score) &&
    (maxFitness != 0.0 ==>
       (forall j :: 0 <= j < |ranked| ==>
          ranked[j].score == ScoreOfState(Scored(before[sorted[j]], fitness[sorted[j]]), maxFitness, wayPointCount)) &&
       sorted == Reorder(keys, SortPermutation(ScoresAlong(ScoredAll(before, fitness), keys, maxFitness, wayPointCount))))
  }

  /**
   * After the sort, networks that have passed every way point are listed
   * in ascending order of fitness: their Score is their fitness.
   */
  lemma {:induction false} FinishersRankedByFitness(before: seq<NetState>, fitness: seq<real>, keys: seq<int>, sorted: seq<int>,
                                                    ranked: seq<NetState>, maxFitness: real, wayPointCount: nat)
    requires SortedByScore(before, fitness, keys, sorted, ranked, maxFitness, wayPointCount) && maxFitness != 0.0
    ensures Ascending(ranked)
    ensures forall i, j :: 0 <= i < j < |ranked| && wayPointCount as real < ranked[i].fitness && wayPointCount as real < ranked[j].fitness ==>
              ranked[i].fitness <= ranked[j].fitness
  {
    var scores := ScoresAlong(ScoredAll(before, fitness), keys, maxFitness, wayPointCount);
    var perm := SortPermutation(scores);
    forall j | 0 <= j < |ranked|
      ensures ranked[j].score == scores[perm[j]]
    {
      assert sorted[j] == keys[perm[j]];
    }
    forall j | 0 <= j < |ranked| && wayPointCount as real < ranked[j].fitness
      ensures ranked[j].score == ranked[j].fitness
    {
      var k := sorted[j];
      var sc := Scored(before[k], fitness[k]);
      assert ranked[j].fitness == sc.fitness;
      PennedScoreIsFitness(sc.fitness, sc.generation,
                           BestFitnessValue(sc.performance, sc.fitness, wayPointCount),
                           AverageFitnessValue(sc.performance, sc.fitness), maxFitness, wayPointCount);
    }
  }

  /** Every network from position `half` on is in the state it was ranked in. */
  lemma UpperHalfKept(nets: seq<Network>, ranked: seq<NetState>, half: nat, maxSuccess: real,
                      layers: seq<nat>, draws: seq<MutationDraws>)
    requires AllReplaced(nets, ranked, half, maxSuccess, layers, draws)
    ensures forall j :: half <= j < |nets| ==> StateOf(nets[j]) == ranked[j]
  {
    forall j | half <= j < |nets|
      ensures StateOf(nets[j]) == ranked[j]
    {
      ReplacedOnlyWhenDue(ranked, half, maxSuccess, layers, draws, j);
    }
  }

  /** A value at least `init`, bounding every entry of `s`, that is `init` or an entry, is MaxOf(init, s). */
  lemma PeakIsMax(init: real, s: seq<real>, m: real)
    requires init <= m && forall i :: 0 <= i < |s| ==> s[i] <= m
    requires m == init || exists i :: 0 <= i < |s| && s[i] == m
    ensures m == MaxOf(init, s)
  {
    var top := MaxOf(init, s);
    if top != init {
      var i :| 0 <= i < |s| && s[i] == top;
    }
    if m != init {
      var i :| 0 <= i < |s| && s[i] == m;
    }
  }

  /**
   * MutateFlock up to the list of networks it fills after the sort: the
   * first loop over the keys, SortNetworkByFitness, and the networks in
   * the new enumeration order.
   */
  method ScoreAndRank(registry: Registry, n: nat, fitness: seq<real>, wayPointCount: nat, ghost layers: seq<nat>)
    returns (success: real, nets: seq<Network>, ghost before: seq<NetState>, ghost sorted: seq<int>,
             ghost ranked: seq<NetState>, ghost maxFitness: real)
    requires Keyed(registry, n, layers) && |fitness| == n
    modifies registry`order, registry.Repr
    ensures Keyed(registry, n, layers) && registry.slots == old(registry.slots) && registry.order == sorted
    ensures |before| == n && forall k :: 0 <= k < n ==> before[k] == old(StateOf(registry.slots[k]))
    ensures KeyOrder(old(registry.slots).Keys, sorted) && RankedBy(before, fitness, sorted, ranked)
    ensures Lists(old(registry.slots), sorted, nets) && forall j :: 0 <= j < n ==> StateOf(nets[j]) == ranked[j]
    ensures success == MaxOf(0.0, Successes(before, fitness, wayPointCount))
    ensures maxFitness == MaxOf(-1.0, fitness)
    ensures maxFitness == 0.0 ==> sorted == old(registry.order)
    ensures maxFitness != 0.0 ==> Ascending(ranked)
    ensures SortedByScore(before, fitness, old(registry.order), sorted, ranked, maxFitness, wayPointCount)
  {
    ghost var scored, after;
    success, before, scored, after, maxFitness := ScoreAndSort(registry, n, fitness, wayPointCount, layers);
    nets, sorted, ranked := ListInOrder(registry, n, fitness, before, scored, layers);
    forall j | 0 <= j < n
      ensures ranked[j].score == after[sorted[j]].score
    {
      assert StateOf(nets[j]) == ranked[j];
    }
    RankedByScore(before, fitness, old(registry.order), sorted, ranked, scored, after, maxFitness, wayPointCount);
  }

  /** The scores the sort gave each key (`after`), read along `sorted`, make `ranked` SortedByScore. */
  lemma RankedByScore(before: seq<NetState>, fitness: seq<real>, keys: seq<int>, sorted: seq<int>, ranked: seq<NetState>,
                      scored: seq<NetState>, after: seq<NetState>, maxFitness: real, wayPointCount: nat)
    requires RankedBy(before, fitness, sorted, ranked) && |keys| == |before| == |after|
    requires forall i :: 0 <= i < |keys| ==> 0 <= keys[i] < |before|
    requires scored == ScoredAll(before, fitness)
    requires forall j :: 0 <= j < |ranked| ==> ranked[j].score == after[sorted[j]].score
    requires maxFitness == 0.0 ==> sorted == keys && forall k :: 0 <= k < |before| ==> after[k].score == before[k].score
    requires maxFitness != 0.0 ==>
               (forall k :: 0 <= k < |before| ==> after[k].score == ScoreOfState(scored[k], maxFitness, wayPointCount)) &&
               sorted == Reorder(keys, SortPermutation(ScoresAlong(scored, keys, maxFitness, wayPointCount)))
    ensures SortedByScore(before, fitness, keys, sorted, ranked, maxFitness, wayPointCount)
  {
  }

  /** MutateFlock's first loop over the keys, then SortNetworkByFitness. */
  method ScoreAndSort(registry: Registry, n: nat, fitness: seq<real>, wayPointCount: nat, ghost layers: seq<nat>)
    returns (success: real, ghost before: seq<NetState>, ghost scored: seq<NetState>, ghost after: seq<NetState>,
             ghost maxFitness: real)
    requires Keyed(registry, n, layers) && |fitness| == n
    modifies registry`order, registry.Repr
    ensures Keyed(registry, n, layers) && registry.slots == old(registry.slots)
    ensures |before| == n && forall k :: 0 <= k < n ==> before[k] == old(StateOf(registry.slots[k]))
    ensures |scored| == n && forall k :: 0 <= k < n ==> scored[k] == Scored(before[k], fitness[k])
    ensures scored == ScoredAll(before, fitness)
    ensures forall k :: 0 <= k < n ==> StateOf(registry.slots[k]) == scored[k].(score := registry.slots[k].score)
    ensures success == MaxOf(0.0, Successes(before, fitness, wayPointCount))
    ensures maxFitness == MaxOf(-1.0, fitness)
    ensures maxFitness == 0.0 ==> registry.order == old(registry.order)
    ensures |after| == n && forall k :: 0 <= k < n ==> after[k] == StateOf(registry.slots[k])
    ensures maxFitness == 0.0 ==> forall k :: 0 <= k < n ==> after[k].score == before[k].score
    ensures maxFitness != 0.0 ==> forall k :: 0 <= k < n ==> after[k].score == ScoreOfState(scored[k], maxFitness, wayPointCount)
    ensures maxFitness != 0.0 ==>
              registry.order == Reorder(old(registry.order), SortPermutation(ScoresAlong(scored, old(registry.order), maxFitness, wayPointCount)))
    ensures maxFitness != 0.0 ==>
              forall i, j :: 0 <= i < j < |registry.order| ==> registry.slots[registry.order[i]].score <= registry.slots[registry.order[j]].score
  {
    before := StatesOf(KeyedNets(registry.slots, n));
    assert forall k :: 0 <= k < n ==> before[k] == StateOf(registry.slots[k]);
    success := UpdateFitness(registry, n, fitness, wayPointCount, layers, before);
    scored := StatesOf(KeyedNets(registry.slots, n));
    assert scored == ScoredAll(before, fitness);
    maxFitness := Rank(registry, n, wayPointCount, layers, scored);
    PeakIsMax(-1.0, fitness, maxFitness);
    after := StatesOf(KeyedNets(registry.slots, n));
  }

  /** The list MutateFlock fills from the keys after the sort: the networks in enumeration order. */
  method ListInOrder(registry: Registry, n: nat, fitness: seq<real>, ghost before: seq<NetState>,
                     ghost scored: seq<NetState>, ghost layers: seq<nat>)
    returns (nets: seq<Network>, ghost sorted: seq<int>, ghost ranked: seq<NetState>)
    requires Keyed(registry, n, layers) && |before| == |scored| == |fitness| == n
    requires forall k :: 0 <= k < n ==> scored[k] == Scored(before[k], fitness[k])
    requires forall k :: 0 <= k < n ==> StateOf(registry.slots[k]) == scored[k].(score := registry.slots[k].score)
    ensures sorted == registry.order && KeyOrder(registry.slots.Keys, sorted) && RankedBy(before, fitness, sorted, ranked)
    ensures Lists(registry.slots, sorted, nets) && forall j :: 0 <= j < n ==> StateOf(nets[j]) == ranked[j]
    ensures (forall i, j :: 0 <= i < j < |registry.order| ==>
               registry.slots[registry.order[i]].score <= registry.slots[registry.order[j]].score) ==> Ascending(ranked)
  {
    OrderCoversKeys(registry, n, layers);
    sorted := registry.order;
    nets := registry.Enumerated();
    ranked := StatesOf(nets);
    forall j | 0 <= j < n
      ensures ranked[j] == Scored(before[sorted[j]], fitness[sorted[j]]).(score := ranked[j].score)
    {
      var k := sorted[j];
      assert ranked[j] == StateOf(registry.slots[k]) == scored[k].(score := registry.slots[k].score);
    }
  }

  /**
   * MutateFlock. With one dog its network is replaced by a fresh one
   * (fitness 0, generation 0) under the same key. With more, every network
   * is scored and the keys sorted by ascending Score; the worse half is
   * replaced from the better half as Replaced says, the better half is
   * kept as it was; a completed loop then rebinds the worst key to a fresh
   * network and unsorts the dictionary, an early return leaves it sorted.
   * The ghost results are as MutateMany describes them.
   */
  method MutateFlock(registry: Registry, n: nat, fitness: seq<real>, wayPointCount: nat,
                     layers: seq<nat>, activations: seq<ActivationKind>, rng: nat -> Draw10000,
                     draws: seq<MutationDraws>)
    returns (ghost before: seq<NetState>, ghost sorted: seq<int>, ghost nets: seq<Network>, ghost ranked: seq<NetState>,
             ghost maxSuccess: real, ghost maxFitness: real, ghost completed: bool)
    requires Keyed(registry, n, layers) && 1 <= n && |fitness| == n
    requires 2 <= |layers| && |activations| == |layers| && Firing(draws, n / 2, layers)
    modifies registry, registry.Repr
    ensures Keyed(registry, n, layers)
    ensures n == 1 ==> registry.order == old(registry.order) && fresh(registry.slots[0])
    ensures n == 1 ==> Newborn(registry.slots[0], layers, activations, rng)
    ensures n == 1 ==> registry.slots[0].fitness == 0.0 && registry.slots[0].generationOfLastMutation == 0
    ensures 2 <= n ==>
              |before| == n && (forall k :: 0 <= k < n ==> before[k] == old(StateOf(registry.slots[k]))) &&
              KeyOrder(old(registry.slots).Keys, sorted) &&
              SortedByScore(before, fitness, old(registry.order), sorted, ranked, maxFitness, wayPointCount) &&
              maxFitness == MaxOf(-1.0, fitness) && (maxFitness != 0.0 ==> Ascending(ranked)) &&
              maxSuccess == MaxOf(0.0, Successes(before, fitness, wayPointCount))
    ensures 2 <= n ==>
              (completed <==> StopFrom(ranked, n / 2, maxSuccess, 0) == n / 2) &&
              Lists(old(registry.slots), sorted, nets) && AllReplaced(nets, ranked, n / 2, maxSuccess, layers, draws) &&
              UpperHalfUnchanged(registry.slots, sorted, ranked, n / 2)
    ensures 2 <= n && !completed ==> registry.slots == old(registry.slots) && registry.order == sorted
    ensures 2 <= n && completed ==>
              registry.order == Positions(n) &&
              registry.slots == old(registry.slots)[sorted[0] := registry.slots[sorted[0]]] &&
              fresh(registry.slots[sorted[0]]) && Newborn(registry.slots[sorted[0]], layers, activations, rng) &&
              registry.slots[sorted[0]].generationOfLastMutation == 0 &&
              registry.slots[sorted[0]].fitness == AverageFitnessValue(ranked[Keep(n)].performance, ranked[Keep(n)].fitness)
  {
    if n == 1 {
      var net := new Network(0, layers, activations, rng);
      registry.Register(net);
      return [], [], [], [], 0.0, 0.0, false;
    }
    before, sorted, nets, ranked, maxSuccess, maxFitness, completed :=
      MutateMany(registry, n, fitness, wayPointCount, layers, activations, rng, draws);
  }

  /**
   * MutateFlock with more than one dog. `before` is each key's network as
   * it was, `sorted` the enumeration after SortNetworkByFitness, `nets`
   * the networks in that order and `ranked` their states after the first
   * loop and the sort. The worse half is replaced as Replaced says; a
   * completed loop then rebinds the worst key to a fresh network and
   * unsorts the dictionary, an early return leaves it in sorted order.
   */
  method MutateMany(registry: Registry, n: nat, fitness: seq<real>, wayPointCount: nat,
                    layers: seq<nat>, activations: seq<ActivationKind>, rng: nat -> Draw10000,
                    draws: seq<MutationDraws>)
    returns (ghost before: seq<NetState>, ghost sorted: seq<int>, ghost nets: seq<Network>, ghost ranked: seq<NetState>,
             ghost maxSuccess: real, ghost maxFitness: real, ghost completed: bool)
    requires Keyed(registry, n, layers) && 2 <= n && |fitness| == n
    requires 2 <= |layers| && |activations| == |layers| && Firing(draws, n / 2, layers)
    modifies registry, registry.Repr
    ensures Keyed(registry, n, layers)
    ensures |before| == n && forall k :: 0 <= k < n ==> before[k] == old(StateOf(registry.slots[k]))
    ensures KeyOrder(old(registry.slots).Keys, sorted) && RankedBy(before, fitness, sorted, ranked)
    ensures maxSuccess == MaxOf(0.0, Successes(before, fitness, wayPointCount))
    ensures maxFitness == MaxOf(-1.0, fitness)
    ensures maxFitness == 0.0 ==> sorted == old(registry.order)
    ensures maxFitness != 0.0 ==> Ascending(ranked)
    ensures SortedByScore(before, fitness, old(registry.order), sorted, ranked, maxFitness, wayPointCount)
    ensures completed <==> StopFrom(ranked, n / 2, maxSuccess, 0) == n / 2
    ensures Lists(old(registry.slots), sorted, nets) && AllReplaced(nets, ranked, n / 2, maxSuccess, layers, draws)
    ensures UpperHalfUnchanged(registry.slots, sorted, ranked, n / 2)
    ensures !completed ==> registry.slots == old(registry.slots) && registry.order == sorted
    ensures completed ==>
              (registry.order == Positions(n) &&
               registry.slots == old(registry.slots)[sorted[0] := registry.slots[sorted[0]]])
    ensures completed ==> fresh(registry.slots[sorted[0]]) && Newborn(registry.slots[sorted[0]], layers, activations, rng)
    ensures completed ==>
              (registry.slots[sorted[0]].generationOfLastMutation == 0 &&
               registry.slots[sorted[0]].fitness == AverageFitnessValue(ranked[Keep(n)].performance, ranked[Keep(n)].fitness))
  {
    var success, list;
    success, list, before, sorted, ranked, maxFitness := ScoreAndRank(registry, n, fitness, wayPointCount, layers);
    nets, maxSuccess := list, success;
    var done := ReplaceInOrder(registry, n, list, success, draws, layers, ranked);
    completed := done;
    UpperHalfKept(nets, ranked, n / 2, maxSuccess, layers, draws);
    if !done {
      KeptInSlots(registry.slots, sorted, nets, ranked, n / 2);
      return;
    }
    ReplacedOnlyWhenDue(ranked, n / 2, maxSuccess, layers, draws, Keep(n));
    ghost var slots := registry.slots;
    Finish(registry, n, list, sorted, ranked, layers, activations, rng, maxSuccess, draws);
    OthersKeepTheirNetworks(slots, registry.slots, sorted, nets);
    KeptInSlots(registry.slots, sorted, nets, ranked, n / 2);
  }

  /** The keys from position `half` of `sorted` on are bound to networks in the states `ranked` lists. */
  ghost predicate UpperHalfUnchanged(slots: map<int, Network>, sorted: seq<int>, ranked: seq<NetState>, half: nat)
    reads slots.Values
  {
    |sorted| == |ranked| && forall j :: half <= j < |sorted| ==> sorted[j] in slots && StateOf(slots[sorted[j]]) == ranked[j]
  }

  lemma KeptInSlots(slots: map<int, Network>, sorted: seq<int>, nets: seq<Network>, ranked: seq<NetState>, half: nat)
    requires |nets| == |sorted| == |ranked| && 1 <= half
    requires forall j :: 1 <= j < |sorted| ==> sorted[j] in slots && slots[sorted[j]] == nets[j]
    requires forall j :: half <= j < |nets| ==> StateOf(nets[j]) == ranked[j]
    ensures UpperHalfUnchanged(slots, sorted, ranked, half)
  {
  }

  /** Rebinding the first key of an enumeration leaves every other key bound to its network. */
  lemma OthersKeepTheirNetworks(before: map<int, Network>, after: map<int, Network>, sorted: seq<int>, nets: seq<Network>)
    requires Lists(before, sorted, nets) && 1 <= |sorted|
    requires forall i, j :: 0 <= i < j < |sorted| ==> sorted[i] != sorted[j]
    requires sorted[0] in after && after == before[sorted[0] := after[sorted[0]]]
    ensures forall j :: 1 <= j < |sorted| ==> sorted[j] in after && after[sorted[j]] == nets[j]
  {
  }

  /** `nets` lists the networks bound to the keys of `sorted`, in that order. */
  predicate Lists(slots: map<int, Network>, sorted: seq<int>, nets: seq<Network>)
  {
    |nets| == |sorted| && forall j :: 0 <= j < |sorted| ==> sorted[j] in slots && nets[j] == slots[sorted[j]]
  }

  /** Every network of `nets` is in the state Replaced gives its position. */
  ghost predicate AllReplaced(nets: seq<Network>, ranked: seq<NetState>, half: nat, maxSuccess: real,
                              layers: seq<nat>, draws: seq<MutationDraws>)
    reads set j | 0 <= j < |nets| :: nets[j]
  {
    |nets| == |ranked| && 2 * half <= |ranked| && Shaped(ranked, layers) && Firing(draws, half, layers) &&
    forall j :: 0 <= j < |nets| ==> StateOf(nets[j]) == Replaced(ranked, half, maxSuccess, layers, draws, j)
  }

  /**
   * The end of a completed MutateFlock: the worst key rebound to a fresh
   * network whose fitness is the average fitness of the network at three
   * quarters of the sorted list, then the dictionary unsorted.
   */
  method Finish(registry: Registry, n: nat, nets: seq<Network>, ghost sorted: seq<int>, ghost ranked: seq<NetState>,
                layers: seq<nat>, activations: seq<ActivationKind>, rng: nat -> Draw10000,
                ghost maxSuccess: real, ghost draws: seq<MutationDraws>)
    requires Keyed(registry, n, layers) && 2 <= n && |ranked| == n
    requires AllReplaced(nets, ranked, n / 2, maxSuccess, layers, draws)
    requires Lists(registry.slots, sorted, nets) && |sorted| == n
    requires StateOf(nets[Keep(n)]) == ranked[Keep(n)]
    requires 2 <= |layers| && |activations| == |layers|
    modifies registry
    ensures AllReplaced(nets, ranked, n / 2, maxSuccess, layers, draws)
    ensures Keyed(registry, n, layers) && registry.order == Positions(n) && sorted[0] in registry.slots
    ensures registry.slots == old(registry.slots)[sorted[0] := registry.slots[sorted[0]]]
    ensures fresh(registry.slots[sorted[0]]) && Newborn(registry.slots[sorted[0]], layers, activations, rng)
    ensures registry.slots[sorted[0]].generationOfLastMutation == 0
    ensures registry.slots[sorted[0]].fitness == AverageFitnessValue(ranked[Keep(n)].performance, ranked[Keep(n)].fitness)
  {
    var average := nets[Keep(n)].AverageFitness();
    assert nets[0].id == sorted[0];
    ghost var replacement := Reset(registry, n, nets[0].id, layers, activations, rng, average);
  }
}

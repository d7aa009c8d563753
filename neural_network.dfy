/**
 * The feed-forward network of AI/NeuralNetwork.cs: its topology checks and
 * random initialisation, FeedForward, Mutate, CopyFromTo, the line-per-value
 * file format of Save/Load, and the two history aggregates BestFitness and
 * AverageFitness.
 *
 * The jagged arrays Neurons, Biases and Weights are `seq` fields that the
 * methods reassign one element at a time. Draws from RandomNumberGenerator
 * are oracle functions indexed by the position of the draw.
 */
module NeuralNetwork {
  import opened Numerics
  import opened Activation
  import opened Tensors

  datatype Option<T> = None | Some(value: T)

  /** A draw of RandomNumberGenerator.GetInt32(0, 10000). */
  type Draw10000 = d: int | 0 <= d < 10000

  /** A draw of RandomNumberGenerator.GetInt32(0, 100). */
  type Draw100 = d: int | 0 <= d < 100

  /** RandomFloatBetweenMinusHalfToPlusHalf, for the integer it drew. */
  function InitialValue(d: Draw10000): (v: real)
    ensures -0.5 <= v < 0.5
  {
    (d - 5000) as real / 10000.0
  }

  /** The values made from `n` consecutive draws, starting with draw number `start`. */
  function InitialValues(rng: nat -> Draw10000, start: nat, n: nat): (r: seq<real>)
    ensures |r| == n
    ensures forall i :: 0 <= i < n ==> r[i] == InitialValue(rng(start + i)) && -0.5 <= r[i] < 0.5
  {
    seq(n, i requires 0 <= i < n => InitialValue(rng(start + i)))
  }

  lemma InitialValuesNext(rng: nat -> Draw10000, start: nat, n: nat)
    ensures InitialValues(rng, start, n + 1) == InitialValues(rng, start, n) + [InitialValue(rng(start + n))]
  {
  }

  /** Consecutive runs of draws join into one run. */
  lemma InitialValuesSplit(rng: nat -> Draw10000, start: nat, a: nat, n: nat)
    ensures InitialValues(rng, start, a + n) == InitialValues(rng, start, a) + InitialValues(rng, start + a, n)
  {
    var whole, left, right := InitialValues(rng, start, a + n), InitialValues(rng, start, a), InitialValues(rng, start + a, n);
    forall i | 0 <= i < a + n
      ensures whole[i] == (left + right)[i]
    {
      if a <= i {
        assert right[i - a] == InitialValue(rng(start + a + (i - a)));
      }
    }
  }

  function Zeros(n: nat): (r: seq<real>)
    ensures |r| == n && forall i :: 0 <= i < n ==> r[i] == 0.0
  {
    seq(n, i => 0.0)
  }

  /*
   * The value FeedForward computes.
   */

  /** Layer `l`'s neurons from layer `l - 1`'s: activation of weighted sum plus bias. */
  function LayerOutput(kind: ActivationKind, tr: Transcendentals, w: seq<seq<real>>, b: seq<real>, prev: seq<real>): (out: seq<real>)
    requires IsPositive(tr.exp)
    requires |w| == |b| && forall j :: 0 <= j < |w| ==> |w[j]| == |prev|
    ensures |out| == |b|
  {
    seq(|b|, j requires 0 <= j < |b| => NeuronOutput(kind, tr, w[j], b[j], prev))
  }

  /** One neuron of a layer: the activation of its weighted sum plus its bias. */
  function NeuronOutput(kind: ActivationKind, tr: Transcendentals, w: seq<real>, b: real, prev: seq<real>): real
    requires IsPositive(tr.exp) && |w| == |prev|
  {
    Activate(kind, tr, WeightedSum(w, prev) + b)
  }

  /** The neurons of layer `l` when layer 0 holds `input`. */
  function Forward(layers: seq<nat>, acts: seq<ActivationKind>, tr: Transcendentals,
                   weights: seq<seq<seq<real>>>, biases: seq<seq<real>>, input: seq<real>, l: nat): (v: seq<real>)
    requires IsPositive(tr.exp)
    requires l < |layers| == |acts| && WeightShape(layers, weights) && BiasShape(layers, biases)
    requires |input| == layers[0]
    ensures |v| == layers[l]
  {
    if l == 0 then input
    else LayerOutput(acts[l], tr, weights[l - 1], biases[l - 1],
                     Forward(layers, acts, tr, weights, biases, input, l - 1))
  }

  /** Entry `j` of a computed layer. */
  lemma LayerOutputAt(kind: ActivationKind, tr: Transcendentals, w: seq<seq<real>>, b: seq<real>, prev: seq<real>, j: nat)
    requires IsPositive(tr.exp)
    requires |w| == |b| && forall i :: 0 <= i < |w| ==> |w[i]| == |prev|
    requires j < |b|
    ensures LayerOutput(kind, tr, w, b, prev)[j] == NeuronOutput(kind, tr, w[j], b[j], prev)
  {
  }

  /** Layer `l` is computed from layer `l - 1` alone. */
  lemma ForwardStep(layers: seq<nat>, acts: seq<ActivationKind>, tr: Transcendentals,
                    weights: seq<seq<seq<real>>>, biases: seq<seq<real>>, input: seq<real>, l: nat, prev: seq<real>)
    requires IsPositive(tr.exp)
    requires 0 < l < |layers| == |acts| && WeightShape(layers, weights) && BiasShape(layers, biases)
    requires |input| == layers[0]
    requires prev == Forward(layers, acts, tr, weights, biases, input, l - 1)
    ensures Forward(layers, acts, tr, weights, biases, input, l) == LayerOutput(acts[l], tr, weights[l - 1], biases[l - 1], prev)
  {
  }

  /** A neuron with all-zero weights outputs the activation of its bias alone. */
  lemma ZeroWeightsGiveActivatedBias(layers: seq<nat>, acts: seq<ActivationKind>, tr: Transcendentals,
                                     weights: seq<seq<seq<real>>>, biases: seq<seq<real>>, input: seq<real>,
                                     l: nat, j: nat)
    requires IsPositive(tr.exp)
    requires 0 < l < |layers| == |acts| && WeightShape(layers, weights) && BiasShape(layers, biases)
    requires |input| == layers[0] && j < layers[l]
    requires weights[l - 1][j] == Zeros(layers[l - 1])
    ensures Forward(layers, acts, tr, weights, biases, input, l)[j] == Activate(acts[l], tr, biases[l - 1][j])
  {
    var prev := Forward(layers, acts, tr, weights, biases, input, l - 1);
    ForwardStep(layers, acts, tr, weights, biases, input, l, prev);
    var w, b := weights[l - 1], biases[l - 1];
    LayerOutputAt(acts[l], tr, w, b, prev, j);
    WeightedSumOfZeroWeights(w[j], prev);
  }

  /** A sigmoid output layer yields values strictly between 0 and 1, whatever the input. */
  lemma SigmoidOutputInUnitInterval(layers: seq<nat>, acts: seq<ActivationKind>, tr: Transcendentals,
                                    weights: seq<seq<seq<real>>>, biases: seq<seq<real>>, input: seq<real>,
                                    l: nat, j: nat)
    requires IsPositive(tr.exp)
    requires 0 < l < |layers| == |acts| && WeightShape(layers, weights) && BiasShape(layers, biases)
    requires |input| == layers[0] && j < layers[l] && acts[l] == Sigmoid
    ensures 0.0 < Forward(layers, acts, tr, weights, biases, input, l)[j] < 1.0
  {
    ForwardStep(layers, acts, tr, weights, biases, input, l, Forward(layers, acts, tr, weights, biases, input, l - 1));
  }

  /*
   * Mutation.
   */

  /**
   * The draws Mutate makes, by position: pass number, then layer, neuron
   * (and source neuron for a weight). `...Chance` is GetInt32(0, 100), and
   * `...Delta` is GetInt32((int)(-val * 10000), (int)(val * 10000)).
   */
  datatype MutationDraws = MutationDraws(
    biasChance: (nat, nat, nat) -> Draw100,
    biasDelta: (nat, nat, nat) -> int,
    weightChance: (nat, nat, nat, nat) -> Draw100,
    weightDelta: (nat, nat, nat, nat) -> int)

  /** The delta draws lie in the range Mutate asks for. */
  ghost predicate DeltasInRange(draws: MutationDraws, val: real)
  {
    (forall p: nat, l: nat, j: nat ::
       Trunc(-val * 10000.0) <= draws.biasDelta(p, l, j) < Trunc(val * 10000.0)) &&
    (forall p: nat, l: nat, j: nat, k: nat ::
       Trunc(-val * 10000.0) <= draws.weightDelta(p, l, j, k) < Trunc(val * 10000.0))
  }

  /** What one parameter gains from one chance draw and one delta draw. */
  function Step(chance: Draw100, delta: int, pctChance: int): (r: real)
    ensures pctChance < chance ==> r == 0.0
    ensures chance <= pctChance ==> r * 20000.0 == delta as real
  {
    if chance <= pctChance then delta as real / 20000.0 else 0.0
  }

  /** The delta added to a parameter lies in [-val/2, val/2). */
  lemma StepBounds(chance: Draw100, delta: int, pctChance: int, val: real)
    requires Trunc(-val * 10000.0) <= delta < Trunc(val * 10000.0)
    ensures -val / 2.0 <= Step(chance, delta, pctChance) < val / 2.0
  {
  }

  /** GetInt32's range for the delta is non-empty exactly when `val` is at least 1/10000. */
  lemma DeltaRangeNonEmpty(val: real)
    ensures Trunc(-val * 10000.0) < Trunc(val * 10000.0) <==> 1.0 <= val * 10000.0
  {
    if 1.0 <= val * 10000.0 {
      assert 1 <= Trunc(val * 10000.0);
      assert Trunc(-val * 10000.0) <= -1;
    } else if 0.0 <= val {
      assert Trunc(val * 10000.0) == 0;
    } else {
      assert Trunc(val * 10000.0) <= 0 <= Trunc(-val * 10000.0);
    }
  }

  function PerturbBiasRow(row: seq<real>, p: nat, l: nat, pctChance: int, draws: MutationDraws): (r: seq<real>)
    ensures |r| == |row|
  {
    seq(|row|, i requires 0 <= i < |row| => row[i] + Step(draws.biasChance(p, l, i), draws.biasDelta(p, l, i), pctChance))
  }

  /** The biases after pass `p` of Mutate's retry loop. */
  function PerturbBiases(b: seq<seq<real>>, p: nat, pctChance: int, draws: MutationDraws): (r: seq<seq<real>>)
    ensures SameRows(r, b)
  {
    seq(|b|, l requires 0 <= l < |b| => PerturbBiasRow(b[l], p, l, pctChance, draws))
  }

  function PerturbWeightRow(row: seq<real>, p: nat, l: nat, j: nat, pctChance: int, draws: MutationDraws): (r: seq<real>)
    ensures |r| == |row|
  {
    seq(|row|, k requires 0 <= k < |row| =>
      row[k] + Step(draws.weightChance(p, l, j, k), draws.weightDelta(p, l, j, k), pctChance))
  }

  function PerturbWeightMatrix(m: seq<seq<real>>, p: nat, l: nat, pctChance: int, draws: MutationDraws): (r: seq<seq<real>>)
    ensures SameRows(r, m)
  {
    seq(|m|, j requires 0 <= j < |m| => PerturbWeightRow(m[j], p, l, j, pctChance, draws))
  }

  /** The weights after pass `p` of Mutate's retry loop. */
  function PerturbWeights(w: seq<seq<seq<real>>>, p: nat, pctChance: int, draws: MutationDraws): (r: seq<seq<seq<real>>>)
    ensures SameRows3(r, w)
  {
    seq(|w|, l requires 0 <= l < |w| => PerturbWeightMatrix(w[l], p, l, pctChance, draws))
  }

  predicate BiasRowFires(row: seq<real>, p: nat, l: nat, pctChance: int, draws: MutationDraws)
  {
    exists i :: 0 <= i < |row| && draws.biasChance(p, l, i) <= pctChance
  }

  predicate BiasesFire(b: seq<seq<real>>, p: nat, pctChance: int, draws: MutationDraws)
  {
    exists l :: 0 <= l < |b| && BiasRowFires(b[l], p, l, pctChance, draws)
  }

  predicate WeightRowFires(row: seq<real>, p: nat, l: nat, j: nat, pctChance: int, draws: MutationDraws)
  {
    exists k :: 0 <= k < |row| && draws.weightChance(p, l, j, k) <= pctChance
  }

  predicate WeightMatrixFires(m: seq<seq<real>>, p: nat, l: nat, pctChance: int, draws: MutationDraws)
  {
    exists j :: 0 <= j < |m| && WeightRowFires(m[j], p, l, j, pctChance, draws)
  }

  predicate WeightsFire(w: seq<seq<seq<real>>>, p: nat, pctChance: int, draws: MutationDraws)
  {
    exists l :: 0 <= l < |w| && WeightMatrixFires(w[l], p, l, pctChance, draws)
  }

  /** Pass `p` of the retry loop sets the local `mutated`: some chance draw of it was at most pctChance. */
  predicate PassFires(b: seq<seq<real>>, w: seq<seq<seq<real>>>, p: nat, pctChance: int, draws: MutationDraws)
  {
    BiasesFire(b, p, pctChance, draws) || WeightsFire(w, p, pctChance, draws)
  }

  /**
   * Pass `p` fires for every network with the given layer sizes: its chance
   * draws index the tensors' positions, so whether it fires depends on the
   * shape alone.
   */
  predicate LayersFire(layers: seq<nat>, p: nat, pctChance: int, draws: MutationDraws)
  {
    (exists l, i :: 0 <= l < |layers| - 1 && 0 <= i < layers[l + 1] && draws.biasChance(p, l, i) <= pctChance) ||
    (exists l, j, k :: 0 <= l < |layers| - 1 && 0 <= j < layers[l + 1] && 0 <= k < layers[l] &&
       draws.weightChance(p, l, j, k) <= pctChance)
  }

  /** A pass fires on tensors of a given shape exactly when it fires for their layer sizes. */
  lemma PassFiresByShape(layers: seq<nat>, b: seq<seq<real>>, w: seq<seq<seq<real>>>, p: nat, pctChance: int,
                         draws: MutationDraws)
    requires BiasShape(layers, b) && WeightShape(layers, w)
    ensures PassFires(b, w, p, pctChance, draws) <==> LayersFire(layers, p, pctChance, draws)
  {
    if BiasesFire(b, p, pctChance, draws) {
      var l :| 0 <= l < |b| && BiasRowFires(b[l], p, l, pctChance, draws);
      var i :| 0 <= i < |b[l]| && draws.biasChance(p, l, i) <= pctChance;
      assert 0 <= l < |layers| - 1 && 0 <= i < layers[l + 1];
    } else if WeightsFire(w, p, pctChance, draws) {
      var l :| 0 <= l < |w| && WeightMatrixFires(w[l], p, l, pctChance, draws);
      var j :| 0 <= j < |w[l]| && WeightRowFires(w[l][j], p, l, j, pctChance, draws);
      var k :| 0 <= k < |w[l][j]| && draws.weightChance(p, l, j, k) <= pctChance;
      assert 0 <= l < |layers| - 1 && 0 <= j < layers[l + 1] && 0 <= k < layers[l];
    }
    if LayersFire(layers, p, pctChance, draws) {
      if exists l, i :: 0 <= l < |layers| - 1 && 0 <= i < layers[l + 1] && draws.biasChance(p, l, i) <= pctChance {
        var l, i :| 0 <= l < |layers| - 1 && 0 <= i < layers[l + 1] && draws.biasChance(p, l, i) <= pctChance;
        assert BiasRowFires(b[l], p, l, pctChance, draws);
      } else {
        var l, j, k :| 0 <= l < |layers| - 1 && 0 <= j < layers[l + 1] && 0 <= k < layers[l] &&
          draws.weightChance(p, l, j, k) <= pctChance;
        assert WeightRowFires(w[l][j], p, l, j, pctChance, draws);
        assert WeightMatrixFires(w[l], p, l, pctChance, draws);
      }
    }
  }

  /** The first pass from `from` on whose chance draws succeed, when pass `bound` is one. */
  ghost function FirstFiringFrom(b: seq<seq<real>>, w: seq<seq<seq<real>>>, pctChance: int,
                           draws: MutationDraws, from: nat, bound: nat): (r: nat)
    requires from <= bound && PassFires(b, w, bound, pctChance, draws)
    ensures from <= r <= bound && PassFires(b, w, r, pctChance, draws)
    ensures forall q :: from <= q < r ==> !PassFires(b, w, q, pctChance, draws)
    decreases bound - from
  {
    if PassFires(b, w, from, pctChance, draws) then from
    else FirstFiringFrom(b, w, pctChance, draws, from + 1, bound)
  }

  /** The pass that ends Mutate's retry loop: the first whose chance draws succeed. */
  ghost function FirstFiringPass(layers: seq<nat>, b: seq<seq<real>>, w: seq<seq<seq<real>>>, pctChance: int,
                                 draws: MutationDraws): (r: nat)
    requires BiasShape(layers, b) && WeightShape(layers, w)
    requires exists p: nat :: LayersFire(layers, p, pctChance, draws)
    ensures PassFires(b, w, r, pctChance, draws)
    ensures forall q :: 0 <= q < r ==> !PassFires(b, w, q, pctChance, draws)
  {
    var bound: nat :| LayersFire(layers, bound, pctChance, draws);
    PassFiresByShape(layers, b, w, bound, pctChance, draws);
    FirstFiringFrom(b, w, pctChance, draws, 0, bound)
  }

  /** A pass in which no chance draw succeeds leaves every bias as it was. */
  lemma QuietPassKeepsBiases(b: seq<seq<real>>, p: nat, pctChance: int, draws: MutationDraws)
    requires !BiasesFire(b, p, pctChance, draws)
    ensures PerturbBiases(b, p, pctChance, draws) == b
  {
    forall l | 0 <= l < |b|
      ensures PerturbBiasRow(b[l], p, l, pctChance, draws) == b[l]
    {
      assert !BiasRowFires(b[l], p, l, pctChance, draws);
    }
  }

  /** A pass in which no chance draw succeeds leaves every weight as it was. */
  lemma QuietPassKeepsWeights(w: seq<seq<seq<real>>>, p: nat, pctChance: int, draws: MutationDraws)
    requires !WeightsFire(w, p, pctChance, draws)
    ensures PerturbWeights(w, p, pctChance, draws) == w
  {
    forall l | 0 <= l < |w|
      ensures PerturbWeightMatrix(w[l], p, l, pctChance, draws) == w[l]
    {
      assert !WeightMatrixFires(w[l], p, l, pctChance, draws);
      forall j | 0 <= j < |w[l]|
        ensures PerturbWeightRow(w[l][j], p, l, j, pctChance, draws) == w[l][j]
      {
        assert !WeightRowFires(w[l][j], p, l, j, pctChance, draws);
      }
    }
  }

  /** A parameter whose chance draw fails is not changed by the pass. */
  lemma UnchosenBiasUnchanged(b: seq<seq<real>>, p: nat, pctChance: int, draws: MutationDraws, l: nat, i: nat)
    requires l < |b| && i < |b[l]| && pctChance < draws.biasChance(p, l, i)
    ensures PerturbBiases(b, p, pctChance, draws)[l][i] == b[l][i]
  {
  }

  /** When the delta draws lie in Mutate's range, a pass moves each bias by less than val/2. */
  lemma PerturbedBiasWithinHalfVal(b: seq<seq<real>>, p: nat, pctChance: int, draws: MutationDraws, val: real,
                                   l: nat, i: nat)
    requires DeltasInRange(draws, val) && l < |b| && i < |b[l]|
    ensures -val / 2.0 <= PerturbBiases(b, p, pctChance, draws)[l][i] - b[l][i] < val / 2.0
  {
    StepBounds(draws.biasChance(p, l, i), draws.biasDelta(p, l, i), pctChance, val);
  }

  /** When the delta draws lie in Mutate's range, a pass moves each weight by less than val/2. */
  lemma PerturbedWeightWithinHalfVal(w: seq<seq<seq<real>>>, p: nat, pctChance: int, draws: MutationDraws, val: real,
                                     l: nat, j: nat, k: nat)
    requires DeltasInRange(draws, val) && l < |w| && j < |w[l]| && k < |w[l][j]|
    ensures -val / 2.0 <= PerturbWeights(w, p, pctChance, draws)[l][j][k] - w[l][j][k] < val / 2.0
  {
    StepBounds(draws.weightChance(p, l, j, k), draws.weightDelta(p, l, j, k), pctChance, val);
  }

  /*
   * The file format of Save and Load: one value per line.
   */

  /** All biases (layer by layer, neuron by neuron), then all weights (layer, neuron, source neuron). */
  function Params(b: seq<seq<real>>, w: seq<seq<seq<real>>>): (r: seq<real>)
    ensures |r| == |Flatten2(b)| + |Flatten3(w)|
  {
    Flatten2(b) + Flatten3(w)
  }

  /** What Load does with the file's outcome. */
  datatype LoadResult =
    | NoFile      // File.Exists is false: Load returns false
    | EmptyFile   // reading line 0 throws outside the try block
    | Truncated   // a later line is missing: caught, Load returns false
    | Loaded      // Load returns true

  function LoadReturns(r: LoadResult): (ok: bool)
    requires r != EmptyFile
    ensures ok <==> r == Loaded
  {
    r == Loaded
  }

  /*
   * The performance history.
   */

  /** The number of entries above `threshold` (BestFitness's `success`). */
  function CountAbove(s: seq<int>, threshold: int): (n: nat)
    ensures n <= |s|
  {
    if s == [] then 0
    else CountAbove(s[..|s| - 1], threshold) + (if s[|s| - 1] > threshold then 1 else 0)
  }

  lemma {:induction false} CountAboveAll(s: seq<int>, threshold: int)
    requires forall i :: 0 <= i < |s| ==> s[i] > threshold
    ensures CountAbove(s, threshold) == |s|
  {
    if s != [] {
      CountAboveAll(s[..|s| - 1], threshold);
    }
  }

  lemma {:induction false} CountAboveNone(s: seq<int>, threshold: int)
    requires forall i :: 0 <= i < |s| ==> s[i] <= threshold
    ensures CountAbove(s, threshold) == 0
  {
    if s != [] {
      CountAboveNone(s[..|s| - 1], threshold);
    }
  }

  /** Raising the threshold never raises the count. */
  lemma {:induction false} CountAboveAntitone(s: seq<int>, t1: int, t2: int)
    requires t1 <= t2
    ensures CountAbove(s, t2) <= CountAbove(s, t1)
  {
    if s != [] {
      CountAboveAntitone(s[..|s| - 1], t1, t2);
    }
  }

  /** The sum of s[lo..hi]. */
  function SumRange(s: seq<int>, lo: nat, hi: nat): int
    requires lo <= hi <= |s|
    decreases hi - lo
  {
    if lo == hi then 0 else SumRange(s, lo, hi - 1) + s[hi - 1]
  }

  /** Where AverageFitness's window of recent entries starts (`minf`). */
  function WindowStart(n: nat): (start: nat)
    ensures start <= n
    ensures n - start == if n < 2 then n else if n < 20 then 2 else n / 10
  {
    var width := if 2 < n / 10 then n / 10 else 2;
    if 0 < n - width then n - width else 0
  }

  /** A window whose entries lie in [lo, hi] has its sum in [lo * w, hi * w]. */
  lemma {:induction false} SumRangeBounds(s: seq<int>, start: nat, hi: nat, lo: int, up: int)
    requires start <= hi <= |s|
    requires forall i :: start <= i < hi ==> lo <= s[i] <= up
    ensures lo * (hi - start) <= SumRange(s, start, hi) <= up * (hi - start)
    decreases hi - start
  {
    if start < hi {
      SumRangeBounds(s, start, hi - 1, lo, up);
      assert lo * (hi - start) == lo * (hi - 1 - start) + lo;
      assert up * (hi - start) == up * (hi - 1 - start) + up;
    }
  }

  /** The truncated mean of the window of a history of length at least 1. */
  function WindowMean(s: seq<int>): (m: int)
    requires s != []
  {
    CsDiv(SumRange(s, WindowStart(|s|), |s|), |s| - WindowStart(|s|))
  }

  /** The truncated mean lies between the least and the greatest entry of the window. */
  lemma WindowMeanBounds(s: seq<int>, lo: int, up: int)
    requires s != []
    requires forall i :: WindowStart(|s|) <= i < |s| ==> lo <= s[i] <= up
    ensures lo <= WindowMean(s) <= up
  {
    var start := WindowStart(|s|);
    SumRangeBounds(s, start, |s|, lo, up);
    CsDivBounds(SumRange(s, start, |s|), |s| - start, lo, up);
  }

  /** What BestFitness reports for a history and a fitness. */
  function BestFitnessValue(performance: seq<int>, fitness: real, wayPointCount: nat): real
  {
    if performance == [] then fitness else CountAbove(performance, wayPointCount) as real
  }

  /** What AverageFitness reports for a history and a fitness. */
  function AverageFitnessValue(performance: seq<int>, fitness: real): real
  {
    if performance == [] then fitness else WindowMean(performance) as real
  }

  /**
   * The window of a short history: one entry is its own mean, and a
   * history of 2 to 19 entries is averaged over its last two, the sum
   * halved and truncated toward zero (on 1, ..., 10 that is 19 / 2, so 9).
   */
  lemma {:induction false} WindowMeanOfShortHistory(s: seq<int>)
    requires s != []
    ensures |s| == 1 ==> WindowMean(s) == s[0]
    ensures 2 <= |s| < 20 ==> WindowMean(s) == CsDiv(s[|s| - 2] + s[|s| - 1], 2)
  {
    var n := |s|;
    if n == 1 {
      assert WindowStart(1) == 0;
      assert SumRange(s, 0, 1) == SumRange(s, 0, 0) + s[0];
    } else if n < 20 {
      assert WindowStart(n) == n - 2;
      assert SumRange(s, n - 2, n) == SumRange(s, n - 2, n - 1) + s[n - 1];
      assert SumRange(s, n - 2, n - 1) == SumRange(s, n - 2, n - 2) + s[n - 2];
    }
  }

  /**
   * Save then Load: a file written by Save, with any lines after it, loads
   * completely into any network with the same layer definition, and gives
   * back exactly the saved biases and weights.
   */
  lemma SaveLoadRoundTrip(layers: seq<nat>, fitness: real,
                          b: seq<seq<real>>, w: seq<seq<seq<real>>>,
                          b0: seq<seq<real>>, w0: seq<seq<seq<real>>>,
                          b1: seq<seq<real>>, w1: seq<seq<seq<real>>>, extra: seq<real>)
    requires BiasShape(layers, b) && BiasShape(layers, b0) && BiasShape(layers, b1)
    requires WeightShape(layers, w) && WeightShape(layers, w0) && WeightShape(layers, w1)
    requires Params(b1, w1) == Overlay(Params(b0, w0), ([fitness] + Params(b, w) + extra)[1..])
    ensures |Params(b0, w0)| < |[fitness] + Params(b, w) + extra|
    ensures b1 == b && w1 == w
  {
    BiasShapesAgree(layers, b, b0);
    BiasShapesAgree(layers, b, b1);
    WeightShapesAgree(layers, w, w0);
    WeightShapesAgree(layers, w, w1);
    Flatten2SameLength(b, b0);
    Flatten2SameLength(b, b1);
    Flatten3SameLength(w, w0);
    Flatten3SameLength(w, w1);
    assert ([fitness] + Params(b, w) + extra)[1..] == Params(b, w) + extra;
    OverlayCovering(Params(b0, w0), Params(b, w), extra);
    var k := |Flatten2(b)|;
    assert Flatten2(b1) == Params(b1, w1)[..k] == Params(b, w)[..k] == Flatten2(b);
    assert Flatten3(w1) == Params(b1, w1)[k..] == Params(b, w)[k..] == Flatten3(w);
    Flatten2Injective(b1, b);
    Flatten3Injective(w1, w);
  }

  /*
   * The network.
   */

  /** The outcome of constructing a network: the network, or the exception its checks throw. */
  datatype Creation =
    | Created(net: Network)
    | InsufficientLayers    // fewer than two layers
    | ActivationMismatch    // not one activation function per layer
    | NegativeLayerSize     // a negative size: the neuron array cannot be allocated

  class Network {
    /** Id: the key of this network in the population, set once by the constructor. */
    const id: int
    /** Layers: the neuron count of each layer, input first. */
    const layers: seq<nat>
    /** The activation function of each layer (layer 0's is never applied). */
    const activations: seq<ActivationKind>
    var neurons: seq<seq<real>>
    var biases: seq<seq<real>>
    var weights: seq<seq<seq<real>>>
    /** Performance: the fitness of each generation, as an integer. */
    var performance: seq<int>
    var fitness: real
    var score: real
    var generationOfLastMutation: int
    var mutated: bool
    var rank: int

    /** At least two layers, one activation per layer, and every tensor shaped by the layers. */
    ghost predicate Valid()
      reads this
    {
      2 <= |layers| && |activations| == |layers| &&
      NeuronShape(layers, neurons) && BiasShape(layers, biases) && WeightShape(layers, weights)
    }

    /**
     * The constructor once its argument checks have passed: the layer
     * definition copied, zero neurons, then biases and weights from
     * consecutive draws (biases first).
     */
    constructor (id: int, layers: seq<nat>, activations: seq<ActivationKind>, rng: nat -> Draw10000)
      requires 2 <= |layers| && |activations| == |layers|
      ensures Valid()
      ensures this.id == id && this.layers == layers && this.activations == activations
      ensures forall l :: 0 <= l < |layers| ==> neurons[l] == Zeros(layers[l])
      ensures Flatten2(biases) == InitialValues(rng, 0, |Flatten2(biases)|)
      ensures Flatten3(weights) == InitialValues(rng, |Flatten2(biases)|, |Flatten3(weights)|)
      ensures performance == [] && fitness == 0.0 && score == 0.0
      ensures generationOfLastMutation == 0 && !mutated && rank == 0
    {
      this.id := id;
      this.layers := layers;
      this.activations := activations;
      performance := [];
      fitness := 0.0;
      score := 0.0;
      generationOfLastMutation := 0;
      mutated := false;
      rank := 0;
      neurons := [];
      biases := [];
      weights := [];
      new;
      InitialiseNeurons();
      var next := InitialiseBiases(rng);
      InitialiseWeights(rng, next);
    }

    /** InitialiseNeurons: one zero vector per layer. */
    method InitialiseNeurons()
      modifies this`neurons
      ensures NeuronShape(layers, neurons)
      ensures forall l :: 0 <= l < |layers| ==> neurons[l] == Zeros(layers[l])
    {
      var list: seq<seq<real>> := [];
      var layer := 0;
      while layer < |layers|
        invariant 0 <= layer <= |layers| && |list| == layer
        invariant forall l :: 0 <= l < layer ==> list[l] == Zeros(layers[l])
      {
        list := list + [Zeros(layers[layer])];
        layer := layer + 1;
      }
      neurons := list;
    }

    /** InitialiseBiases: one draw per bias; returns the number of draws made. */
    method InitialiseBiases(rng: nat -> Draw10000) returns (next: nat)
      requires 1 <= |layers|
      modifies this`biases
      ensures BiasShape(layers, biases)
      ensures next == |Flatten2(biases)|
      ensures Flatten2(biases) == InitialValues(rng, 0, next)
    {
      var list: seq<seq<real>> := [];
      next := 0;
      var layer := 1;
      while layer < |layers|
        invariant 1 <= layer <= |layers| && |list| == layer - 1
        invariant forall l :: 0 <= l < |list| ==> |list[l]| == layers[l + 1]
        invariant next == |Flatten2(list)|
        invariant Flatten2(list) == InitialValues(rng, 0, next)
      {
        var bias := DrawValues(rng, next, layers[layer]);
        Flatten2Append(list, bias);
        InitialValuesSplit(rng, 0, next, |bias|);
        next := next + |bias|;
        list := list + [bias];
        layer := layer + 1;
      }
      biases := list;
    }

    /** InitialiseWeights: one draw per weight, continuing after draw `start`. */
    method InitialiseWeights(rng: nat -> Draw10000, start: nat)
      requires 1 <= |layers|
      modifies this`weights
      ensures WeightShape(layers, weights)
      ensures Flatten3(weights) == InitialValues(rng, start, |Flatten3(weights)|)
    {
      var list: seq<seq<seq<real>>> := [];
      var next := start;
      var layer := 1;
      while layer < |layers|
        invariant 1 <= layer <= |layers| && |list| == layer - 1
        invariant forall l :: 0 <= l < |list| ==>
          |list[l]| == layers[l + 1] && forall j :: 0 <= j < |list[l]| ==> |list[l][j]| == layers[l]
        invariant next == start + |Flatten3(list)|
        invariant Flatten3(list) == InitialValues(rng, start, next - start)
      {
        var layerWeights := DrawMatrix(rng, next, layers[layer], layers[layer - 1]);
        Flatten3Append(list, layerWeights);
        InitialValuesSplit(rng, start, next - start, |Flatten2(layerWeights)|);
        next := next + |Flatten2(layerWeights)|;
        list := list + [layerWeights];
        layer := layer + 1;
      }
      weights := list;
    }

    /** The middle loop of InitialiseWeights: `rows` rows of `cols` consecutive draws from draw `from` on. */
    static method DrawMatrix(rng: nat -> Draw10000, from: nat, rows: nat, cols: nat) returns (m: seq<seq<real>>)
      ensures |m| == rows && forall j :: 0 <= j < rows ==> |m[j]| == cols
      ensures Flatten2(m) == InitialValues(rng, from, |Flatten2(m)|)
    {
      m := [];
      while |m| < rows
        invariant |m| <= rows && forall j :: 0 <= j < |m| ==> |m[j]| == cols
        invariant Flatten2(m) == InitialValues(rng, from, |Flatten2(m)|)
      {
        var row := DrawValues(rng, from + |Flatten2(m)|, cols);
        Flatten2Append(m, row);
        InitialValuesSplit(rng, from, |Flatten2(m)|, cols);
        m := m + [row];
      }
    }

    /** The innermost initialisation loop: `n` consecutive draws from draw `from` on. */
    static method DrawValues(rng: nat -> Draw10000, from: nat, n: nat) returns (row: seq<real>)
      ensures row == InitialValues(rng, from, n)
    {
      row := [];
      while |row| < n
        invariant |row| <= n && row == InitialValues(rng, from, |row|)
      {
        InitialValuesNext(rng, from, |row|);
        row := row + [InitialValue(rng(from + |row|))];
      }
    }

    /**
     * FeedForward: copy the inputs into layer 0, then compute each later
     * layer from the one before; the result is the output layer. Inputs
     * longer than layer 0 make the source index out of range.
     */
    method FeedForward(inputs: seq<real>, tr: Transcendentals) returns (output: seq<real>)
      requires Valid() && IsPositive(tr.exp) && |inputs| <= layers[0]
      modifies this`neurons
      ensures Valid()
      ensures neurons[0] == inputs + old(neurons[0])[|inputs|..]
      ensures forall l :: 0 <= l < |layers| ==>
        neurons[l] == Forward(layers, activations, tr, weights, biases, neurons[0], l)
      ensures output == neurons[|layers| - 1] && |output| == layers[|layers| - 1]
    {
      var ns := ComputeLayers(layers, activations, tr, weights, biases, inputs, neurons);
      neurons := ns;
      output := ns[|layers| - 1];
    }

    /** FeedForward's loops, on the neuron values: the inputs into layer 0, then each later layer in turn. */
    static method ComputeLayers(layers: seq<nat>, acts: seq<ActivationKind>, tr: Transcendentals,
                                weights: seq<seq<seq<real>>>, biases: seq<seq<real>>, inputs: seq<real>,
                                neurons: seq<seq<real>>)
      returns (ns: seq<seq<real>>)
      requires IsPositive(tr.exp) && 1 <= |layers| == |acts|
      requires NeuronShape(layers, neurons) && WeightShape(layers, weights) && BiasShape(layers, biases)
      requires |inputs| <= layers[0]
      ensures NeuronShape(layers, ns)
      ensures ns[0] == inputs + neurons[0][|inputs|..]
      ensures forall l :: 0 <= l < |layers| ==> ns[l] == Forward(layers, acts, tr, weights, biases, ns[0], l)
    {
      var first := WriteInputs(inputs, neurons[0]);
      ns := neurons[0 := first];
      var layer := 1;
      while layer < |layers|
        invariant 1 <= layer <= |layers|
        invariant NeuronShape(layers, ns) && ns[0] == first
        invariant forall l {:trigger ns[l]} :: 0 <= l < layer ==> ns[l] == Forward(layers, acts, tr, weights, biases, first, l)
      {
        var row := ComputeLayer(acts[layer], tr, weights[layer - 1], biases[layer - 1], ns[layer - 1], ns[layer]);
        ForwardStep(layers, acts, tr, weights, biases, first, layer, ns[layer - 1]);
        ns := ns[layer := row];
        layer := layer + 1;
      }
    }

    /** FeedForward's input loop: the inputs copied over the first neurons of layer 0. */
    static method WriteInputs(inputs: seq<real>, row: seq<real>) returns (r: seq<real>)
      requires |inputs| <= |row|
      ensures r == inputs + row[|inputs|..]
    {
      r := row;
      var i := 0;
      while i < |inputs|
        invariant 0 <= i <= |inputs|
        invariant r == inputs[..i] + row[i..]
      {
        r := r[i := inputs[i]];
        i := i + 1;
      }
      assert inputs[..i] == inputs;
    }

    /** One iteration of FeedForward's layer loop: every neuron of a layer from the previous layer. */
    static method ComputeLayer(kind: ActivationKind, tr: Transcendentals, w: seq<seq<real>>, b: seq<real>,
                               prev: seq<real>, row: seq<real>)
      returns (r: seq<real>)
      requires IsPositive(tr.exp) && |w| == |b| == |row|
      requires forall j :: 0 <= j < |w| ==> |w[j]| == |prev|
      ensures r == LayerOutput(kind, tr, w, b, prev)
    {
      ghost var target := LayerOutput(kind, tr, w, b, prev);
      r := row;
      var j := 0;
      while j < |r|
        invariant 0 <= j <= |r| == |b|
        invariant forall i :: 0 <= i < j ==> r[i] == target[i]
      {
        var out := ComputeNeuron(kind, tr, w, b, prev, j);
        r := r[j := out];
        j := j + 1;
      }
    }

    /** One iteration of FeedForward's neuron loop: the activation of the weighted sum plus the bias. */
    static method ComputeNeuron(kind: ActivationKind, tr: Transcendentals, w: seq<seq<real>>, b: seq<real>,
                                prev: seq<real>, j: nat)
      returns (out: real)
      requires IsPositive(tr.exp) && |w| == |b| && j < |b|
      requires forall i :: 0 <= i < |w| ==> |w[i]| == |prev|
      ensures out == LayerOutput(kind, tr, w, b, prev)[j]
    {
      var value := NeuronSum(w[j], prev);
      out := Activate(kind, tr, value + b[j]);
      LayerOutputAt(kind, tr, w, b, prev, j);
    }

    /** FeedForward's innermost loop: the weighted sum of the previous layer's neurons. */
    static method NeuronSum(w: seq<real>, x: seq<real>) returns (value: real)
      requires |w| == |x|
      ensures value == WeightedSum(w, x)
    {
      value := 0.0;
      var k := 0;
      while k < |w|
        invariant 0 <= k <= |w|
        invariant value == WeightedSum(w[..k], x[..k])
      {
        WeightedSumStep(w, x, k);
        value := value + w[k] * x[k];
        k := k + 1;
      }
      assert w[..k] == w && x[..k] == x;
    }

    /**
     * Mutate: set Mutated, then repeat passes over every bias and every
     * weight until a pass has drawn a chance of at most `pctChance` for some
     * parameter. Each such parameter gains its delta draw / 20000. Returns
     * the number of the pass that ended the loop.
     */
    method Mutate(pctChance: int, val: real, draws: MutationDraws) returns (ghost pass: nat)
      requires Valid()
      requires 1.0 <= val * 10000.0
      requires exists p: nat :: LayersFire(layers, p, pctChance, draws)
      modifies this`mutated, this`biases, this`weights
      ensures Valid() && mutated
      ensures pass == FirstFiringPass(layers, old(biases), old(weights), pctChance, draws)
      ensures biases == PerturbBiases(old(biases), pass, pctChance, draws)
      ensures weights == PerturbWeights(old(weights), pass, pctChance, draws)
    {
      mutated := true;
      ghost var b0, w0 := biases, weights;
      ghost var first := FirstFiringPass(layers, b0, w0, pctChance, draws);
      var p: nat := 0;
      var changed := MutatePass(p, pctChance, draws);
      while !changed
        invariant Valid() && mutated
        invariant changed == PassFires(b0, w0, p, pctChance, draws)
        invariant if changed then p == first else p < first
        invariant !changed ==> unchanged(this`biases, this`weights)
        invariant changed ==> biases == PerturbBiases(b0, p, pctChance, draws)
        invariant changed ==> weights == PerturbWeights(w0, p, pctChance, draws)
        decreases first - p
      {
        p := p + 1;
        changed := MutatePass(p, pctChance, draws);
      }
      pass := p;
    }

    /** One pass of Mutate's retry loop: the pass changes the network exactly when a chance draw succeeds. */
    method MutatePass(p: nat, pctChance: int, draws: MutationDraws) returns (changed: bool)
      requires Valid()
      modifies this`biases, this`weights
      ensures Valid()
      ensures changed == PassFires(old(biases), old(weights), p, pctChance, draws)
      ensures biases == PerturbBiases(old(biases), p, pctChance, draws)
      ensures weights == PerturbWeights(old(weights), p, pctChance, draws)
      ensures !changed ==> unchanged(this`biases, this`weights)
    {
      var firedBias := MutateBiasesPass(p, pctChance, draws);
      var firedWeight := MutateWeightsPass(p, pctChance, draws);
      changed := firedBias || firedWeight;
      if !changed {
        QuietPassKeepsBiases(old(biases), p, pctChance, draws);
        QuietPassKeepsWeights(old(weights), p, pctChance, draws);
      }
    }

    /** The bias half of one pass of Mutate's retry loop. */
    method MutateBiasesPass(p: nat, pctChance: int, draws: MutationDraws) returns (fired: bool)
      requires Valid()
      modifies this`biases
      ensures Valid()
      ensures biases == PerturbBiases(old(biases), p, pctChance, draws)
      ensures fired <==> BiasesFire(old(biases), p, pctChance, draws)
    {
      ghost var b0 := biases;
      var b := biases;
      fired := false;
      var l := 0;
      while l < |b|
        invariant 0 <= l <= |b| == |b0|
        invariant forall m :: 0 <= m < l ==> b[m] == PerturbBiasRow(b0[m], p, m, pctChance, draws)
        invariant forall m :: l <= m < |b0| ==> b[m] == b0[m]
        invariant fired <==> exists m :: 0 <= m < l && BiasRowFires(b0[m], p, m, pctChance, draws)
      {
        var row, rowFired := MutateBiasRow(b[l], p, l, pctChance, draws);
        b := b[l := row];
        fired := fired || rowFired;
        l := l + 1;
      }
      assert b == PerturbBiases(b0, p, pctChance, draws);
      biases := b;
    }

    /** The inner loop of the bias half of a pass: the biases of layer `l + 1`. */
    static method MutateBiasRow(row: seq<real>, p: nat, l: nat, pctChance: int, draws: MutationDraws)
      returns (r: seq<real>, fired: bool)
      ensures r == PerturbBiasRow(row, p, l, pctChance, draws)
      ensures fired <==> BiasRowFires(row, p, l, pctChance, draws)
    {
      r := row;
      fired := false;
      var i := 0;
      while i < |r|
        invariant 0 <= i <= |r| == |row|
        invariant forall k :: 0 <= k < i ==> r[k] == PerturbBiasRow(row, p, l, pctChance, draws)[k]
        invariant forall k :: i <= k < |row| ==> r[k] == row[k]
        invariant fired <==> exists k :: 0 <= k < i && draws.biasChance(p, l, k) <= pctChance
      {
        if draws.biasChance(p, l, i) <= pctChance {
          fired := true;
          r := r[i := r[i] + draws.biasDelta(p, l, i) as real / 20000.0];
        }
        i := i + 1;
      }
    }

    /** The weight half of one pass of Mutate's retry loop. */
    method MutateWeightsPass(p: nat, pctChance: int, draws: MutationDraws) returns (fired: bool)
      requires Valid()
      modifies this`weights
      ensures Valid()
      ensures weights == PerturbWeights(old(weights), p, pctChance, draws)
      ensures fired <==> WeightsFire(old(weights), p, pctChance, draws)
    {
      ghost var w0 := weights;
      var w := weights;
      fired := false;
      var l := 0;
      while l < |w|
        invariant 0 <= l <= |w| == |w0|
        invariant forall m :: 0 <= m < l ==> w[m] == PerturbWeightMatrix(w0[m], p, m, pctChance, draws)
        invariant forall m :: l <= m < |w0| ==> w[m] == w0[m]
        invariant fired <==> exists m :: 0 <= m < l && WeightMatrixFires(w0[m], p, m, pctChance, draws)
      {
        var matrix, matrixFired := MutateWeightMatrix(w[l], p, l, pctChance, draws);
        w := w[l := matrix];
        fired := fired || matrixFired;
        l := l + 1;
      }
      assert w == PerturbWeights(w0, p, pctChance, draws);
      weights := w;
    }

    /** The middle loop of the weight half of a pass: the weights into layer `l + 1`. */
    static method MutateWeightMatrix(m: seq<seq<real>>, p: nat, l: nat, pctChance: int, draws: MutationDraws)
      returns (r: seq<seq<real>>, fired: bool)
      ensures r == PerturbWeightMatrix(m, p, l, pctChance, draws)
      ensures fired <==> WeightMatrixFires(m, p, l, pctChance, draws)
    {
      r := m;
      fired := false;
      var j := 0;
      while j < |r|
        invariant 0 <= j <= |r| == |m|
        invariant forall i :: 0 <= i < j ==> r[i] == PerturbWeightRow(m[i], p, l, i, pctChance, draws)
        invariant forall i :: j <= i < |m| ==> r[i] == m[i]
        invariant fired <==> exists i :: 0 <= i < j && WeightRowFires(m[i], p, l, i, pctChance, draws)
      {
        var row, rowFired := MutateWeightRow(r[j], p, l, j, pctChance, draws);
        r := r[j := row];
        fired := fired || rowFired;
        j := j + 1;
      }
      assert r == PerturbWeightMatrix(m, p, l, pctChance, draws);
    }

    /** The innermost loop of the weight half of a pass: the weights into neuron `j` of layer `l + 1`. */
    static method MutateWeightRow(row: seq<real>, p: nat, l: nat, j: nat, pctChance: int, draws: MutationDraws)
      returns (r: seq<real>, fired: bool)
      ensures r == PerturbWeightRow(row, p, l, j, pctChance, draws)
      ensures fired <==> WeightRowFires(row, p, l, j, pctChance, draws)
    {
      r := row;
      fired := false;
      var k := 0;
      while k < |r|
        invariant 0 <= k <= |r| == |row|
        invariant forall i :: 0 <= i < k ==> r[i] == PerturbWeightRow(row, p, l, j, pctChance, draws)[i]
        invariant forall i :: k <= i < |row| ==> r[i] == row[i]
        invariant fired <==> exists i :: 0 <= i < k && draws.weightChance(p, l, j, i) <= pctChance
      {
        if draws.weightChance(p, l, j, k) <= pctChance {
          fired := true;
          r := r[k := r[k] + draws.weightDelta(p, l, j, k) as real / 20000.0];
        }
        k := k + 1;
      }
    }

    /**
     * CopyFromTo: every bias and weight of `src` written into `dst`, which
     * has the same layer definition; `src` may be `dst` itself.
     */
    static method CopyFromTo(src: Network, dst: Network)
      requires src.Valid() && dst.Valid() && src.layers == dst.layers
      modifies dst`biases, dst`weights
      ensures dst.Valid()
      ensures dst.biases == old(src.biases) && dst.weights == old(src.weights)
      ensures src.biases == old(src.biases) && src.weights == old(src.weights)
    {
      BiasShapesAgree(src.layers, src.biases, dst.biases);
      WeightShapesAgree(src.layers, src.weights, dst.weights);
      var b := CopyRows(src.biases, dst.biases);
      var w := CopyMatrices(src.weights, dst.weights);
      dst.biases := b;
      dst.weights := w;
    }

    /** CopyFromTo's bias loop: every row of `from` copied over the equally shaped `into`. */
    static method CopyRows(from: seq<seq<real>>, into: seq<seq<real>>) returns (r: seq<seq<real>>)
      requires SameRows(from, into)
      ensures r == from
    {
      r := into;
      var l := 0;
      while l < |r|
        invariant SameRows(from, r) && 0 <= l <= |r|
        invariant forall m :: 0 <= m < l ==> r[m] == from[m]
      {
        var row := CopyValues(from[l], r[l]);
        r := r[l := row];
        l := l + 1;
      }
    }

    /** CopyFromTo's weight loop: every matrix of `from` copied over the equally shaped `into`. */
    static method CopyMatrices(from: seq<seq<seq<real>>>, into: seq<seq<seq<real>>>) returns (r: seq<seq<seq<real>>>)
      requires SameRows3(from, into)
      ensures r == from
    {
      r := into;
      var l := 0;
      while l < |r|
        invariant SameRows3(from, r) && 0 <= l <= |r|
        invariant forall m :: 0 <= m < l ==> r[m] == from[m]
      {
        var matrix := CopyRows(from[l], r[l]);
        r := r[l := matrix];
        l := l + 1;
      }
    }

    /** CopyFromTo's innermost loop: the values of `from` written one by one over `into`. */
    static method CopyValues(from: seq<real>, into: seq<real>) returns (r: seq<real>)
      requires |from| == |into|
      ensures r == from
    {
      r := into;
      var i := 0;
      while i < |r|
        invariant |r| == |from| && 0 <= i <= |r|
        invariant forall k :: 0 <= k < i ==> r[k] == from[k]
      {
        r := r[i := from[i]];
        i := i + 1;
      }
    }

    /** Save: the lines of the network file, fitness first, then the parameters in file order. */
    method Save() returns (lines: seq<real>)
      requires Valid()
      ensures lines == [fitness] + Params(biases, weights)
      ensures |lines| == 1 + BiasCount(layers) + WeightCount(layers)
    {
      lines := AppendRows([fitness], biases);
      lines := AppendMatrices(lines, weights);
      BiasCountIsFlatLength(layers, biases);
      WeightCountIsFlatLength(layers, weights);
    }

    /** Save's weight loops: every matrix written after `lines`, layer by layer. */
    static method AppendMatrices(lines: seq<real>, w: seq<seq<seq<real>>>) returns (out: seq<real>)
      ensures out == lines + Flatten3(w)
    {
      out := lines;
      var l := 0;
      while l < |w|
        invariant 0 <= l <= |w|
        invariant out == lines + Flatten3(w[..l])
      {
        out := AppendRows(out, w[l]);
        assert w[..l + 1] == w[..l] + [w[l]];
        Flatten3Append(w[..l], w[l]);
        l := l + 1;
      }
      assert w[..l] == w;
    }

    /** Save's loops over one matrix: every entry written after `lines`, row by row. */
    static method AppendRows(lines: seq<real>, m: seq<seq<real>>) returns (out: seq<real>)
      ensures out == lines + Flatten2(m)
    {
      out := lines;
      var j := 0;
      while j < |m|
        invariant 0 <= j <= |m|
        invariant out == lines + Flatten2(m[..j])
      {
        out := AppendValues(out, m[j]);
        assert m[..j + 1] == m[..j] + [m[j]];
        Flatten2Append(m[..j], m[j]);
        j := j + 1;
      }
      assert m[..j] == m;
    }

    /** Save's innermost loop: the entries of one row written after `lines`, one line each. */
    static method AppendValues(lines: seq<real>, row: seq<real>) returns (out: seq<real>)
      ensures out == lines + row
    {
      out := lines;
      var k := 0;
      while k < |row|
        invariant 0 <= k <= |row|
        invariant out == lines + row[..k]
      {
        out := out + [row[k]];
        assert row[..k + 1] == row[..k] + [row[k]];
        k := k + 1;
      }
      assert row[..k] == row;
    }

    /**
     * Load: fitness from the first line, then biases and weights in file
     * order until the lines run out. An empty file stops before anything is
     * written (the unguarded first parse); a short file leaves the values
     * read so far in place.
     */
    method Load(file: Option<seq<real>>) returns (result: LoadResult)
      requires Valid()
      modifies this`fitness, this`biases, this`weights
      ensures Valid()
      ensures result == NoFile <==> file.None?
      ensures result == EmptyFile <==> file == Some([])
      ensures result == Loaded <==> file.Some? && |Params(old(biases), old(weights))| < |file.value|
      ensures result == NoFile || result == EmptyFile ==>
        fitness == old(fitness) && biases == old(biases) && weights == old(weights)
      ensures result == Truncated || result == Loaded ==>
        file.Some? && file.value != [] && fitness == file.value[0] &&
        Params(biases, weights) == Overlay(Params(old(biases), old(weights)), file.value[1..])
    {
      if file.None? {
        return NoFile;
      }
      var lines := file.value;
      if |lines| == 0 {
        return EmptyFile;
      }
      fitness := lines[0];
      var rest := lines[1..];
      ghost var fb0, fw0 := Flatten2(biases), Flatten3(weights);
      OverlayConcat(fb0, fw0, rest);
      var complete := LoadBiases(rest);
      if !complete {
        return Truncated;
      }
      var count := |Flatten2(biases)|;
      Flatten2SameLength(biases, old(biases));
      complete := LoadWeights(rest[count..]);
      result := if complete then Loaded else Truncated;
    }

    /** Load's bias loop: the values of `src` in order, stopping when it runs out. */
    method LoadBiases(src: seq<real>) returns (complete: bool)
      requires Valid()
      modifies this`biases
      ensures Valid()
      ensures complete <==> |Flatten2(old(biases))| <= |src|
      ensures Flatten2(biases) == Overlay(Flatten2(old(biases)), src)
    {
      ghost var b0 := biases;
      ghost var f0 := Flatten2(b0);
      var b := biases;
      var index := 0;
      var l := 0;
      complete := true;
      while l < |b|
        invariant SameRows(b, b0) && 0 <= l <= |b|
        invariant index == Offset2(b0, l) && index <= |src| && index <= |f0|
        invariant Flatten2(b) == Written(f0, src, index)
      {
        b, index, complete := LoadBiasRow(src, b, b0, f0, index, l);
        if !complete {
          biases := b;
          return;
        }
        l := l + 1;
      }
      Offset2Full(b0);
      biases := b;
    }

    /** The inner loop of Load's bias loop: the biases of layer `l + 1`, read from `src[start..]`. */
    static method LoadBiasRow(src: seq<real>, b: seq<seq<real>>, ghost b0: seq<seq<real>>, ghost f0: seq<real>,
                              start: nat, l: nat)
      returns (r: seq<seq<real>>, index: nat, complete: bool)
      requires SameRows(b, b0) && f0 == Flatten2(b0) && l < |b|
      requires start == Offset2(b0, l) && start <= |src| && start <= |f0|
      requires Flatten2(b) == Written(f0, src, start)
      ensures SameRows(r, b0)
      ensures complete <==> Offset2(b0, l + 1) <= |src|
      ensures complete ==> index == Offset2(b0, l + 1) && index <= |src| && index <= |f0| && Flatten2(r) == Written(f0, src, index)
      ensures !complete ==> |src| < |f0| && Flatten2(r) == Written(f0, src, |src|)
    {
      Offset2Next(b0, l);
      r := b;
      index := start;
      var i := 0;
      while i < |r[l]|
        invariant SameRows(r, b0) && 0 <= i <= |r[l]|
        invariant index == start + i && index <= |src| && index <= |f0| && i <= |b0[l]|
        invariant Flatten2(r) == Written(f0, src, index)
      {
        if index == |src| {
          Flatten2Index(b0, l, i);
          return r, index, false;
        }
        ReadNext2(r, b0, f0, src, index, l, i);
        r := r[l := r[l][i := src[index]]];
        index := index + 1;
        i := i + 1;
      }
      complete := true;
    }

    /** Load's weight loop: the values of `src` in order, stopping when it runs out. */
    method LoadWeights(src: seq<real>) returns (complete: bool)
      requires Valid()
      modifies this`weights
      ensures Valid()
      ensures complete <==> |Flatten3(old(weights))| <= |src|
      ensures Flatten3(weights) == Overlay(Flatten3(old(weights)), src)
    {
      ghost var w0 := weights;
      ghost var f0 := Flatten3(w0);
      var w := weights;
      var index := 0;
      var l := 0;
      complete := true;
      while l < |w|
        invariant SameRows3(w, w0) && 0 <= l <= |w|
        invariant index == Offset3(w0, l) && index <= |src| && index <= |f0|
        invariant Flatten3(w) == Written(f0, src, index)
      {
        w, index, complete := LoadWeightMatrix(src, w, w0, f0, index, l);
        if !complete {
          weights := w;
          return;
        }
        l := l + 1;
      }
      Offset3Full(w0);
      weights := w;
    }

    /** The middle loop of Load's weight loop: the weights into layer `l + 1`. */
    static method LoadWeightMatrix(src: seq<real>, w: seq<seq<seq<real>>>, ghost w0: seq<seq<seq<real>>>, ghost f0: seq<real>,
                                   start: nat, l: nat)
      returns (r: seq<seq<seq<real>>>, index: nat, complete: bool)
      requires SameRows3(w, w0) && f0 == Flatten3(w0) && l < |w|
      requires start == Offset3(w0, l) && start <= |src| && start <= |f0|
      requires Flatten3(w) == Written(f0, src, start)
      ensures SameRows3(r, w0)
      ensures complete <==> Offset3(w0, l + 1) <= |src|
      ensures complete ==> index == Offset3(w0, l + 1) && index <= |src| && index <= |f0| && Flatten3(r) == Written(f0, src, index)
      ensures !complete ==> |src| < |f0| && Flatten3(r) == Written(f0, src, |src|)
    {
      r := w;
      index := start;
      var j := 0;
      while j < |r[l]|
        invariant SameRows3(r, w0) && 0 <= j <= |r[l]|
        invariant index == start + Offset2(w0[l], j) && index <= |src| && index <= |f0|
        invariant Flatten3(r) == Written(f0, src, index)
      {
        r, index, complete := LoadWeightRow(src, r, w0, f0, index, l, j);
        if !complete {
          RowCutShort(w0, l, j + 1);
          return;
        }
        j := j + 1;
      }
      Offset2Full(w0[l]);
      Offset3Next(w0, l);
      complete := true;
    }

    /** The innermost loop of Load's weight loop: the weights into neuron `j` of layer `l + 1`. */
    static method LoadWeightRow(src: seq<real>, w: seq<seq<seq<real>>>, ghost w0: seq<seq<seq<real>>>, ghost f0: seq<real>,
                                start: nat, l: nat, j: nat)
      returns (r: seq<seq<seq<real>>>, index: nat, complete: bool)
      requires SameRows3(w, w0) && f0 == Flatten3(w0) && l < |w| && j < |w[l]|
      requires start == Offset3(w0, l) + Offset2(w0[l], j) && start <= |src| && start <= |f0|
      requires Flatten3(w) == Written(f0, src, start)
      ensures SameRows3(r, w0)
      ensures complete <==> Offset3(w0, l) + Offset2(w0[l], j + 1) <= |src|
      ensures complete ==> index == Offset3(w0, l) + Offset2(w0[l], j + 1)
      ensures complete ==> index <= |src| && index <= |f0| && Flatten3(r) == Written(f0, src, index)
      ensures !complete ==> |src| < |f0| && Flatten3(r) == Written(f0, src, |src|)
    {
      Offset2Next(w0[l], j);
      r := w;
      index := start;
      var k := 0;
      while k < |r[l][j]|
        invariant SameRows3(r, w0) && 0 <= k <= |r[l][j]|
        invariant index == start + k && index <= |src| && index <= |f0|
        invariant Flatten3(r) == Written(f0, src, index)
      {
        if index == |src| {
          Flatten3Update(w0, l, j, k, 0.0);
          return r, index, false;
        }
        ReadNext3(r, w0, f0, src, index, l, j, k);
        r := r[l := r[l][j := r[l][j][k := src[index]]]];
        index := index + 1;
        k := k + 1;
      }
      complete := true;
    }

    /**
     * BestFitness: the fitness while there is no history, otherwise the
     * number of generations whose fitness exceeded the number of waypoints.
     */
    method BestFitness(wayPointCount: nat) returns (r: real)
      ensures performance == [] ==> r == fitness
      ensures performance != [] ==> r == CountAbove(performance, wayPointCount) as real
      ensures r == BestFitnessValue(performance, fitness, wayPointCount)
    {
      if |performance| == 0 {
        return fitness;
      }
      var success := 0;
      var i := 0;
      while i < |performance|
        invariant 0 <= i <= |performance|
        invariant success == CountAbove(performance[..i], wayPointCount)
      {
        if performance[i] > wayPointCount {
          success := success + 1;
        }
        assert performance[..i + 1][..i] == performance[..i];
        i := i + 1;
      }
      assert performance[..i] == performance;
      r := success as real;
    }

    /**
     * AverageFitness: the fitness while there is no history, otherwise the
     * integer mean (truncated) of the most recent entries: the last tenth,
     * but at least the last two.
     */
    method AverageFitness() returns (r: real)
      ensures performance == [] ==> r == fitness
      ensures performance != [] ==> r == WindowMean(performance) as real
      ensures r == AverageFitnessValue(performance, fitness)
    {
      if |performance| == 0 {
        return fitness;
      }
      var n := |performance|;
      var width := if 2 < n / 10 then n / 10 else 2;
      var minf := if 0 < n - width then n - width else 0;
      var sum := 0;
      var f := minf;
      while f < n
        invariant minf <= f <= n
        invariant sum == SumRange(performance, minf, f)
      {
        sum := sum + performance[f];
        f := f + 1;
      }
      r := CsDiv(sum, n - minf) as real;
    }

    /**
     * The constructor with its argument checks: too few layers and a
     * mismatched activation list are rejected; a negative layer size makes
     * the first array allocation fail.
     */
    static method Create(id: int, layerDefinition: seq<int>, func: seq<ActivationKind>, rng: nat -> Draw10000)
      returns (c: Creation)
      ensures c == InsufficientLayers <==> |layerDefinition| < 2
      ensures c == ActivationMismatch <==> 2 <= |layerDefinition| && |func| != |layerDefinition|
      ensures c == NegativeLayerSize <==>
        2 <= |layerDefinition| && |func| == |layerDefinition| &&
        exists l :: 0 <= l < |layerDefinition| && layerDefinition[l] < 0
      ensures c.Created? ==> fresh(c.net) && c.net.Valid() && c.net.id == id
      ensures c.Created? ==> c.net.layers == layerDefinition && c.net.activations == func
    {
      if |layerDefinition| < 2 {
        return InsufficientLayers;
      }
      if |func| != |layerDefinition| {
        return ActivationMismatch;
      }
      if exists l :: 0 <= l < |layerDefinition| && layerDefinition[l] < 0 {
        return NegativeLayerSize;
      }
      var layers: seq<nat> := layerDefinition;
      var net := new Network(id, layers, func, rng);
      c := Created(net);
    }
  }
}

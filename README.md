# Sheep herding by mutation — a Dafny model

The system is a C# desktop program. It trains a population of small feed-forward neural networks. Each network
drives a sheepdog (the *herder*) that tries to steer a flock of boid-simulated sheep along a route of way
points and into a pen. After every generation, the networks are scored, ranked and sorted. The weaker half is
overwritten with mutated copies of the stronger half, and the worst one is replaced by a fresh random network.

This project models that core. Each source file has its own module:

| module | file | what it holds |
|---|---|---|
| `Numerics` | `numerics.dfy` | reals for floats; the transcendental functions (`Sqrt`, `Exp`, `Tanh`, `Atan2`, `Sin`, `Cos`) passed in as a value; C#'s `(int)` cast (`Trunc`), integer division (`CsDiv`), `Math.Round` (`RoundHalfEven`) and 32-bit wrap-around (`Wrap32`) |
| `MathUtils` | `math_utils.dfy` | `Utilities/MathUtils.cs`: clamping, the 0..360 wrap, the mode of a list, degrees and radians, point-in-triangle, distance, segment intersection and projection onto a segment |
| `World` | `world.dfy` | the pen, the fences and the boundary push of `Sheepies/Flock.cs` |
| `Sheep` | `sheep.dfy` | class `Sheep` of `Sheepies/Sheep.cs`: reset, pause, the speed cap and one frame of movement, specified by the value function `Step` |
| `Flock` | `flock.dfy` | class `Flock` of `Sheepies/Flock.cs`: centres of mass, way-point progress and failure, moving every sheep, and the fitness score |
| `SheepSensor`, `WallSensor` | `sheep_sensor.dfy`, `wall_sensor.dfy` | the sector sensors of `Predator/SheepSensor.cs` and `Predator/WallSensor.cs`; each `Read` fills an array that is proved equal to a value-level sweep |
| `Activation` | `activation.dfy` | the activation functions and their derivatives (`AI/NeuralNetwork.cs`) |
| `Tensors` | `tensors.dfy` | shapes of the jagged bias and weight arrays, their flattening, and the sums used by the forward pass |
| `NeuralNetwork` | `neural_network.dfy` | class `Network`: construction, the forward pass, mutation, copying, save and load, best and average fitness |
| `Population` | `population.dfy` | class `Registry`: the dictionary from id to network, with its enumeration order; scoring and the stable sort by score |
| `LearnToHerd` | `learn_to_herd.dfy` | input width and layer sizing, the move budget and generation counters (class `Trainer`), and the selection and mutation step `MutateFlock` |
| `Dog` | `dog.dfy` | class `Dog` of `Predator/Dog.cs`: the neural-network input vector, the checks made while reading it, steering, moving and the fence push |
| `Form1` | `form1.dfy` | the parts of `Form1.cs` that compute rather than draw: the speed-key cycle, the ranking shown to the user, and the scaling of the way points from the 674x500 reference grid onto the 300x300 playing field |

Where the source changes objects in place, the model is a class with `modifies` clauses. The two sensors, `Network`,
`Registry`, `Flock`, `Sheep`, `Dog`, `Trainer` and `Timer` are classes. Each such method is proved against a
value-level function, for example `Sheep.Step`, `NeuralNetwork.Forward`, `NeuralNetwork.PerturbBiases`,
`SheepSensor.SectorValues` or `Flock.WayPointChecked`. The properties are then proved about those functions.
Randomness is a parameter: `Draw10000`, `Draw100` and `MutationDraws` are functions from a draw's position to
its value. The clock is a parameter `now`.

The model follows the code as written, with three exceptions: the defects listed under "## Findings" are
modelled both ways, and the rest of the model runs the corrected behaviour ("## Left out" names each member
affected). Behaviour of the code that is easy to misread:

- `AverageFitness` divides integers and truncates. A history of 2 to 19 entries is averaged over its last
  two, so on the history `[1..10]` it gives 9 (`NeuralNetwork.WindowMeanOfShortHistory`).
- Loading an empty model file throws: the first line is parsed outside the guarded block. The model gives
  this case its own result, `EmptyFile`. A short file returns `false` after overwriting the values it did
  hold. The model keeps that partial write.
- `Mutate` keeps drawing until some parameter is chosen. A chosen parameter whose drawn delta is 0 still
  counts as a mutation.
- When `MutateFlock` stops early, it does not restore the dictionary's enumeration order. The model keeps
  the sorted order, and every key stays bound to its own network.
- In `MutateFlock`, each network's best fitness is computed before the new fitness is appended to its history.
- The fitness history of a bred network is capped at 26.
- The program leaves quiet mode once a flock's score exceeds 500. `Flock.FitnessScore` never exceeds 100
  while the way-point cursor is at most 100, and never exceeds the cursor after that. So this exit can only
  happen on a route of more than 500 way points (`Flock.QuietModeNeverLeft`).

## Model

| member | source | states |
|---|---|---|
| Numerics.RoundHalfEven | Form1.cs:126 | the rounded value is within one half of its argument |
| Numerics.Wrap32 | LearnToHerd.cs:174 | the result is a 32-bit int, equals its argument when that fits, and differs from it by a multiple of 2^32 |
| Activation.Activate | AI/NeuralNetwork.cs:249-435 | per kind: sigmoid lies strictly in (0,1); ReLU is max(0,x); leaky ReLU is x or 0.01x; binary step is 1 iff x >= 0; soft sign lies in (-1,1) with the sign of x; SELU is 1.0507x for positive x and bounded below; identity is x |
| Activation.SoftSignMonotone | AI/NeuralNetwork.cs:383-386 | soft sign is monotone |
| Activation.ActivateMonotone | AI/NeuralNetwork.cs:318-435 | ReLU, leaky ReLU, binary step, soft sign and identity preserve order; sigmoid, tanh and SELU are not covered, because the exponential and tanh are given values not assumed monotone |
| Activation.Derivative | AI/NeuralNetwork.cs:259-444 | per kind: the sigmoid derivative vanishes at 0 and 1; the tanh derivative lies in [0,1] on [-1,1]; ReLU gives 1 iff the value is positive; leaky ReLU gives 1 or 0.01; binary step gives 0; soft sign lies in (0,1]; SELU is positive; identity gives 1 |
| World.EnforceBoundary | Sheepies/Flock.cs:378-391 | each component is +4 below 5, -4 beyond the pen size less 5, and 0 in between |
| World.BoundaryPushesInwards | Sheepies/Flock.cs:378-391 | in a pen at least 10 wide and high, the push moves a sheep near an edge back towards the inside |
| MathUtils.Clamp | Utilities/MathUtils.cs:90-103 | the result is the value, the minimum or the maximum; it lies in [min,max] when min <= max; a value already inside is returned unchanged |
| MathUtils.Clamp360 | Utilities/MathUtils.cs:113-119 | the result lies in [0,360], differs from the input by whole turns, and leaves angles already in [0,360] unchanged |
| MathUtils.Wrapped360 | Utilities/MathUtils.cs:113-119 | the value-level wrap satisfies the same characterisation as `Clamp360` |
| MathUtils.Clamp360Unique | Utilities/MathUtils.cs:113-119 | that characterisation determines the result uniquely |
| MathUtils.CountOccurrences | Utilities/MathUtils.cs:23-57 | the keys are the distinct values of the list in order of first occurrence, each mapped to its number of occurrences |
| MathUtils.GetMode | Utilities/MathUtils.cs:23-57 | 0 for the empty list; otherwise a member of the list with the largest count, the first such in order of first occurrence |
| MathUtils.DegreesRadiansRoundTrip | Utilities/MathUtils.cs:64-80 | converting degrees to radians and back, or radians to degrees and back, gives the original angle |
| MathUtils.PtInTriangleAcceptsVertices | Utilities/MathUtils.cs:129-137 | each vertex of a triangle is inside it |
| MathUtils.PtInTriangleDegenerate | Utilities/MathUtils.cs:129-137 | with collinear vertices every point counts as inside, because the sign test then sees a zero |
| MathUtils.Distance | Utilities/MathUtils.cs:145-151 | the distance is non-negative, its square is the sum of the squared differences, and it is 0 between equal points |
| MathUtils.DistanceSymmetric | Utilities/MathUtils.cs:145-151 | distance is symmetric |
| MathUtils.GetLineIntersection | Utilities/MathUtils.cs:163-191 | a miss returns the no-intersection marker; a hit needs non-parallel lines |
| MathUtils.CrossingPointsAgree | Utilities/MathUtils.cs:163-191 | for non-parallel lines, the point found along the first line is the point found along the second |
| MathUtils.IntersectionOnBothSegments | Utilities/MathUtils.cs:163-191 | a hit lies on both segments (parameters in [0,1]) |
| MathUtils.IsOnLine | Utilities/MathUtils.cs:201-226 | on-line holds iff the projection parameter is in [0,1]; the closest point is the projection with that parameter clamped to [0,1] |
| MathUtils.IsOnLinePerpendicular | Utilities/MathUtils.cs:201-226 | when the projection falls on the segment, the offset to the closest point is perpendicular to the segment |
| Sheep.CappedVelocityBounds | Sheepies/Sheep.cs:238-258 | a velocity slower than the stop threshold becomes zero; one between the threshold and the maximum is kept; one at or above the maximum keeps its direction and is shortened to exactly the maximum speed; so the result is zero or its speed lies between the two |
| Sheep.StepLimits | Sheepies/Sheep.cs:126-233 | one frame turns the sheep by at most half the turn limit; a paused sheep does not move; a moving sheep stays within the maximum speed |
| Sheep.PauseHolds | Sheepies/Sheep.cs:129-134 | during a pause of d frames, n < d frames only count the pause down |
| Sheep.PauseEnds | Sheepies/Sheep.cs:129-134 | after d frames the pause is over, with no frames remaining |
| Sheep.Sheep.constructor | Sheepies/Sheep.cs:69-79 | a new sheep stands at its start position, at rest, facing 0, not paused |
| Sheep.Sheep.ResetToStart | Sheepies/Sheep.cs:84-97 | the sheep returns to its start, at rest and not paused; the remaining pause count is kept |
| Sheep.Sheep.MakeSheepPause | Sheepies/Sheep.cs:103-110 | the sheep is paused for the given frames, or for a random count when fewer than 1 are given; nothing else changes |
| Sheep.Sheep.StopSheepRunningUnrealisticallyFast | Sheepies/Sheep.cs:238-258 | only the velocity changes, to its capped value |
| Sheep.Sheep.Move | Sheepies/Sheep.cs:126-233 | the new state is `Step` of the old state and the boid increment |
| Flock.SumOthersAddsUp | Sheepies/Flock.cs:158-179 | the other sheep's positions plus this sheep's give the sum over the flock |
| Flock.SumOthersMissing | Sheepies/Flock.cs:158-179 | a sheep not in the flock excludes nobody |
| Flock.CentroidWithinBounds | Sheepies/Flock.cs:319-343 | the centre of mass lies inside any box that holds every sheep |
| Flock.FurthestIsFurthest | Sheepies/Flock.cs:246-276 | the search returns -1 iff no way point in range has a fence-free line from the centre of mass; otherwise a clear one at the greatest distance, the first such |
| Flock.RouteHasFences | Sheepies/Flock.cs:284-314 | true iff some fence segment crosses the line from the centre of mass to the way point |
| Flock.ClosestForwardsIsFurthest | Sheepies/Flock.cs:246-276 | the cursor never moves back; it moves to the furthest clear way point ahead, or stays |
| Flock.GetClosestWayPointForwards | Sheepies/Flock.cs:246-276 | the loop returns `ClosestForwards` |
| Flock.SumScoresBounds | Sheepies/Flock.cs:690-709 | each sheep scores 100 in the pen and the cursor otherwise, so the sum lies between the flock size times the smaller and times the larger |
| Flock.SumScoresCounts | Sheepies/Flock.cs:690-709 | the summed score is 100 per penned sheep plus the cursor per other sheep |
| Flock.MoveAll | Sheepies/Flock.cs:545-553 | every sheep takes one `Step`, and the count returned is the number now in the pen zone |
| Flock.CursorAdvanced | Sheepies/Flock.cs:201-209 | the flock fails as out of sight iff the dog is more than 1.4 vision depths from the centre of mass; otherwise the cursor moves forward to `ClosestForwards`, with the checkpoint time reset when it moves |
| Flock.TimeChecked | Sheepies/Flock.cs:216-228 | the flock fails iff more than the allowed time has passed since the checkpoint; the reason is time wasting before the last way point, time up at it |
| Flock.WayPointChecked | Sheepies/Flock.cs:187-231 | the cursor never moves back, failure is never undone, a new failure has a reason, and moving the cursor resets the checkpoint |
| Flock.Flock.constructor | Sheepies/Flock.cs:130-153 | the flock holds fresh, distinct sheep at the given positions, its cursor at 0, not failed, checkpoint now |
| Flock.Flock.MakeSheep | Sheepies/Flock.cs:139-143 | n fresh distinct sheep at rest at the first n positions |
| Flock.Flock.SetNextWayPointToHeadTo | Sheepies/Flock.cs:86-101 | sets the cursor, and resets the checkpoint time only if the value changed |
| Flock.Flock.CenterOfMassExcludingThisSheep | Sheepies/Flock.cs:158-179 | with fewer than two sheep, the sheep's own position; otherwise the mean of the other sheep's positions |
| Flock.Flock.GetAngleFlockIsMovingInRadians | Sheepies/Flock.cs:594-606 | atan2 of the summed velocities |
| Flock.Flock.TrueCentreOfMass | Sheepies/Flock.cs:319-343 | returns the centroid, and reports stragglers iff some sheep is more than 150 from it |
| Flock.Flock.AdjustClosestWayPointForwards | Sheepies/Flock.cs:237-240 | the cursor becomes `ClosestForwards` and never decreases |
| Flock.Flock.AngleToNextWayPoint | Sheepies/Flock.cs:187-231 | the progress becomes `WayPointChecked` of the old progress |
| Flock.Flock.AdvanceUnlessOutOfSight | Sheepies/Flock.cs:201-209 | the progress becomes `CursorAdvanced` of the old progress |
| Flock.Flock.FailIfTimeWasted | Sheepies/Flock.cs:216-228 | the progress becomes `TimeChecked` of the old progress |
| Flock.Flock.Move | Sheepies/Flock.cs:541-556 | a failed flock does not change; otherwise every sheep takes one `Step`, and the pen-zone count is recounted |
| Flock.Flock.FitnessScore | Sheepies/Flock.cs:690-709 | the score is the mean per-sheep score: 100 when all are penned, the cursor when none are, and in between otherwise; the quiet-mode signal is raised iff it exceeds 500 |
| Flock.FitnessBounds | Sheepies/Flock.cs:690-709 | the mean score lies between the cursor and 100 |
| Flock.FitnessBetween | Sheepies/Flock.cs:690-709 | the same bounds, for the smaller and the larger of the cursor and 100 |
| Flock.FitnessAllIn | Sheepies/Flock.cs:690-709 | a fully penned flock scores 100 |
| Flock.FitnessNoneIn | Sheepies/Flock.cs:690-709 | a flock with none penned scores the cursor |
| Flock.QuietModeNeverLeft | Sheepies/Flock.cs:690-709 | with the cursor at most 500 the score never passes the quiet-mode exit threshold |
| SheepSensor.SectorStartNext | Predator/SheepSensor.cs:81-90 | consecutive sectors start one sector angle apart |
| SheepSensor.CountInZero | Predator/SheepSensor.cs:111-131 | the count is 0 iff no sheep lies in the sector |
| SheepSensor.TallyCounts | Predator/SheepSensor.cs:111-131 | in count mode the tally is the number of sheep in the sector |
| SheepSensor.TallyNearest | Predator/SheepSensor.cs:116-121 | in distance mode the tally is 0 for an empty sector, else the smallest in-sector distance over the vision depth |
| SheepSensor.SectorValueBounds | Predator/SheepSensor.cs:111-134 | values are non-negative; in count mode at most 1 and the share of the flock in the sector; binary mode gives 0 or 1 |
| SheepSensor.TargetAmounts | Predator/SheepSensor.cs:136-140 | one positive amount per target sector |
| SheepSensor.SectorValuesAt | Predator/SheepSensor.cs:55-149 | the i-th output is the value of the i-th sector's triangle |
| SheepSensor.TargetsNext | Predator/SheepSensor.cs:136-140 | a sector becomes a target exactly when its value is positive |
| SheepSensor.SheepSensor.TallySector | Predator/SheepSensor.cs:111-131 | the loop computes `Tally` |
| SheepSensor.SheepSensor.SectorShape | Predator/SheepSensor.cs:89-107 | the sector triangle runs from the dog out to the vision depth at the two edge angles; the label sits midway between the far corners |
| SheepSensor.SheepSensor.ReadValue | Predator/SheepSensor.cs:111-134 | computes `SectorValue` |
| SheepSensor.SheepSensor.ReadSector | Predator/SheepSensor.cs:86-145 | extends the sweep by one sector |
| SheepSensor.SheepSensor.Read | Predator/SheepSensor.cs:55-149 | returns a fresh array of one value per sample point, equal to `SectorValues`; the drawn triangles, labels, targets and amounts are the sweep's |
| WallSensor.MeasureCases | Predator/WallSensor.cs:119-166 | a sector meets a segment where either edge of the sector crosses it |
| WallSensor.Fraction | Predator/WallSensor.cs:168-170 | the fraction lies in [0,1], and is below 1 iff the crossing is nearer than the wall depth |
| WallSensor.NearestIsNearest | Predator/WallSensor.cs:164-175 | the scan returns a value in [0,1] no larger than any crossing's fraction, and equal to one of them unless it is 1 |
| WallSensor.NearestIsOneIffNothingNear | Predator/WallSensor.cs:94-177 | the scan returns 1 iff no wall is seen within the depth |
| WallSensor.WallValuesAt | Predator/WallSensor.cs:42-192 | the i-th output is the i-th sector's value |
| WallSensor.WallValueMeaning | Predator/WallSensor.cs:151-183 | each value lies in [0,1] and is positive iff the sector sees a wall |
| WallSensor.WallStep | Predator/WallSensor.cs:179-188 | a sector contributes 1 minus the nearest fraction, and is a target iff that fraction is below 1 |
| WallSensor.WallSensor.ScanFence | Predator/WallSensor.cs:97-177 | the loop over one fence's segments computes `NearestFrom` |
| WallSensor.WallSensor.ScanFences | Predator/WallSensor.cs:97-177 | the loop over all fences computes `NearestFrom` over every segment |
| WallSensor.WallSensor.SectorTriangle | Predator/WallSensor.cs:86-92 | the sector triangle from the dog to the two far corners |
| WallSensor.WallSensor.ReadWallSector | Predator/WallSensor.cs:71-188 | extends the sweep by one sector |
| WallSensor.WallSensor.Read | Predator/WallSensor.cs:42-192 | returns a fresh array of the requested length equal to `WallValues`; the drawn triangles and targets are the sweep's |
| NeuralNetwork.InitialValue | AI/NeuralNetwork.cs:474-477 | an initial bias or weight lies in [-0.5, 0.5) |
| NeuralNetwork.Forward | AI/NeuralNetwork.cs:567-599 | the output of layer l has that layer's width |
| NeuralNetwork.LayerOutputAt | AI/NeuralNetwork.cs:567-599 | neuron j of a layer is the activated weighted sum of the previous layer plus its bias |
| NeuralNetwork.ForwardStep | AI/NeuralNetwork.cs:567-599 | layer l is computed from layer l-1 with the weights and biases between them |
| NeuralNetwork.ZeroWeightsGiveActivatedBias | AI/NeuralNetwork.cs:567-599 | a neuron with all-zero incoming weights outputs its activated bias |
| NeuralNetwork.SigmoidOutputInUnitInterval | AI/NeuralNetwork.cs:567-599 | every neuron of a sigmoid layer outputs a value in (0,1) |
| NeuralNetwork.StepBounds | AI/NeuralNetwork.cs:708-743 | with delta draws in range, every change lies in [-val/2, val/2) |
| NeuralNetwork.DeltaRangeNonEmpty | AI/NeuralNetwork.cs:708-743 | the delta range is non-empty iff val*10000 >= 1 |
| NeuralNetwork.PerturbBiases | AI/NeuralNetwork.cs:716-726 | a pass keeps the shape of the biases |
| NeuralNetwork.PerturbWeights | AI/NeuralNetwork.cs:728-741 | a pass keeps the shape of the weights |
| NeuralNetwork.PassFiresByShape | AI/NeuralNetwork.cs:714-741 | whether a pass changes anything depends only on the layer sizes and the draws |
| NeuralNetwork.FirstFiringPass | AI/NeuralNetwork.cs:714 | the pass that ends the retry loop is the first pass that chooses a parameter |
| NeuralNetwork.QuietPassKeepsBiases | AI/NeuralNetwork.cs:716-741 | a pass that chooses no bias leaves the biases unchanged |
| NeuralNetwork.QuietPassKeepsWeights | AI/NeuralNetwork.cs:716-741 | a pass that chooses no weight leaves the weights unchanged |
| NeuralNetwork.UnchosenBiasUnchanged | AI/NeuralNetwork.cs:720 | a bias whose chance draw exceeds the mutation chance keeps its value |
| NeuralNetwork.PerturbedBiasWithinHalfVal | AI/NeuralNetwork.cs:716-726 | every bias moves by less than val/2 |
| NeuralNetwork.PerturbedWeightWithinHalfVal | AI/NeuralNetwork.cs:728-741 | every weight moves by less than val/2 |
| NeuralNetwork.Params | AI/NeuralNetwork.cs:777-807 | the saved parameters are all biases then all weights |
| NeuralNetwork.CountAbove | AI/NeuralNetwork.cs:606-611 | the count of history entries above the threshold is at most the history length |
| NeuralNetwork.CountAboveAll | AI/NeuralNetwork.cs:606-611 | if every entry is above the threshold, the count is the length |
| NeuralNetwork.CountAboveNone | AI/NeuralNetwork.cs:606-611 | if no entry is above the threshold, the count is 0 |
| NeuralNetwork.WindowStart | AI/NeuralNetwork.cs:662 | the window is the whole history below 2 entries, the last 2 below 20, else the last tenth |
| NeuralNetwork.WindowMeanBounds | AI/NeuralNetwork.cs:656-667 | the window mean lies between bounds on the window's entries |
| NeuralNetwork.WindowMeanOfShortHistory | AI/NeuralNetwork.cs:656-667 | a one-entry history is its own mean; a history of 2 to 19 entries has as mean its last two entries summed and halved, truncated toward zero |
| NeuralNetwork.SaveLoadRoundTrip | AI/NeuralNetwork.cs:777-852 | loading what `Save` wrote into a network of the same shape restores exactly its biases and weights |
| NeuralNetwork.Network.constructor | AI/NeuralNetwork.cs:131-175 | the network has the given layers and activations, zero neurons, biases and then weights drawn in order, an empty history and zero fitness |
| NeuralNetwork.Network.Create | AI/NeuralNetwork.cs:131-175 | too few layers, a mismatched activation count and a negative layer size are each reported exactly when they occur; otherwise a fresh valid network |
| NeuralNetwork.Network.InitialiseNeurons | AI/NeuralNetwork.cs:452-468 | one zero row per layer |
| NeuralNetwork.Network.InitialiseBiases | AI/NeuralNetwork.cs:482-500 | biases of the right shape, drawn from the first draws in order |
| NeuralNetwork.Network.InitialiseWeights | AI/NeuralNetwork.cs:505-531 | weights of the right shape, drawn from the following draws in order |
| NeuralNetwork.Network.FeedForward | AI/NeuralNetwork.cs:567-599 | the inputs are written to layer 0, every layer equals `Forward`, and the output is the last layer |
| NeuralNetwork.Network.Mutate | AI/NeuralNetwork.cs:708-743 | the network is marked mutated, and its parameters are those of the first pass that chooses something |
| NeuralNetwork.Network.MutatePass | AI/NeuralNetwork.cs:714-741 | one pass over biases and weights; it reports a change iff it chose something, and otherwise changes nothing |
| NeuralNetwork.Network.MutateBiasesPass | AI/NeuralNetwork.cs:716-726 | the biases become `PerturbBiases`; it reports whether any bias was chosen |
| NeuralNetwork.Network.MutateWeightsPass | AI/NeuralNetwork.cs:728-741 | the weights become `PerturbWeights`; it reports whether any weight was chosen |
| NeuralNetwork.Network.CopyFromTo | AI/NeuralNetwork.cs:750-770 | the destination gets the source's biases and weights; the source is unchanged |
| NeuralNetwork.Network.Save | AI/NeuralNetwork.cs:777-807 | the file holds the fitness, then the biases, then the weights, one more line than there are parameters |
| NeuralNetwork.Network.Load | AI/NeuralNetwork.cs:813-852 | a missing or empty file changes nothing; otherwise the fitness is the first line and the parameters are overwritten in order for as many lines as there are; the result is loaded iff there were enough |
| NeuralNetwork.Network.LoadBiases | AI/NeuralNetwork.cs:826-832 | the biases are overwritten in order from the source; complete iff the source was long enough |
| NeuralNetwork.Network.LoadWeights | AI/NeuralNetwork.cs:834-843 | the weights are overwritten in order from the source; complete iff the source was long enough |
| NeuralNetwork.Network.BestFitness | AI/NeuralNetwork.cs:601-614 | the fitness with no history; otherwise the number of entries above the way-point count |
| NeuralNetwork.Network.AverageFitness | AI/NeuralNetwork.cs:621-668 | the fitness with no history; otherwise the integer mean over the window |
| Population.MaxOf | AI/NeuralNetwork.cs:675-682 | the maximum is at least the start value and every element, and is one of them |
| Population.SortPermutation | AI/NeuralNetwork.cs:700 | a permutation of positions that lists scores ascending, equal scores in original order |
| Population.StableSortOrdered | AI/NeuralNetwork.cs:700 | the insertion sort of distinct positions is ordered |
| Population.ReorderKeepsKeys | AI/NeuralNetwork.cs:700 | reordering by a permutation keeps the key set and its distinctness |
| Population.Registry.constructor | AI/NeuralNetwork.cs:58 | an empty registry |
| Population.Registry.Register | AI/NeuralNetwork.cs:170-174 | the id is bound to the network; a new id is appended to the enumeration order |
| Population.Registry.Clear | LearnToHerd.cs:189 | the registry is empty |
| Population.Registry.SortNetworkByFitness | AI/NeuralNetwork.cs:673-701 | with a zero best fitness nothing changes; otherwise every network gets its new score, and the order becomes the stable ascending sort by score |
| Population.Registry.EnumerationAscends | AI/NeuralNetwork.cs:700 | after the reorder the enumerated scores ascend, and ties keep their earlier order |
| Population.Registry.ScoreAndOrder | AI/NeuralNetwork.cs:687-700 | scores every network, then sorts the enumeration order by score |
| Population.Registry.CollectAndOrder | AI/NeuralNetwork.cs:700 | the collected scores are in enumeration order, and the order becomes their stable sort |
| Population.Registry.BestOfAll | AI/NeuralNetwork.cs:675-682 | the best fitness over all networks, or -1 for none |
| Population.Registry.ScoreAll | AI/NeuralNetwork.cs:687-696 | every network's score is its new score; nothing else changes |
| Population.Registry.ScoreOne | AI/NeuralNetwork.cs:687-695 | the network's score is its new score |
| Population.Registry.OrderByScore | AI/NeuralNetwork.cs:700 | the order becomes the stable sort by the given scores |
| Population.Registry.Enumerated | LearnToHerd.cs:286-289 | the networks in enumeration order |
| Population.Registry.Unsort | LearnToHerd.cs:321-330 | the enumeration order becomes 0..n-1 and the bindings are unchanged |
| LearnToHerd.DefaultInputWidth | LearnToHerd.cs:150-163 | under the default configuration the sheep sensor gives 63 inputs and the network 64 |
| LearnToHerd.SizeLayers | LearnToHerd.cs:131-143 | the first layer is the input width, the last is 2, hidden layers take `HiddenSize`; a negative size is reported |
| LearnToHerd.NextBudget | LearnToHerd.cs:174 | the intended budget never shrinks for a non-negative percentage and stays non-negative |
| LearnToHerd.BudgetsAgreeWithoutOverflow | LearnToHerd.cs:174 | when the product fits in 32 bits, the code's budget is the intended one |
| LearnToHerd.BudgetOverflows | LearnToHerd.cs:174 | at 21474837 moves and 5% the code's budget wraps to -20401094; the intended one is 22548578 |
| LearnToHerd.NextGenerationOf | LearnToHerd.cs:169-182 | the generation counts up, no moves are made, and the budget does not shrink |
| LearnToHerd.BudgetLasts | LearnToHerd.cs:353-358 | within the budget each tick only counts a move |
| LearnToHerd.GenerationEndsAfterBudget | LearnToHerd.cs:353-358 | the tick after the budget starts the next generation, and none before it does |
| LearnToHerd.Trainer.constructor | LearnToHerd.cs:84-97 | all counters start at 0 |
| LearnToHerd.Trainer.StartLearning | LearnToHerd.cs:112-126 | starts generation 1 with the initial budget |
| LearnToHerd.Trainer.NextGeneration | LearnToHerd.cs:169-182 | the counters become `NextGenerationOf` |
| LearnToHerd.Trainer.Tick | LearnToHerd.cs:353-358 | reports a new generation iff the budget was used up |
| LearnToHerd.MutateNow | LearnToHerd.cs:408-418 | true iff every flock has failed |
| LearnToHerd.StopFrom | LearnToHerd.cs:293-302 | the replacement loop returns at the first lower-half position that is due while its donor half a population above is not; positions that are not due are skipped; with no such position it runs through the whole lower half |
| LearnToHerd.Keep | LearnToHerd.cs:316 | the kept network lies in the upper half of the population |
| LearnToHerd.ScoreNetwork | LearnToHerd.cs:269-279 | the fitness is recorded, the history grows, and the returned success is measured before that |
| LearnToHerd.UpdateFitness | LearnToHerd.cs:267-280 | every network gets its fitness, and the result is the greatest success |
| LearnToHerd.ScoreAll | LearnToHerd.cs:267-280 | the same, over a list of distinct networks |
| LearnToHerd.Rank | LearnToHerd.cs:282 | only the scores and the enumeration order change; the result is the best fitness; when it is 0 the scores and order stay, otherwise every network's score is its Score and the keys are stably re-enumerated by ascending Score |
| LearnToHerd.BestFitnessOfAll | LearnToHerd.cs:282 | the best fitness is at least every network's fitness and is one of them |
| LearnToHerd.Breed | LearnToHerd.cs:302-309 | the worse network becomes a mutated copy of the better, with an inherited history |
| LearnToHerd.Inherit | LearnToHerd.cs:307-309 | the history becomes the single entry min(26, the donor's average less 1) |
| LearnToHerd.CloneAndMutate | LearnToHerd.cs:302-306 | the copy gets the donor's parameters after the first firing mutation pass |
| LearnToHerd.Clone | LearnToHerd.cs:302-303 | the copy gets the donor's parameters, with its mutation generation reset |
| LearnToHerd.ReplaceWorst | LearnToHerd.cs:293-311 | each network ends in its `Replaced` state; completed iff no network gave up the loop |
| LearnToHerd.ReplaceInOrder | LearnToHerd.cs:286-311 | the same, over the networks in sorted order |
| LearnToHerd.Reset | LearnToHerd.cs:314-330 | the order returns to 0..n-1, and one key is rebound to a fresh random network |
| LearnToHerd.NewReplacement | LearnToHerd.cs:314-318 | a fresh network with the given id and fitness |
| LearnToHerd.BredStartsOver | LearnToHerd.cs:302-309 | a bred network is mutated, restarts its generation count, has a one-entry history capped at 26, and keeps its fitness and score |
| LearnToHerd.BredBiasNearDonor | LearnToHerd.cs:306 | every bred bias is within 0.125 of the donor's |
| LearnToHerd.BredWeightNearDonor | LearnToHerd.cs:306 | every bred weight is within 0.125 of the donor's |
| LearnToHerd.ReplacedOnlyWhenDue | LearnToHerd.cs:293-311 | only a due network in the lower half before the stop point is replaced; the upper half never changes |
| LearnToHerd.ScoreAndRank | LearnToHerd.cs:262-289 | scores and sorts as `SortedByScore` says (each network's Score, stable ascending order of keys), returning the sorted keys and the networks' states in that order |
| LearnToHerd.ScoreAndSort | LearnToHerd.cs:262-282 | every network is aged and given its new fitness; then, unless the best fitness is 0, each gets the Score of that new state and the keys are stably re-enumerated by ascending Score |
| LearnToHerd.ListInOrder | LearnToHerd.cs:286-289 | the networks listed in enumeration order, ascending when the scores are sorted |
| LearnToHerd.MutateFlock | LearnToHerd.cs:254-331 | a population of one is replaced outright; otherwise the networks are scored and sorted as `SortedByScore` says, the due lower half is bred from the upper half, the upper half is kept unchanged, an early stop leaves every binding in place, and completion rebinds the worst key to a fresh network and restores the order 0..n-1 |
| LearnToHerd.FinishersRankedByFitness | AI/NeuralNetwork.cs:686-700 | after the sort scores ascend, and networks that have passed every way point are listed in ascending order of fitness |
| LearnToHerd.MutateMany | LearnToHerd.cs:262-331 | scores and sorts as `SortedByScore` says, breeds the due lower half, keeps the upper half unchanged, and on completion rebinds the worst key to a fresh network with the kept network's average fitness |
| LearnToHerd.Finish | LearnToHerd.cs:314-330 | rebinds the worst key to a fresh network and restores the order 0..n-1 |
| Dog.SensorInputs | Predator/Dog.cs:184-210 | one input for the dog's angle, the sheep-sensor width and the wall sample points, each only when switched on |
| Dog.HerdInputs | Predator/Dog.cs:213-226 | the herd inputs have the width of the switched-on terms |
| Dog.FieldInputs | Predator/Dog.cs:228-241 | the field inputs have the width of the switched-on terms |
| Dog.RouteInputs | Predator/Dog.cs:244-249 | the route inputs have the width of the switched-on terms |
| Dog.Inputs | Predator/Dog.cs:175-253 | the input vector has `RequiredInputWidth` entries |
| Dog.InputsOutgrowInputWidth | Predator/Dog.cs:246-249 | with the closest-distance input on, the vector is one longer than the counted width |
| Dog.DefaultInputs | Predator/Dog.cs:175-253 | under the defaults the vector is the 63 sheep-sensor values then the way-point heading over pi |
| Dog.InputsIgnoreWhatIsNotAsked | Predator/Dog.cs:175-253 | a heading whose input is off does not affect the vector |
| Dog.Sighted | Predator/Dog.cs:198-202 | the flock fails iff no sheep is within the vision depth; the cursor and checkpoint are unchanged |
| Dog.ProgressAfterInputs | Predator/Dog.cs:175-253 | the cursor never moves back, failure is never undone, losing sight fails the flock, and the cursor only moves when the way-point heading is read |
| Dog.HeadingSpeed | Predator/Dog.cs:123-127 | the speed is the scaled output clamped to the maximum, with the output's sign, and 0.5 for a zero output |
| Dog.OptimalDirectionIsShortest | Predator/Dog.cs:162 | the shortest turn differs from the raw difference by whole turns and lies in [-180,180) |
| Dog.Turn | Predator/Dog.cs:155-169 | the turn is at most 30 degrees, in the direction of the shortest turn and no longer than it |
| Dog.TurnsAgreeWithoutWrapping | Predator/Dog.cs:159-165 | when the raw difference lies in [-180,180), the code's turn is the intended turn |
| Dog.TurnAsWrittenOvershoots | Predator/Dog.cs:159-165 | facing 355 with target 5, the code turns 30 to 25; the intended turn is 10, to 5 |
| Dog.ApproachSpeed | Predator/Dog.cs:168 | the speed is the distance, capped at the maximum |
| Dog.Confine | Predator/Dog.cs:106-107 | the position is kept inside the field margins, and a position already inside is unchanged |
| Dog.Steered | Predator/Dog.cs:84-93 | the angle lies in [0,360] and the speed within the maximum; position steering aims at the desired position, heading steering keeps it |
| Dog.Advanced | Predator/Dog.cs:97-107 | the dog ends inside the field margins |
| Dog.Moved | Predator/Dog.cs:82-108 | after one move the angle, speed and position keep those bounds |
| Dog.NoFenceNoPush | Predator/Dog.cs:291-316 | a dog touching no fence is not pushed |
| Dog.PushBacksAway | Predator/Dog.cs:291-316 | a touched segment pushes the dog to 1.5 times its offset from the closest point |
| Dog.PushFromFences | Predator/Dog.cs:291-316 | the loop sums the pushes of every fence segment |
| Dog.Dog.constructor | Predator/Dog.cs:73-77 | a new dog is at (10,10), aims at (10,10), facing 0, at rest |
| Dog.Dog.SheepWereSensedInObservableArea | Predator/Dog.cs:271-285 | true iff some sheep is within the vision depth |
| Dog.Dog.InputsToAI | Predator/Dog.cs:175-253 | returns `Inputs` of the current observation and updates progress as `ProgressAfterInputs` |
| Dog.Dog.MarkIfUnseen | Predator/Dog.cs:198-202 | progress becomes `Sighted` |
| Dog.Dog.SteerByHeading | Predator/Dog.cs:114-128 | the angle turns by the first output, wrapped to [0,360]; the speed is `HeadingSpeed` of the second |
| Dog.Dog.SteerToPosition | Predator/Dog.cs:134-148 | the desired position is the centre of mass offset by the outputs scaled to the pen |
| Dog.Dog.SetAngleAndSpeedBasedOnDesiredPosition | Predator/Dog.cs:155-169 | turns by `Turn` towards the desired position, at `ApproachSpeed` |
| Dog.Dog.PreventDogJumpingFences | Predator/Dog.cs:291-316 | the position moves by the summed fence push |
| Dog.Dog.Steer | Predator/Dog.cs:86-94 | the motion becomes `Steered` |
| Dog.Dog.Advance | Predator/Dog.cs:97-107 | the position becomes `Advanced` |
| Dog.Dog.Move | Predator/Dog.cs:82-108 | the network's inputs are `Inputs`, its output is `Forward`, progress is `ProgressAfterInputs`, and the motion is `Moved` |
| Dog.Dog.MoveBesideSheep | Predator/Dog.cs:82-108 | the dog makes the move `Dog.Dog.Move` states, from the sheep as they stand, which it leaves unchanged |
| Dog.MoveFlock | Sheepies/Flock.cs:541-556 | a failed flock and its dog do not change; otherwise every sheep takes one `Step`, the pen zone is recounted, and then the dog, seeing the sheep where they now are, makes the move `Dog.Dog.Move` states: its inputs, its network's outputs, its motion and the flock's progress |
| Form1.NextInterval | Form1.cs:427-438 | the speed key steps 10, 20, 100, 1000 and back to 10; any other interval, the starting 5 included, goes to 10 |
| Form1.SpeedsCycle | Form1.cs:427-438 | four presses return to the same speed, and fewer do not |
| Form1.PressingReachesEverySpeed | Form1.cs:427-438 | every speed is at most four presses away |
| Form1.Timer.constructor | Form1.cs:46 | the timer starts at 5 ms |
| Form1.Timer.StepThroughSpeeds | Form1.cs:427-438 | the interval becomes `NextInterval` |
| Form1.Ranks | Form1.cs:131-137 | one rank per score |
| Form1.RanksCountHigher | Form1.cs:131-137 | a rank is 1 plus the number of strictly higher scores |
| Form1.RanksAreCompetitionRanks | Form1.cs:131-137 | equal scores share a rank, a higher score ranks strictly better, ranks lie in 1..n, and the top score ranks 1 |
| Form1.RoundedScores | Form1.cs:126 | the scores rounded half to even, in enumeration order |
| Form1.SetRanks | Form1.cs:139-144 | each network gets its rank; nothing else changes |
| Form1.RankNetworks | Form1.cs:117-144 | outside quiet mode nothing changes; in it each network's rank is 1 plus the number of higher rounded scores |
| Form1.ScalePoint | Form1.cs:338-347 | way points from the 674x500 reference grid land on the 300x300 playing field, each coordinate truncated toward zero, with corners mapped to corners |
| Form1.ScalePointMonotone | Form1.cs:344-347 | scaling preserves order in both coordinates |

## Left out

- Rendering: every `Draw*` method, `Utilities/Graph.cs`, `DrawFlockToImage` and the performance graph. These produce pixels, not state.
- The user interface: timers, key and mouse handlers, `MessageBox`, the quiet-mode loop with `DoEvents`, and the monitoring toggle (`Monitor`) with the output it enables.
- File-system access. `Load` and `Save` work on the sequence of values in the file, and file names and paths are left out. The static save of every network and the file loading in `InitialiseTheNeuralNetworksForEachFlock` are left out as file handling.
- Concurrency: the flocks move in a `Parallel.ForEach`. The model moves one flock at a time (`Dog.MoveFlock`).
- Randomness and the clock are parameters. This covers the random sheep start positions of `InitialiseFlocks` and the random pause length.
- Flock.MoveAll: the boid rules that produce each sheep's velocity increment are parameters. These are `MoveTowardsCentreOfMass`, `MaintainSeparation`, `EscapeFromTheDog`, `InverseSquare`, `MatchVelocityOfNearbySheep`, the wind, `EncourageDirectionTowards` and `DogDistanceSensitiveMultiplier`. Their floating-point sums promise nothing beyond what `Sheep.Step` caps.
- Floating point: reals stand for doubles, so rounding, NaN and infinities are not modelled. Division by zero is excluded by preconditions:
  - count mode of the sheep sensor with no sheep;
  - `MathUtils.IsOnLine` on a zero-length segment;
  - `Flock.Flock.FitnessScore` on an empty flock.
- The generation counter is a float in the source. The model counts it as an integer and does not model overflow of `++` on the move counters.
- NeuralNetwork.Network.Mutate: the source retries until a pass changes something, which never ends when nothing can be chosen. The model requires that some pass fires.
- Dog.Steered: turns by the corrected `Turn`, the shortest way round, not by the clamped raw difference of Predator/Dog.cs:159-165 (`Dog.TurnAsWritten`); the two agree whenever the raw difference lies in [-180, 180) (`Dog.TurnsAgreeWithoutWrapping`).
- Dog.Moved: steers with `Turn`, as `Dog.Steered` does.
- Dog.Dog.SetAngleAndSpeedBasedOnDesiredPosition: turns by `Turn`, as `Dog.Steered` does.
- Dog.Dog.Steer: steers with `Turn`, as `Dog.Steered` does.
- Dog.Dog.Move: steers with `Turn`, as `Dog.Steered` does, and requires layer 0 to have `RequiredInputWidth` entries. With the source's narrower input width and the closest-distance input on, the source writes past layer 0; the model does not run that case.
- Dog.Dog.MoveBesideSheep: as `Dog.Dog.Move`.
- Dog.MoveFlock: the dog's part is as `Dog.Dog.Move`.
- LearnToHerd.NextGenerationOf: the next budget is `NextBudget`, computed without the 32-bit overflow of LearnToHerd.cs:174 (`LearnToHerd.NextBudgetAsWritten`); the two agree whenever the product fits in 32 bits (`LearnToHerd.BudgetsAgreeWithoutOverflow`).
- LearnToHerd.Trainer.NextGeneration: uses `NextBudget`, as `LearnToHerd.NextGenerationOf` does.
- LearnToHerd.Trainer.StartLearning: uses `NextBudget`, as `LearnToHerd.NextGenerationOf` does.
- LearnToHerd.MutateFlock: draws are given per sorted position, and the flocks' fitness values are passed in.
- Code switched off in the source: the mode calculation in `AverageFitness` and the straggler punishment in the fitness score.
- NeuralNetwork.Network.BestFitness: history entries are integers, so the source's `Math.Round` of their count is the identity and is not modelled.
- The activation derivatives are stored per layer but never used in training, because no backpropagation exists. Only the derivative functions themselves are modelled.

## Findings

| source | as written | input that shows it | evidently intended | confidence | as-written member | corrected member |
|---|---|---|---|---|---|---|
| LearnToHerd.cs:150-163 | the required input count omits the "how close it can get to the sheep" input that `Predator/Dog.cs:246-249` appends | that toggle on: the input vector is one longer than layer 0, so the forward pass indexes past the end of layer 0 | count that input too | not executed | Dog.InputsOutgrowInputWidth | LearnToHerd.RequiredInputWidth |
| LearnToHerd.cs:174 | the next move budget is `budget * (100 + pct) / 100` in 32-bit ints | 21474837 moves at 5% gives -20401094 | 22548578, computed without overflow | not executed | LearnToHerd.BudgetOverflows | LearnToHerd.NextBudget |
| Predator/Dog.cs:159-165 | the turn is the raw angle difference clamped to 30 degrees, not the shortest (wrapped) difference | facing 355 with target 5: turns +30 and ends at 25 | turn by the shortest route, +10, ending at 5 | not executed | Dog.TurnAsWrittenOvershoots | Dog.Turn |

# PolyNet in Dafny

PolyNet is a small feed-forward neural network library. A network is a stack of layers. Layer 0
holds input units, which only store the value written into them. Every later layer holds compute
units. A compute unit has one weight per unit of the layer before it, plus a bias. It caches the
weighted inputs and the output of its last evaluation. The library offers four operations:

- construction from a list of layer sizes;
- `update`, a forward pass that writes an input vector into the input layer and recomputes every
  compute layer in place;
- `train`, a gradient-free coordinate descent. For every weight in turn it tries the current
  value, the value plus an increment and the value minus it. Each candidate is scored by the
  aggregate error over a set of examples, and the first candidate with the smallest error is kept.
- the aggregate error itself: the sum over the examples of the mean absolute difference between
  the outputs and the targets.

The model is in four modules:

- `Neurons` (`neurons.dfy`): the unit datatype and the initialisation of fresh units.
- `Evaluation` (`evaluation.dfy`): the forward pass and the error, as pure functions of the
  weights `W`, the biases `B` and the activation `f`. It also holds the views `WeightsOf` and
  `BiasesOf`, which project a stack of layers onto those parameters.
- `Descent` (`descent.dfy`): the coordinate descent as pure functions of the weights and an
  arbitrary score function, with the lemmas that it never increases the score.
- `Network` (`polynet.dfy`): the `PolyNet` class. Its field `layers` is a `seq<seq<Neuron>>` that
  the methods overwrite in place. `Update`, `MeasureError` and `Train` are proved against the pure
  definitions above.

The activation function is the field `f`, passed to the constructor. The logistic function of
the original is one possible choice. Numbers are Dafny `real`s.

## Model

| member | source | states |
|---|---|---|
| Neurons.NewHiddenNeuron | index.js:11-21 | a fresh compute unit has exactly one weight per unit of the preceding layer, every weight and the bias lie in [0, 1), and nothing is cached yet |
| Neurons.NewHiddenLayer | index.js:40-42 | a compute layer of the requested length, each unit fresh with the preceding layer's length of weights |
| Neurons.NewInputLayer | index.js:35-36 | the input layer has the requested number of units, each holding 0 |
| Network.LayerLengths | index.js:31-35 | the layer lengths of a size list are the list itself, and an empty list gives one empty input layer |
| Network.PolyNet.constructor | index.js:25-28 | the activation is stored, and the network is built as CreateLayers builds it |
| Network.PolyNet.CreateLayers | index.js:30-46 | one layer per size entry with exactly that many units; input units hold 0; each compute unit is fresh with one weight per unit of the layer before it; the network is well formed |
| Network.WellFormedShaped | index.js:12-16 | in a well-formed network the weights of every compute unit match the width of the preceding layer, which is the shape the forward pass needs |
| Network.PolyNet.WriteInputs | index.js:49-50 | input unit m holds inputs[m] for m below the input length and keeps its old value beyond it; nothing else changes |
| Network.PolyNet.UpdateLayer | index.js:53-64 | every unit of layer i holds the weighted inputs and the output `f(sum + bias)` computed from layer i - 1's outputs; no weight or bias changes and no other layer changes |
| Network.PolyNet.Update | index.js:48-68 | weights, biases, layer count and sizes are unchanged; shorter inputs leave stale values in the remaining input units; every compute unit is settled on the outputs of the layer before it, computed in the same pass; the result is the last layer's outputs and equals the forward pass Predict of the parameters on the input values |
| Network.PolyNet.RepeatedUpdate | index.js:48-68 | two updates with equal inputs and nothing in between return equal outputs, even for inputs shorter than the input layer |
| Evaluation.ForwardPrefix | index.js:52-64 | the outputs of layers 0 .. n - 1: layer 0 is the input, and each later layer fires on the outputs of the layer before it |
| Evaluation.ForwardIsUnique | index.js:52-64 | any per-layer list of outputs that starts at the input and in which every layer fires on the previous one is the forward pass |
| Evaluation.SettledIsForward | index.js:52-64 | the outputs cached by a fully settled network are exactly the forward pass of its parameters on its input values |
| Evaluation.SettledIsDetermined | index.js:48-68 | two settled networks with the same parameters and the same input values hold the same outputs in every layer |
| Evaluation.Predict | index.js:67 | the prediction has one value per unit of the last layer |
| Evaluation.SumOfNonNegative | index.js:89-91 | a sum of non-negative terms is non-negative, and is zero exactly when every term is zero |
| Evaluation.ExampleError | index.js:89-91 | the error on one example is never negative, and is zero exactly when every output equals its target |
| Evaluation.AggregateError | index.js:87-93 | the aggregate error over the examples is never negative |
| Evaluation.AggregateErrorStep | index.js:87-93 | adding one more example to the sum adds that example's error |
| Evaluation.AggregateErrorZero | index.js:87-93 | the aggregate error is zero exactly when the network reproduces the targets of every example |
| Network.PolyNet.MeasureExample | index.js:89-91 | evaluating one example leaves the weights and biases unchanged and returns the error of the forward-pass prediction against the targets |
| Network.PolyNet.MeasureError | index.js:87-93 | scoring the example set leaves the weights and biases unchanged and returns AggregateError of the current parameters |
| Network.PolyNet.SetWeight | index.js:98 | writing weight j of unit k of layer i changes that coordinate of the weights and nothing else; the biases are unchanged and the network stays well formed |
| Network.PolyNet.TryCandidate | index.js:84-94 | with the candidate in place, the weights are the old ones with that coordinate replaced, and the returned error is the score of those weights |
| Network.PolyNet.ScoreCandidates | index.js:84-94 | the errors are the scores of the old weights with each candidate in place, in candidate order; the weight is left at the last candidate |
| Descent.Min | index.js:96 | the minimum of a non-empty list is an element of the list and is no larger than any element |
| Descent.IndexOf | index.js:98 | the position of a present value holds it, and no earlier position does |
| Descent.FirstMinimum | index.js:96-98 | the index picked is the first position of the minimum |
| Descent.FirstMinimumIsUnique | index.js:96-98 | only one position is the first position of the minimum |
| Descent.StepKeepsFirstBestCandidate | index.js:78-98 | the reference step keeps the candidate at the first position of the smallest error, as `indexOf(min(errors))` picks it, and the network then scores exactly that smallest error |
| Descent.StepMovesOneWeight | index.js:78-98 | a step changes at most the one weight, and only to the current value, plus incr or minus incr |
| Descent.StepNoWorse | index.js:84-98 | a coordinate step never increases the score |
| Descent.StepKeepsWeightOnTie | index.js:78-98 | when neither perturbation scores strictly lower, in particular when all three errors are equal, the weight is unchanged |
| Descent.WithTwice | index.js:85 | of two writes to the same weight, the later one wins |
| Network.PolyNet.TuneWeight | index.js:78-98 | one coordinate step: the weights become StepWeight of the old weights under the error score, the biases are unchanged |
| Descent.TuneNeuron | index.js:77-99 | tuning a unit's weights in index order keeps the shape of every layer, unit and weight vector |
| Descent.TuneNeuronNoWorse | index.js:77-99 | tuning a unit moves only that unit's weights and never increases the score |
| Network.PolyNet.TuneNeuronWeights | index.js:77-99 | the weights become TuneNeuron of the old weights under the error score, the biases are unchanged |
| Descent.TuneLayer | index.js:76-100 | tuning a layer's units in order keeps the shape |
| Descent.TuneLayerNoWorse | index.js:76-100 | tuning a layer moves only that layer and never increases the score |
| Network.PolyNet.TuneLayerUnits | index.js:76-100 | the weights become TuneLayer of the old weights under the error score, the biases are unchanged |
| Descent.TunePass | index.js:72-101 | one pass over the compute layers keeps the shape |
| Descent.TunePassNoWorse | index.js:72-101 | a pass leaves the input layer and the untouched layers alone and never increases the score |
| Network.PolyNet.TuneLayers | index.js:72-101 | the weights become TunePass of the old weights under the error score, the biases are unchanged |
| Descent.Trained | index.js:71-102 | training keeps the number of layers, the units per layer and the weights per unit |
| Descent.TrainedNoWorse | index.js:71-102 | training keeps the input layer and never increases the score |
| Descent.MoreIterationsNoWorse | index.js:71-102 | more iterations never score worse than fewer |
| Network.PolyNet.Train | index.js:70-103 | the weights become Trained of the old weights under the aggregate-error score; biases are unchanged and the network stays well formed; with zero iterations nothing changes |
| Network.TrainingNeverIncreasesError | index.js:70-103 | the trained weights still fit the biases and the examples, and their aggregate error is no larger than before training |

## Left out

- The logistic activation and `Math.exp` are not modelled. The activation is an arbitrary function `f: real -> real` given to the constructor, so nothing is claimed about output ranges.
- IEEE-754 arithmetic is not modelled: rounding, infinities and NaN are absent. With NaN errors the source's minimum search would pick index -1; over the reals that cannot happen.
- `Math.random` is modelled as an arbitrary choice in [0, 1) for each weight and each bias. No distribution is modelled.
- A fresh compute unit caches the number 0 as its weighted inputs. The model uses an empty list there, because everywhere else that field is a list.
- Network.PolyNet.Update: requires the inputs to be no longer than the input layer. A longer input makes the source dereference a missing unit and throw.
- Network.PolyNet.Update: requires every compute unit to have at least one weight. Summing an empty list without an initial value throws in the source.
- Network.PolyNet.Train: requires each example's inputs to fill the input layer exactly. With shorter inputs the source scores examples using values left over from earlier ones, and the model does not follow that.
- Network.PolyNet.Train: requires each example to have at least one target and at least as many targets as the network has outputs. Otherwise the source divides by zero or compares with missing values.
- Network.PolyNet.Train: states nothing about the weighted inputs and outputs cached on the units after training. They reflect the last candidate tried, not the weight kept.
- Network.PolyNet.MeasureError: carries the same example requirements as Train, for the same reasons.
- Network.PolyNet.CreateLayers: layer sizes are natural numbers. Negative, fractional or missing sizes are not modelled.
- The default options of `train` (an increment of 0.001 and 10000 iterations) and the destructuring of an options object are not modelled. Both values are plain parameters of `Train`.
- An example, a pair `[inputs, outputs]` in the source, is the datatype `Example(inputs, outputs)`.
- Units are values stored in the `layers` sequence, so object identity is not modelled. The source never shares a unit between layers, so no aliasing is lost.
- The four nested loops of `train` are split into one method per loop level: `Train`, `TuneLayers`, `TuneLayerUnits`, `TuneNeuronWeights`. The candidate loop and the final write are in `TuneWeight`. The loop order and every write are those of the source.
- Module export is not modelled.

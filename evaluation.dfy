/** The forward pass and the error score as pure functions of a network's parameters.

    A network's parameters are viewed as two nested sequences indexed like its layers:
    W[i][k] is the weight vector of unit k of layer i and B[i][k] its bias (layer 0, the input
    layer, has no parameters of its own). The activation function is a parameter `f`. */
module Evaluation {
  import opened Neurons

  type Weights = seq<seq<seq<real>>>
  type Biases = seq<seq<real>>

  /** One training example: an input vector and the target output vector. */
  datatype Example = Example(inputs: seq<real>, outputs: seq<real>)

  /** Left-to-right sum, the value of `reduce((sum, x) => sum + x)`. */
  function Sum(s: seq<real>): real {
    if |s| == 0 then 0.0 else Sum(s[..|s| - 1]) + s[|s| - 1]
  }

  /** A sum of non-negative terms is non-negative, and is zero exactly when every term is. */
  lemma {:induction false} SumOfNonNegative(s: seq<real>)
    requires forall j :: 0 <= j < |s| ==> s[j] >= 0.0
    ensures Sum(s) >= 0.0
    ensures Sum(s) == 0.0 <==> forall j :: 0 <= j < |s| ==> s[j] == 0.0
  {
    if |s| > 0 {
      SumOfNonNegative(s[..|s| - 1]);
      assert forall j :: 0 <= j < |s| - 1 ==> s[..|s| - 1][j] == s[j];
    }
  }

  /** The weighted inputs of a compute unit: previous output j times weight j. */
  function Products(weights: seq<real>, previous: seq<real>): seq<real>
    requires |weights| == |previous|
  {
    seq(|weights|, j requires 0 <= j < |weights| => previous[j] * weights[j])
  }

  /** The output of a compute unit reading the outputs `previous` of the layer before it. */
  function Fire(f: real -> real, weights: seq<real>, bias: real, previous: seq<real>): real
    requires |weights| == |previous|
  {
    f(Sum(Products(weights, previous)) + bias)
  }

  /** The shape every network has: at least the input layer, one bias per unit, and every unit
      of a compute layer carrying one weight per unit of the layer before it. */
  ghost predicate Shaped(W: Weights, B: Biases) {
    && |W| >= 1
    && |B| == |W|
    && (forall i :: 0 <= i < |W| ==> |B[i]| == |W[i]|)
    && (forall i :: 1 <= i < |W| ==> Follows(W, i))
  }

  /** Every unit of compute layer i has one weight per unit of layer i - 1. */
  ghost predicate Follows(W: Weights, i: nat)
    requires 1 <= i < |W|
  {
    forall k :: 0 <= k < |W[i]| ==> |W[i][k]| == |W[i - 1]|
  }

  /** The outputs of compute layer `i`, every unit fired on the outputs of layer i - 1. */
  function LayerOutputs(f: real -> real, W: Weights, B: Biases, i: nat, previous: seq<real>): (out: seq<real>)
    requires Shaped(W, B) && 1 <= i < |W| && |previous| == |W[i - 1]|
    ensures |out| == |W[i]|
  {
    assert Follows(W, i);
    seq(|W[i]|, k requires 0 <= k < |W[i]| => Fire(f, W[i][k], B[i][k], previous))
  }

  /** Layer i of `acts` holds, for every unit of compute layer i, the value it fires on layer i - 1.
      (Stated per layer so that the facts about layer i do not unfold into facts about layer i - 1.) */
  ghost predicate LayerFired(f: real -> real, W: Weights, B: Biases, acts: seq<seq<real>>, i: nat)
    requires Shaped(W, B) && 1 <= i < |W| && i < |acts| && |acts[i - 1]| == |W[i - 1]|
  {
    assert Follows(W, i);
    && |acts[i]| == |W[i]|
    && forall k :: 0 <= k < |W[i]| ==> acts[i][k] == Fire(f, W[i][k], B[i][k], acts[i - 1])
  }

  /** Appending layers keeps the layers already fired. */
  lemma LayerFiredExtends(f: real -> real, W: Weights, B: Biases, before: seq<seq<real>>, acts: seq<seq<real>>)
    requires Shaped(W, B) && 1 <= |before| <= |acts| <= |W| && before == acts[..|before|]
    requires forall i :: 0 <= i < |before| ==> |before[i]| == |W[i]|
    requires forall i :: 1 <= i < |before| ==> LayerFired(f, W, B, before, i)
    ensures forall i :: 1 <= i < |before| ==> LayerFired(f, W, B, acts, i)
  {
    forall i | 1 <= i < |before|
      ensures LayerFired(f, W, B, acts, i)
    {
      assert acts[i] == before[i] && acts[i - 1] == before[i - 1];
      assert LayerFired(f, W, B, before, i);
    }
  }

  /** The outputs of layers 0 .. n - 1 when the input layer holds `x`. */
  function ForwardPrefix(f: real -> real, W: Weights, B: Biases, x: seq<real>, n: nat): (acts: seq<seq<real>>)
    requires Shaped(W, B) && |x| == |W[0]| && 1 <= n <= |W|
    ensures |acts| == n && acts[0] == x
    ensures forall i :: 0 <= i < n ==> |acts[i]| == |W[i]|
    ensures forall i :: 1 <= i < n ==> LayerFired(f, W, B, acts, i)
    decreases n
  {
    if n == 1 then [x]
    else
      var before := ForwardPrefix(f, W, B, x, n - 1);
      var acts := before + [LayerOutputs(f, W, B, n - 1, before[n - 2])];
      LayerFiredExtends(f, W, B, before, acts);
      acts
  }

  /** The outputs of every layer when the input layer holds `x`. */
  function Forward(f: real -> real, W: Weights, B: Biases, x: seq<real>): seq<seq<real>>
    requires Shaped(W, B) && |x| == |W[0]|
  {
    ForwardPrefix(f, W, B, x, |W|)
  }

  /** The network's answer to `x`: the outputs of its last layer. */
  function Predict(f: real -> real, W: Weights, B: Biases, x: seq<real>): (y: seq<real>)
    requires Shaped(W, B) && |x| == |W[0]|
    ensures |y| == |W[|W| - 1]|
  {
    Forward(f, W, B, x)[|W| - 1]
  }

  /** Any assignment of layer outputs in which layer 0 holds `x` and every compute unit holds
      its fired value is the forward pass: the pass has exactly one outcome. */
  lemma {:induction false} ForwardIsUnique(f: real -> real, W: Weights, B: Biases, x: seq<real>, acts: seq<seq<real>>)
    requires Shaped(W, B) && |x| == |W[0]|
    requires |acts| == |W| && acts[0] == x
    requires forall i :: 0 <= i < |W| ==> |acts[i]| == |W[i]|
    requires forall i :: 1 <= i < |W| ==> LayerFired(f, W, B, acts, i)
    ensures acts == Forward(f, W, B, x)
  {
    var fw := Forward(f, W, B, x);
    forall i | 0 <= i < |W|
      ensures acts[i] == fw[i]
    {
      ForwardLayerAgrees(f, W, B, x, acts, i);
    }
  }

  lemma {:induction false} ForwardLayerAgrees(f: real -> real, W: Weights, B: Biases, x: seq<real>, acts: seq<seq<real>>, i: nat)
    requires Shaped(W, B) && |x| == |W[0]|
    requires |acts| == |W| && acts[0] == x
    requires forall l :: 0 <= l < |W| ==> |acts[l]| == |W[l]|
    requires forall l :: 1 <= l < |W| ==> LayerFired(f, W, B, acts, l)
    requires i < |W|
    ensures acts[i] == Forward(f, W, B, x)[i]
    decreases i
  {
    var fw := Forward(f, W, B, x);
    if i > 0 {
      ForwardLayerAgrees(f, W, B, x, acts, i - 1);
      assert LayerFired(f, W, B, acts, i) && LayerFired(f, W, B, fw, i);
    }
  }

  function Abs(x: real): real {
    if x < 0.0 then -x else x
  }

  /** The error of one example: the sum of the absolute differences between the produced outputs
      and the targets, divided by the number of targets. Targets beyond the produced outputs are
      not compared but still count in the divisor. The error is never negative, and it is zero
      exactly when every produced output equals its target. */
  function ExampleError(outputs: seq<real>, targets: seq<real>): (e: real)
    requires |outputs| <= |targets| && |targets| > 0
    ensures e >= 0.0
    ensures e == 0.0 <==> forall j :: 0 <= j < |outputs| ==> outputs[j] == targets[j]
  {
    var diffs := seq(|outputs|, j requires 0 <= j < |outputs| => Abs(outputs[j] - targets[j]));
    SumOfNonNegative(diffs);
    assert forall j :: 0 <= j < |outputs| ==> (diffs[j] == 0.0 <==> outputs[j] == targets[j]);
    Sum(diffs) / (|targets| as real)
  }

  /** An example the network can be scored on: its inputs fill the input layer exactly, and there
      is a target for every output (and at least one target). */
  ghost predicate FitsExample(W: Weights, example: Example)
    requires |W| >= 1
  {
    && |example.inputs| == |W[0]|
    && |W[|W| - 1]| <= |example.outputs|
    && |example.outputs| > 0
  }

  ghost predicate Fits(W: Weights, ideal: seq<Example>)
    requires |W| >= 1
  {
    forall n :: 0 <= n < |ideal| ==> FitsExample(W, ideal[n])
  }

  /** The aggregate error over an example set: the SUM, taken left to right, of the per-example
      errors of the network's predictions. It is never negative. */
  function AggregateError(f: real -> real, W: Weights, B: Biases, ideal: seq<Example>): (e: real)
    requires Shaped(W, B) && Fits(W, ideal)
    ensures e >= 0.0
    decreases |ideal|
  {
    if |ideal| == 0 then 0.0
    else
      var last := ideal[|ideal| - 1];
      assert FitsExample(W, last);
      AggregateError(f, W, B, ideal[..|ideal| - 1])
        + ExampleError(Predict(f, W, B, last.inputs), last.outputs)
  }

  /** Summing one more example adds that example's error to the running total. */
  lemma AggregateErrorStep(f: real -> real, W: Weights, B: Biases, ideal: seq<Example>, n: nat)
    requires Shaped(W, B) && Fits(W, ideal) && n < |ideal|
    ensures Fits(W, ideal[..n]) && Fits(W, ideal[..n + 1]) && FitsExample(W, ideal[n])
    ensures AggregateError(f, W, B, ideal[..n + 1])
            == AggregateError(f, W, B, ideal[..n]) + ExampleError(Predict(f, W, B, ideal[n].inputs), ideal[n].outputs)
  {
    assert FitsExample(W, ideal[n]);
    assert ideal[..n + 1][..n] == ideal[..n];
    assert forall m :: 0 <= m < n + 1 ==> ideal[..n + 1][m] == ideal[m];
  }

  /** The aggregate error over `ideal` as a score of weights, for the biases `B`. (Weights of
      another shape, which the trainer never produces, score 0.) */
  ghost function ErrorScore(f: real -> real, B: Biases, ideal: seq<Example>): Weights -> real {
    V => if Shaped(V, B) && Fits(V, ideal) then AggregateError(f, V, B, ideal) else 0.0
  }

  /** The weight sets at which a ScoresError fact is put to use. */
  ghost function Scored(V: Weights): Weights {
    V
  }

  /** `score` gives the aggregate error of every weight set the biases and examples fit. */
  ghost predicate ScoresError(score: Weights -> real, f: real -> real, B: Biases, ideal: seq<Example>) {
    forall V {:trigger Scored(V)} :: Shaped(V, B) && Fits(V, ideal) ==> score(V) == AggregateError(f, V, B, ideal)
  }

  /** On weights the biases and examples fit, the score is the aggregate error. */
  lemma ErrorScoreIsAggregateError(f: real -> real, B: Biases, ideal: seq<Example>, V: Weights)
    requires Shaped(V, B) && Fits(V, ideal)
    ensures ErrorScore(f, B, ideal)(V) == AggregateError(f, V, B, ideal)
  {
  }

  lemma ErrorScoreScoresError(f: real -> real, B: Biases, ideal: seq<Example>)
    ensures ScoresError(ErrorScore(f, B, ideal), f, B, ideal)
  {
  }

  /** The aggregate error is zero exactly when the network reproduces every example's targets. */
  lemma {:induction false} AggregateErrorZero(f: real -> real, W: Weights, B: Biases, ideal: seq<Example>)
    requires Shaped(W, B) && Fits(W, ideal)
    ensures AggregateError(f, W, B, ideal) == 0.0 <==>
            forall n :: 0 <= n < |ideal| ==> PredictsExactly(f, W, B, ideal[n])
    decreases |ideal|
  {
    if |ideal| > 0 {
      var prefix := ideal[..|ideal| - 1];
      AggregateErrorZero(f, W, B, prefix);
      assert forall n :: 0 <= n < |prefix| ==> prefix[n] == ideal[n];
      assert FitsExample(W, ideal[|ideal| - 1]);
    }
  }

  /** The network's prediction for the example matches every target it is compared with. */
  ghost predicate PredictsExactly(f: real -> real, W: Weights, B: Biases, example: Example)
    requires Shaped(W, B) && |W| >= 1 && FitsExample(W, example)
  {
    var y := Predict(f, W, B, example.inputs);
    forall j :: 0 <= j < |y| ==> y[j] == example.outputs[j]
  }

  /** The parameter view of a stack of layers. */
  function WeightsOf(layers: seq<seq<Neuron>>): (W: Weights)
    ensures |W| == |layers|
    ensures forall i :: 0 <= i < |layers| ==> |W[i]| == |layers[i]|
  {
    seq(|layers|, i requires 0 <= i < |layers| =>
      seq(|layers[i]|, k requires 0 <= k < |layers[i]| => layers[i][k].Weights()))
  }

  function BiasesOf(layers: seq<seq<Neuron>>): (B: Biases)
    ensures |B| == |layers|
    ensures forall i :: 0 <= i < |layers| ==> |B[i]| == |layers[i]|
  {
    seq(|layers|, i requires 0 <= i < |layers| =>
      seq(|layers[i]|, k requires 0 <= k < |layers[i]| => layers[i][k].Bias()))
  }

  /** Two stacks of layers with the same shape and the same weights and biases everywhere. */
  ghost predicate SameParameters(layers: seq<seq<Neuron>>, other: seq<seq<Neuron>>) {
    && |layers| == |other|
    && (forall i :: 0 <= i < |layers| ==> |layers[i]| == |other[i]|)
    && (forall i, k :: 0 <= i < |layers| && 0 <= k < |layers[i]| ==>
          layers[i][k].Weights() == other[i][k].Weights() && layers[i][k].Bias() == other[i][k].Bias())
  }

  lemma SameParametersView(layers: seq<seq<Neuron>>, other: seq<seq<Neuron>>)
    requires SameParameters(layers, other)
    ensures WeightsOf(layers) == WeightsOf(other) && BiasesOf(layers) == BiasesOf(other)
  {
    forall i | 0 <= i < |layers|
      ensures WeightsOf(layers)[i] == WeightsOf(other)[i] && BiasesOf(layers)[i] == BiasesOf(other)[i]
    {
    }
  }

  /** A compute unit left as a forward pass leaves it, reading the outputs `previous`. */
  ghost predicate NeuronSettled(f: real -> real, n: Neuron, previous: seq<real>) {
    && n.HiddenNeuron?
    && |n.weights| == |previous|
    && n.inputs == Products(n.weights, previous)
    && n.output == Fire(f, n.weights, n.bias, previous)
  }

  /** Every unit of compute layer i holds the value it fires on the outputs of layer i - 1. */
  ghost predicate LayerSettled(f: real -> real, layers: seq<seq<Neuron>>, i: nat)
    requires 1 <= i < |layers|
  {
    forall k :: 0 <= k < |layers[i]| ==> NeuronSettled(f, layers[i][k], Outputs(layers[i - 1]))
  }

  /** Every compute unit holds the value it fires on the outputs of the layer before it. */
  ghost predicate Settled(f: real -> real, layers: seq<seq<Neuron>>) {
    forall i :: 1 <= i < |layers| ==> LayerSettled(f, layers, i)
  }

  /** The outputs every layer of a stack currently holds. */
  function OutputsOf(layers: seq<seq<Neuron>>): (acts: seq<seq<real>>)
    ensures |acts| == |layers|
    ensures forall i :: 0 <= i < |layers| ==> acts[i] == Outputs(layers[i])
  {
    seq(|layers|, i requires 0 <= i < |layers| => Outputs(layers[i]))
  }

  lemma SettledIsShaped(f: real -> real, layers: seq<seq<Neuron>>)
    requires |layers| >= 1 && Settled(f, layers)
    ensures Shaped(WeightsOf(layers), BiasesOf(layers))
  {
    var W := WeightsOf(layers);
    forall i | 1 <= i < |W|
      ensures Follows(W, i)
    {
      assert LayerSettled(f, layers, i);
    }
  }

  lemma SettledLayerFired(f: real -> real, layers: seq<seq<Neuron>>, i: nat)
    requires |layers| >= 1 && Settled(f, layers) && 1 <= i < |layers|
    requires Shaped(WeightsOf(layers), BiasesOf(layers))
    ensures LayerFired(f, WeightsOf(layers), BiasesOf(layers), OutputsOf(layers), i)
  {
    assert LayerSettled(f, layers, i);
  }

  /** In a settled stack of layers, the outputs held by every layer are those of the forward pass
      of the stack's own parameters on the values held by its input layer. */
  lemma {:induction false} SettledIsForward(f: real -> real, layers: seq<seq<Neuron>>)
    requires |layers| >= 1 && Settled(f, layers)
    ensures Shaped(WeightsOf(layers), BiasesOf(layers))
    ensures OutputsOf(layers) == Forward(f, WeightsOf(layers), BiasesOf(layers), Outputs(layers[0]))
  {
    SettledIsShaped(f, layers);
    forall i | 1 <= i < |layers|
      ensures LayerFired(f, WeightsOf(layers), BiasesOf(layers), OutputsOf(layers), i)
    {
      SettledLayerFired(f, layers, i);
    }
    ForwardIsUnique(f, WeightsOf(layers), BiasesOf(layers), Outputs(layers[0]), OutputsOf(layers));
  }

  /** A settled stack of layers is determined by its parameters and its input values: two
      settled stacks that agree on both hold the same outputs everywhere. */
  lemma SettledIsDetermined(f: real -> real, layers: seq<seq<Neuron>>, other: seq<seq<Neuron>>)
    requires |layers| >= 1 && Settled(f, layers) && Settled(f, other)
    requires SameParameters(layers, other) && Outputs(layers[0]) == Outputs(other[0])
    ensures OutputsOf(layers) == OutputsOf(other)
  {
    SettledIsForward(f, layers);
    SettledIsForward(f, other);
    SameParametersView(layers, other);
  }
}

/** The PolyNet object: a stack of layers that is built once, evaluated in place by `Update` and
    tuned in place by `Train`.

    The state is the list of layers; each unit is a Neuron value, so writing a unit's field is
    writing a new value at that position. What `Update` and `Train` do to that state is tied to
    the pure definitions of the Evaluation and Descent modules through the parameter views
    WeightsOf and BiasesOf. */
module Network {
  import opened Neurons
  import opened Evaluation
  import opened Descent

  /** Layer 0 holds input units; every unit of a later layer is a compute unit with one weight
      per unit of the layer before it. */
  ghost predicate WellFormed(layers: seq<seq<Neuron>>) {
    && |layers| >= 1
    && (forall k :: 0 <= k < |layers[0]| ==> layers[0][k].InputNeuron?)
    && (forall i, k :: 1 <= i < |layers| && 0 <= k < |layers[i]| ==>
          layers[i][k].HiddenNeuron? && |layers[i][k].weights| == |layers[i - 1]|)
  }

  /** Every compute unit has at least one weight, so summing its weighted inputs without an
      initial value is defined. */
  ghost predicate Evaluable(layers: seq<seq<Neuron>>) {
    forall i, k :: 1 <= i < |layers| && 0 <= k < |layers[i]| ==> |layers[i][k].Weights()| > 0
  }

  /** The layer lengths a size list asks for: an empty list gives a single, empty input layer. */
  function LayerLengths(sizes: seq<nat>): (lengths: seq<nat>)
    ensures |lengths| >= 1
    ensures |sizes| > 0 ==> lengths == sizes
  {
    if |sizes| == 0 then [0] else sizes
  }

  /** The parameters of a well-formed stack of layers have the shape the forward pass needs. */
  lemma WellFormedShaped(layers: seq<seq<Neuron>>)
    requires WellFormed(layers)
    ensures Shaped(WeightsOf(layers), BiasesOf(layers))
  {
    var W := WeightsOf(layers);
    forall i | 1 <= i < |W|
      ensures Follows(W, i)
    {
      forall k | 0 <= k < |W[i]|
        ensures |W[i][k]| == |W[i - 1]|
      {
        assert W[i][k] == layers[i][k].weights;
      }
    }
  }

  /** Weight sets with the same input width and the same output width fit the same examples. */
  lemma FitsSameEnds(V: Weights, W: Weights, ideal: seq<Example>)
    requires |V| == |W| >= 1 && |V[0]| == |W[0]| && |V[|V| - 1]| == |W[|W| - 1]|
    requires Fits(W, ideal)
    ensures Fits(V, ideal)
  {
    forall n | 0 <= n < |ideal|
      ensures FitsExample(V, ideal[n])
    {
      assert FitsExample(W, ideal[n]);
    }
  }

  /** Writing weight j of unit k of layer i writes that coordinate of the parameter view and
      nothing else. */
  lemma WeightsOfWrite(layers: seq<seq<Neuron>>, i: nat, k: nat, j: nat, value: real)
    requires WellFormed(layers) && 1 <= i < |layers| && k < |layers[i]| && j < |layers[i][k].weights|
    ensures IsCoordinate(WeightsOf(layers), i, k, j)
    ensures WeightsOf(layers[i := layers[i][k := layers[i][k].(weights := layers[i][k].weights[j := value])]])
            == With(WeightsOf(layers), i, k, j, value)
    ensures BiasesOf(layers[i := layers[i][k := layers[i][k].(weights := layers[i][k].weights[j := value])]])
            == BiasesOf(layers)
  {
    var W := WeightsOf(layers);
    assert W[i][k] == layers[i][k].weights;
    var after := layers[i := layers[i][k := layers[i][k].(weights := layers[i][k].weights[j := value])]];
    var V := WeightsOf(after);
    forall l | 0 <= l < |V|
      ensures V[l] == With(W, i, k, j, value)[l]
    {
      if l == i {
        assert forall m :: 0 <= m < |V[l]| ==> V[l][m] == With(W, i, k, j, value)[l][m];
      }
    }
    forall l | 0 <= l < |after|
      ensures BiasesOf(after)[l] == BiasesOf(layers)[l]
    {
      assert forall m :: 0 <= m < |after[l]| ==> after[l][m].Bias() == layers[l][m].Bias();
    }
  }

  /** Weights of the same shape as weights that fit the biases and the examples fit them too. */
  lemma SameShapeKeepsFit(V: Weights, W: Weights, B: Biases, ideal: seq<Example>)
    requires SameShape(V, W) && Shaped(W, B) && Fits(W, ideal)
    ensures Shaped(V, B) && Fits(V, ideal)
  {
    forall i | 1 <= i < |V|
      ensures Follows(V, i)
    {
      assert Follows(W, i);
    }
    FitsSameEnds(V, W, ideal);
  }

  /** Training never increases the aggregate error over the examples it trains on. */
  lemma TrainingNeverIncreasesError(f: real -> real, W: Weights, B: Biases, ideal: seq<Example>,
                                    incr: real, iterations: nat)
    requires Shaped(W, B) && Fits(W, ideal)
    ensures var trained := Trained(ErrorScore(f, B, ideal), W, incr, iterations);
      && Shaped(trained, B) && Fits(trained, ideal)
      && AggregateError(f, trained, B, ideal) <= AggregateError(f, W, B, ideal)
  {
    var score := ErrorScore(f, B, ideal);
    var trained := Trained(score, W, incr, iterations);
    TrainedNoWorse(score, W, incr, iterations);
    SameShapeKeepsFit(trained, W, B, ideal);
    ErrorScoreIsAggregateError(f, B, ideal, W);
    ErrorScoreIsAggregateError(f, B, ideal, trained);
  }

  /** A settled layer stays settled when neither it nor the layer it reads changes. */
  lemma LayerSettledFrame(f: real -> real, layers: seq<seq<Neuron>>, other: seq<seq<Neuron>>, i: nat)
    requires 1 <= i < |layers| && i < |other|
    requires other[i] == layers[i] && other[i - 1] == layers[i - 1]
    requires LayerSettled(f, layers, i)
    ensures LayerSettled(f, other, i)
  {
  }

  class PolyNet {
    /** The activation function (the logistic function in the original). */
    const f: real -> real
    /** The layers, input layer first. */
    var layers: seq<seq<Neuron>>

    ghost predicate Valid()
      reads this
    {
      WellFormed(layers)
    }

    /** A network with one layer per entry of `sizes`: the first entry is the number of inputs,
        each later entry the number of units of a compute layer. */
    constructor (f: real -> real, sizes: seq<nat>)
      ensures this.f == f
      ensures Valid()
      ensures |layers| == |LayerLengths(sizes)|
      ensures forall i :: 0 <= i < |layers| ==> |layers[i]| == LayerLengths(sizes)[i]
      ensures forall k :: 0 <= k < |layers[0]| ==> layers[0][k] == InputNeuron(0.0)
      ensures forall i, k :: 1 <= i < |layers| && 0 <= k < |layers[i]| ==> Initial(layers[i][k], |layers[i - 1]|)
    {
      this.f := f;
      layers := [];
      new;
      CreateLayers(sizes);
    }

    /** Replaces the layers with an input layer of `sizes[0]` units holding 0 (no units for an
        empty list) followed by one freshly initialised compute layer per later entry. */
    method CreateLayers(sizes: seq<nat>)
      modifies this
      ensures Valid()
      ensures |layers| == |LayerLengths(sizes)|
      ensures forall i :: 0 <= i < |layers| ==> |layers[i]| == LayerLengths(sizes)[i]
      ensures forall k :: 0 <= k < |layers[0]| ==> layers[0][k] == InputNeuron(0.0)
      ensures forall i, k :: 1 <= i < |layers| && 0 <= k < |layers[i]| ==> Initial(layers[i][k], |layers[i - 1]|)
    {
      var lengths := LayerLengths(sizes);
      var inputLayerLength := if |sizes| == 0 then 0 else sizes[0];
      var hiddenLayerLengths := if |sizes| == 0 then [] else sizes[1..];
      layers := [];
      var inputLayer := NewInputLayer(inputLayerLength);
      layers := layers + [inputLayer];
      for i := 0 to |hiddenLayerLengths|
        invariant |layers| == i + 1 && layers[0] == inputLayer
        invariant forall l :: 0 <= l <= i ==> |layers[l]| == lengths[l]
        invariant forall l, k :: 1 <= l <= i && 0 <= k < |layers[l]| ==> Initial(layers[l][k], |layers[l - 1]|)
      {
        var layer := NewHiddenLayer(hiddenLayerLengths[i], sizes[i]);
        layers := layers + [layer];
      }
    }

    /** Writes `inputs` into the first input units; the other input units keep their values. */
    method WriteInputs(inputs: seq<real>)
      requires Valid() && |inputs| <= |layers[0]|
      modifies this
      ensures Valid() && SameParameters(layers, old(layers))
      ensures forall l :: 1 <= l < |layers| ==> layers[l] == old(layers)[l]
      ensures Outputs(layers[0]) == inputs + old(Outputs(layers[0]))[|inputs|..]
    {
      ghost var start := layers;
      for i := 0 to |inputs|
        invariant WellFormed(layers) && |layers| == |start| && |layers[0]| == |start[0]|
        invariant forall l :: 1 <= l < |layers| ==> layers[l] == start[l]
        invariant forall m :: 0 <= m < |layers[0]| ==>
                    layers[0][m] == if m < i then InputNeuron(inputs[m]) else start[0][m]
      {
        layers := layers[0 := layers[0][i := layers[0][i].(input := inputs[i])]];
      }
      assert Outputs(layers[0]) == inputs + Outputs(start[0])[|inputs|..];
    }

    /** Recomputes every unit of compute layer i from the current outputs of layer i - 1: its
        weighted inputs, and its output as the activation of their sum plus the bias. */
    method UpdateLayer(i: nat)
      requires Valid() && Evaluable(layers) && 1 <= i < |layers|
      modifies this
      ensures Valid() && SameParameters(layers, old(layers))
      ensures forall l :: 0 <= l < |layers| && l != i ==> layers[l] == old(layers)[l]
      ensures LayerSettled(f, layers, i)
    {
      var previousLayer := layers[i - 1];
      ghost var before := layers;
      for k := 0 to |layers[i]|
        invariant WellFormed(layers) && |layers| == |before|
        invariant SameParameters(layers, before)
        invariant forall l :: 0 <= l < |layers| && l != i ==> layers[l] == before[l]
        invariant |layers[i]| == |before[i]|
        invariant forall m :: 0 <= m < k ==> NeuronSettled(f, layers[i][m], Outputs(previousLayer))
      {
        var neuron := layers[i][k];
        neuron := neuron.(inputs := Products(neuron.weights, Outputs(previousLayer)));
        neuron := neuron.(output := f(Sum(neuron.inputs) + neuron.bias));
        layers := layers[i := layers[i][k := neuron]];
      }
    }

    /** Writes `inputs` into the first input units (the others keep their values), then
        recomputes every compute layer in order and returns the last layer's outputs. Weights
        and biases do not change; afterwards every unit holds what it fires on the layer before
        it, and the result is the forward pass of the parameters on the input values. */
    method Update(inputs: seq<real>) returns (outputs: seq<real>)
      requires Valid() && Evaluable(layers) && |inputs| <= |layers[0]|
      modifies this
      ensures Valid() && Evaluable(layers)
      ensures SameParameters(layers, old(layers))
      ensures Outputs(layers[0]) == inputs + old(Outputs(layers[0]))[|inputs|..]
      ensures Settled(f, layers)
      ensures outputs == Outputs(layers[|layers| - 1])
      ensures Shaped(WeightsOf(layers), BiasesOf(layers))
      ensures outputs == Predict(f, WeightsOf(layers), BiasesOf(layers), Outputs(layers[0]))
    {
      ghost var start := layers;
      WriteInputs(inputs);
      ghost var written := layers;
      for i := 1 to |layers|
        invariant WellFormed(layers) && Evaluable(layers) && |layers| == |start|
        invariant SameParameters(layers, start)
        invariant layers[0] == written[0]
        invariant forall l :: 1 <= l < i ==> LayerSettled(f, layers, l)
      {
        ghost var before := layers;
        UpdateLayer(i);
        forall l | 1 <= l < i {
          LayerSettledFrame(f, before, layers, l);
        }
      }
      outputs := Outputs(layers[|layers| - 1]);
      SettledIsForward(f, layers);
    }

    /** The aggregate error over `ideal`: evaluates the network on each example in order and sums
        the per-example errors. Weights and biases do not change. */
    method MeasureError(ideal: seq<Example>) returns (error: real)
      requires Valid() && Evaluable(layers) && Fits(WeightsOf(layers), ideal)
      modifies this
      ensures Valid() && Evaluable(layers)
      ensures SameParameters(layers, old(layers))
      ensures Shaped(WeightsOf(layers), BiasesOf(layers))
      ensures error == AggregateError(f, WeightsOf(layers), BiasesOf(layers), ideal)
    {
      ghost var start := layers;
      ghost var W, B := WeightsOf(layers), BiasesOf(layers);
      WellFormedShaped(layers);
      error := 0.0;
      for n := 0 to |ideal|
        invariant WellFormed(layers) && Evaluable(layers) && SameParameters(layers, start)
        invariant WeightsOf(layers) == W && BiasesOf(layers) == B
        invariant Shaped(W, B) && Fits(W, ideal[..n])
        invariant error == AggregateError(f, W, B, ideal[..n])
      {
        AggregateErrorStep(f, W, B, ideal, n);
        var exampleError := MeasureExample(ideal[n]);
        error := error + exampleError;
      }
      assert ideal[..|ideal|] == ideal;
    }

    /** The error on one example: evaluates the network on its inputs and compares the outputs
        with its targets. Weights and biases do not change. */
    method MeasureExample(example: Example) returns (error: real)
      requires Valid() && Evaluable(layers) && FitsExample(WeightsOf(layers), example)
      modifies this
      ensures Valid() && Evaluable(layers)
      ensures SameParameters(layers, old(layers))
      ensures WeightsOf(layers) == WeightsOf(old(layers)) && BiasesOf(layers) == BiasesOf(old(layers))
      ensures Shaped(WeightsOf(layers), BiasesOf(layers))
      ensures error == ExampleError(Predict(f, WeightsOf(layers), BiasesOf(layers), example.inputs), example.outputs)
    {
      ghost var previous := layers;
      var outputs := Update(example.inputs);
      assert Outputs(layers[0]) == example.inputs by {
        assert |example.inputs| == |previous[0]|;
      }
      SameParametersView(layers, previous);
      error := ExampleError(outputs, example.outputs);
    }

    /** Sets weight j of unit k of compute layer i. */
    method SetWeight(i: nat, k: nat, j: nat, value: real)
      requires Valid() && 1 <= i < |layers| && k < |layers[i]| && j < |layers[i][k].weights|
      modifies this
      ensures layers == old(layers)[i := old(layers)[i][k := old(layers)[i][k].(weights := old(layers)[i][k].weights[j := value])]]
      ensures Valid() && (Evaluable(old(layers)) ==> Evaluable(layers))
      ensures IsCoordinate(WeightsOf(old(layers)), i, k, j)
      ensures WeightsOf(layers) == With(WeightsOf(old(layers)), i, k, j, value)
      ensures BiasesOf(layers) == BiasesOf(old(layers))
    {
      WeightsOfWrite(layers, i, k, j, value);
      layers := layers[i := layers[i][k := layers[i][k].(weights := layers[i][k].weights[j := value])]];
    }

    /** Places `value` at weight j of unit k of layer i and scores the network on `ideal` with
        it in place. */
    method TryCandidate(ideal: seq<Example>, i: nat, k: nat, j: nat, value: real, ghost score: Weights -> real)
      returns (error: real)
      requires Valid() && Evaluable(layers) && Fits(WeightsOf(layers), ideal)
      requires IsCoordinate(WeightsOf(layers), i, k, j)
      requires ScoresError(score, f, BiasesOf(layers), ideal)
      modifies this
      ensures Valid() && Evaluable(layers)
      ensures BiasesOf(layers) == BiasesOf(old(layers))
      ensures IsCoordinate(WeightsOf(old(layers)), i, k, j)
      ensures WeightsOf(layers) == With(WeightsOf(old(layers)), i, k, j, value)
      ensures Fits(WeightsOf(layers), ideal)
      ensures error == score(WeightsOf(layers))
    {
      ghost var W := WeightsOf(layers);
      assert W[i][k] == layers[i][k].weights;
      SetWeight(i, k, j, value);
      FitsSameEnds(WeightsOf(layers), W, ideal);
      ghost var placed := layers;
      error := MeasureError(ideal);
      SameParametersView(layers, placed);
      assert Scored(WeightsOf(layers)) == WeightsOf(layers);
    }

    /** Tries each candidate value in turn at weight j of unit k of layer i, collecting the
        errors. The weight is left at the last candidate. */
    method ScoreCandidates(ideal: seq<Example>, i: nat, k: nat, j: nat, candidates: seq<real>, ghost score: Weights -> real)
      returns (errors: seq<real>)
      requires Valid() && Evaluable(layers) && Fits(WeightsOf(layers), ideal)
      requires IsCoordinate(WeightsOf(layers), i, k, j)
      requires ScoresError(score, f, BiasesOf(layers), ideal)
      modifies this
      ensures Valid() && Evaluable(layers)
      ensures BiasesOf(layers) == BiasesOf(old(layers))
      ensures IsCoordinate(WeightsOf(old(layers)), i, k, j)
      ensures errors == CandidateErrors(score, WeightsOf(old(layers)), i, k, j, candidates)
      ensures WeightsOf(layers) == if |candidates| == 0 then WeightsOf(old(layers))
                                   else With(WeightsOf(old(layers)), i, k, j, candidates[|candidates| - 1])
    {
      ghost var W, B := WeightsOf(layers), BiasesOf(layers);
      errors := [];
      for c := 0 to |candidates|
        invariant WellFormed(layers) && Evaluable(layers) && BiasesOf(layers) == B
        invariant Fits(WeightsOf(layers), ideal) && IsCoordinate(WeightsOf(layers), i, k, j)
        invariant WeightsOf(layers) == if c == 0 then W else With(W, i, k, j, candidates[c - 1])
        invariant errors == CandidateErrors(score, W, i, k, j, candidates[..c])
      {
        var error := TryCandidate(ideal, i, k, j, candidates[c], score);
        if c > 0 {
          WithTwice(W, i, k, j, candidates[c - 1], candidates[c]);
        }
        CandidateErrorsSnoc(score, W, i, k, j, candidates, c);
        errors := errors + [error];
      }
      assert candidates[..|candidates|] == candidates;
    }

    /** One coordinate step on weight j of unit k of layer i: scores the current value, the
        value plus `incr` and the value minus `incr`, and keeps the first one with the smallest
        error. */
    method TuneWeight(ideal: seq<Example>, incr: real, i: nat, k: nat, j: nat, ghost score: Weights -> real)
      requires Valid() && Evaluable(layers) && Fits(WeightsOf(layers), ideal)
      requires IsCoordinate(WeightsOf(layers), i, k, j)
      requires ScoresError(score, f, BiasesOf(layers), ideal)
      modifies this
      ensures Valid() && Evaluable(layers) && Fits(WeightsOf(layers), ideal)
      ensures BiasesOf(layers) == BiasesOf(old(layers))
      ensures WeightsOf(layers) == StepWeight(score, WeightsOf(old(layers)), incr, i, k, j)
    {
      ghost var W := WeightsOf(layers);
      assert W[i][k] == layers[i][k].weights;
      var w := layers[i][k].weights[j];
      var weights := [w, w + incr, w - incr];
      assert weights == Candidates(W[i][k][j], incr);
      var errors := ScoreCandidates(ideal, i, k, j, weights, score);
      var best := IndexOf(errors, Min(errors));
      assert IsFirstMinimum(errors, best) by {
        assert best == FirstMinimum(errors);
      }
      StepKeepsFirstBestCandidate(score, W, incr, i, k, j, best);
      assert WeightsOf(layers)[i][k] == layers[i][k].weights;
      SetWeight(i, k, j, weights[best]);
      WithTwice(W, i, k, j, weights[2], weights[best]);
      FitsSameEnds(WeightsOf(layers), W, ideal);
    }

    /** Tunes the first `n` weights of unit k of layer i, in index order. */
    method TuneNeuronWeights(ideal: seq<Example>, incr: real, i: nat, k: nat, n: nat, ghost score: Weights -> real)
      requires Valid() && Evaluable(layers) && Fits(WeightsOf(layers), ideal)
      requires 1 <= i < |layers| && k < |layers[i]| && n <= |layers[i][k].Weights()|
      requires ScoresError(score, f, BiasesOf(layers), ideal)
      modifies this
      ensures Valid() && Evaluable(layers) && Fits(WeightsOf(layers), ideal)
      ensures BiasesOf(layers) == BiasesOf(old(layers))
      ensures WeightsOf(layers) == TuneNeuron(score, WeightsOf(old(layers)), incr, i, k, n)
    {
      ghost var W, B := WeightsOf(layers), BiasesOf(layers);
      assert W[i][k] == layers[i][k].Weights();
      for j := 0 to n
        invariant WellFormed(layers) && Evaluable(layers) && BiasesOf(layers) == B
        invariant Fits(WeightsOf(layers), ideal)
        invariant WeightsOf(layers) == TuneNeuron(score, W, incr, i, k, j)
      {
        TuneWeight(ideal, incr, i, k, j, score);
      }
    }

    /** Tunes units 0 .. n - 1 of layer i, in order, each on all its weights. */
    method TuneLayerUnits(ideal: seq<Example>, incr: real, i: nat, n: nat, ghost score: Weights -> real)
      requires Valid() && Evaluable(layers) && Fits(WeightsOf(layers), ideal)
      requires 1 <= i < |layers| && n <= |layers[i]|
      requires ScoresError(score, f, BiasesOf(layers), ideal)
      modifies this
      ensures Valid() && Evaluable(layers) && Fits(WeightsOf(layers), ideal)
      ensures BiasesOf(layers) == BiasesOf(old(layers))
      ensures WeightsOf(layers) == TuneLayer(score, WeightsOf(old(layers)), incr, i, n)
    {
      ghost var W, B := WeightsOf(layers), BiasesOf(layers);
      for k := 0 to n
        invariant WellFormed(layers) && Evaluable(layers) && BiasesOf(layers) == B
        invariant Fits(WeightsOf(layers), ideal)
        invariant WeightsOf(layers) == TuneLayer(score, W, incr, i, k)
      {
        ghost var before := WeightsOf(layers);
        assert before[i][k] == layers[i][k].Weights();
        TuneNeuronWeights(ideal, incr, i, k, |layers[i][k].Weights()|, score);
      }
    }

    /** Tunes compute layers 1 .. n - 1, in order, each on all its units. */
    method TuneLayers(ideal: seq<Example>, incr: real, n: nat, ghost score: Weights -> real)
      requires Valid() && Evaluable(layers) && Fits(WeightsOf(layers), ideal)
      requires 1 <= n <= |layers|
      requires ScoresError(score, f, BiasesOf(layers), ideal)
      modifies this
      ensures Valid() && Evaluable(layers) && Fits(WeightsOf(layers), ideal)
      ensures BiasesOf(layers) == BiasesOf(old(layers))
      ensures WeightsOf(layers) == TunePass(score, WeightsOf(old(layers)), incr, n)
    {
      ghost var W, B := WeightsOf(layers), BiasesOf(layers);
      for i := 1 to n
        invariant WellFormed(layers) && Evaluable(layers) && BiasesOf(layers) == B
        invariant Fits(WeightsOf(layers), ideal)
        invariant WeightsOf(layers) == TunePass(score, W, incr, i)
      {
        TuneLayerUnits(ideal, incr, i, |layers[i]|, score);
      }
    }

    /** Runs `iterations` passes of coordinate descent over every weight of every compute unit,
        layer by layer and unit by unit, scoring on `ideal`. The weights end up as the pure
        Trained function gives them, and the biases are untouched. */
    method Train(ideal: seq<Example>, incr: real, iterations: nat)
      requires Valid() && Evaluable(layers) && Fits(WeightsOf(layers), ideal)
      modifies this
      ensures Valid() && Evaluable(layers)
      ensures BiasesOf(layers) == BiasesOf(old(layers))
      ensures WeightsOf(layers)
              == Trained(ErrorScore(f, BiasesOf(old(layers)), ideal), WeightsOf(old(layers)), incr, iterations)
      ensures iterations == 0 ==> layers == old(layers)
    {
      ghost var W, B := WeightsOf(layers), BiasesOf(layers);
      ghost var score := ErrorScore(f, B, ideal);
      ErrorScoreScoresError(f, B, ideal);
      for a := 0 to iterations
        invariant WellFormed(layers) && Evaluable(layers) && BiasesOf(layers) == B
        invariant Fits(WeightsOf(layers), ideal)
        invariant WeightsOf(layers) == Trained(score, W, incr, a)
        invariant a == 0 ==> layers == old(layers)
      {
        TuneLayers(ideal, incr, |layers|, score);
      }
    }

    /** Two updates with the same inputs and nothing in between return the same outputs, even
        when the inputs are shorter than the input layer (the second write finds the first one's
        values in place). */
    method RepeatedUpdate(inputs: seq<real>) returns (first: seq<real>, second: seq<real>)
      requires Valid() && Evaluable(layers) && |inputs| <= |layers[0]|
      modifies this
      ensures Valid() && SameParameters(layers, old(layers))
      ensures first == second
    {
      first := Update(inputs);
      ghost var between := layers;
      second := Update(inputs);
      assert Outputs(layers[0]) == Outputs(between[0]);
      SettledIsDetermined(f, layers, between);
    }
  }
}

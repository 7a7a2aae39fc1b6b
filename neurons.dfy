/** The two kinds of unit a PolyNet is built from, and how a fresh compute unit is initialised. */
module Neurons {

  /** A unit of the network. Layer 0 holds InputNeurons, which only store the value written into
      them; every later layer holds HiddenNeurons, with one weight per unit of the preceding layer,
      a bias, the weighted inputs of the last evaluation and the output of the last evaluation. */
  datatype Neuron =
    | InputNeuron(input: real)
    | HiddenNeuron(weights: seq<real>, bias: real, inputs: seq<real>, output: real)
  {
    /** The value the next layer reads: an input unit passes its stored input through. */
    function Output(): real {
      if InputNeuron? then input else output
    }

    /** The trainable weights (an input unit has none). */
    function Weights(): seq<real> {
      if HiddenNeuron? then weights else []
    }

    /** The bias (an input unit has none; 0 stands in for it). */
    function Bias(): real {
      if HiddenNeuron? then bias else 0.0
    }
  }

  /** The outputs of a layer, in unit order. */
  function Outputs(layer: seq<Neuron>): (values: seq<real>)
    ensures |values| == |layer|
  {
    seq(|layer|, k requires 0 <= k < |layer| => layer[k].Output())
  }

  /** A freshly constructed compute unit: weights and bias drawn from [0, 1), nothing cached yet. */
  ghost predicate Initial(n: Neuron, previousLayerLength: nat) {
    && n.HiddenNeuron?
    && |n.weights| == previousLayerLength
    && (forall j :: 0 <= j < |n.weights| ==> 0.0 <= n.weights[j] < 1.0)
    && 0.0 <= n.bias < 1.0
    && n.inputs == []
    && n.output == 0.0
  }

  /** Builds a compute unit for a layer that follows a layer of `previousLayerLength` units.
      Each weight and the bias is an arbitrary value in [0, 1), the range of the random draws. */
  method NewHiddenNeuron(previousLayerLength: nat) returns (n: Neuron)
    ensures Initial(n, previousLayerLength)
  {
    var weights: seq<real> := [];
    for i := 0 to previousLayerLength
      invariant |weights| == i
      invariant forall j :: 0 <= j < i ==> 0.0 <= weights[j] < 1.0
    {
      var w: real :| 0.0 <= w < 1.0;
      weights := weights + [w];
    }
    var bias: real :| 0.0 <= bias < 1.0;
    n := HiddenNeuron(weights, bias, [], 0.0);
  }

  /** A compute layer of `length` fresh units, each with one weight per unit of the preceding layer. */
  method NewHiddenLayer(length: nat, previousLayerLength: nat) returns (layer: seq<Neuron>)
    ensures |layer| == length
    ensures forall k :: 0 <= k < |layer| ==> Initial(layer[k], previousLayerLength)
  {
    layer := [];
    for k := 0 to length
      invariant |layer| == k
      invariant forall m :: 0 <= m < k ==> Initial(layer[m], previousLayerLength)
    {
      var n := NewHiddenNeuron(previousLayerLength);
      layer := layer + [n];
    }
  }

  /** The input layer of `length` units, each holding 0. */
  function NewInputLayer(length: nat): (layer: seq<Neuron>)
    ensures |layer| == length
    ensures forall k :: 0 <= k < length ==> layer[k] == InputNeuron(0.0)
  {
    seq(length, _ => InputNeuron(0.0))
  }
}

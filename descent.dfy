/** Gradient-free coordinate descent on the weights, as pure functions of the parameters.

    One step looks at a single weight: it scores the three candidates (current value, value plus
    the increment, value minus the increment) and keeps the first candidate with the smallest
    score. A unit's weights are visited in index order, a layer's units in order, the compute
    layers from first to last, and the whole pass is repeated once per iteration; every step sees
    the weights the earlier steps left. Biases are not part of the search.

    The score of a parameter set is a parameter `score`; the trainer uses the aggregate error of
    the example set (Evaluation.ErrorScore). Because the score is a function of the weights, a
    retained candidate scores, once in place, exactly what it scored while it was being tried. */
module Descent {
  import opened Evaluation

  /** The smallest value of a non-empty list, as `Math.min(...s)` gives it. */
  function Min(s: seq<real>): (m: real)
    requires |s| > 0
    ensures m in s
    ensures forall c :: 0 <= c < |s| ==> m <= s[c]
  {
    if |s| == 1 then s[0]
    else
      var rest := Min(s[1..]);
      assert forall c :: 1 <= c < |s| ==> s[c] == s[1..][c - 1];
      if s[0] <= rest then s[0] else rest
  }

  /** The position of the first occurrence of `v`, as `s.indexOf(v)` gives it for a present value. */
  function IndexOf(s: seq<real>, v: real): (c: nat)
    requires v in s
    ensures c < |s| && s[c] == v
    ensures forall m :: 0 <= m < c ==> s[m] != v
  {
    if s[0] == v then 0
    else
      assert v in s[1..];
      1 + IndexOf(s[1..], v)
  }

  /** `c` is the first position holding the smallest value of `errors`. */
  ghost predicate IsFirstMinimum(errors: seq<real>, c: nat) {
    && c < |errors|
    && (forall m :: 0 <= m < |errors| ==> errors[c] <= errors[m])
    && (forall m :: 0 <= m < c ==> errors[m] > errors[c])
  }

  /** The index of the first minimum, as `errors.indexOf(Math.min(...errors))` computes it. */
  function FirstMinimum(errors: seq<real>): (c: nat)
    requires |errors| > 0
    ensures IsFirstMinimum(errors, c)
  {
    IndexOf(errors, Min(errors))
  }

  /** The first minimum is unique, so any position with both properties is the one chosen. */
  lemma FirstMinimumIsUnique(errors: seq<real>, c: nat, d: nat)
    requires IsFirstMinimum(errors, c) && IsFirstMinimum(errors, d)
    ensures c == d
  {
    assert errors[c] <= errors[d] && errors[d] <= errors[c];
  }

  /** Weight j of unit k of compute layer i exists. */
  ghost predicate IsCoordinate(W: Weights, i: nat, k: nat, j: nat) {
    1 <= i < |W| && k < |W[i]| && j < |W[i][k]|
  }

  /** The parameters with weight (i, k, j) set to `value`. */
  function With(W: Weights, i: nat, k: nat, j: nat, value: real): Weights
    requires IsCoordinate(W, i, k, j)
  {
    W[i := W[i][k := W[i][k][j := value]]]
  }

  /** Writing a weight's own value back changes nothing. */
  lemma WithOwnValue(W: Weights, i: nat, k: nat, j: nat)
    requires IsCoordinate(W, i, k, j)
    ensures With(W, i, k, j, W[i][k][j]) == W
  {
    assert W[i][k][j := W[i][k][j]] == W[i][k];
    assert W[i][k := W[i][k]] == W[i];
  }

  /** Of two writes to the same weight, the later one wins. */
  lemma WithTwice(W: Weights, i: nat, k: nat, j: nat, first: real, second: real)
    requires IsCoordinate(W, i, k, j)
    ensures With(With(W, i, k, j, first), i, k, j, second) == With(W, i, k, j, second)
  {
    var V := With(W, i, k, j, first);
    assert V[i][k][j := second] == W[i][k][j := second];
    assert V[i][k := W[i][k][j := second]] == W[i][k := W[i][k][j := second]];
  }

  /** Two parameter sets with the same number of layers, units per layer and weights per unit. */
  ghost predicate SameShape(V: Weights, W: Weights) {
    && |V| == |W|
    && (forall i :: 0 <= i < |W| ==> |V[i]| == |W[i]|)
    && (forall i, k :: 0 <= i < |W| && 0 <= k < |W[i]| ==> |V[i][k]| == |W[i][k]|)
  }

  /** The three values tried for a weight `w`, in the order that decides ties. */
  function Candidates(w: real, incr: real): seq<real> {
    [w, w + incr, w - incr]
  }

  /** The score of each candidate value placed at weight (i, k, j). */
  function CandidateErrors(score: Weights -> real, W: Weights, i: nat, k: nat, j: nat,
                           candidates: seq<real>): (errors: seq<real>)
    requires IsCoordinate(W, i, k, j)
    ensures |errors| == |candidates|
  {
    seq(|candidates|, c requires 0 <= c < |candidates| => score(With(W, i, k, j, candidates[c])))
  }

  /** Scoring one more candidate appends its score. */
  lemma CandidateErrorsSnoc(score: Weights -> real, W: Weights, i: nat, k: nat, j: nat,
                            candidates: seq<real>, n: nat)
    requires IsCoordinate(W, i, k, j) && n < |candidates|
    ensures CandidateErrors(score, W, i, k, j, candidates[..n + 1])
            == CandidateErrors(score, W, i, k, j, candidates[..n]) + [score(With(W, i, k, j, candidates[n]))]
  {
  }

  /** One coordinate step on weight (i, k, j), as a reference rule: with e0, e1, e2 the scores
      of the current value, the value plus `incr` and the value minus `incr`, the current value
      stays unless one of the others scores strictly lower; among those, plus wins unless minus
      scores strictly lower still. */
  function StepWeight(score: Weights -> real, W: Weights, incr: real, i: nat, k: nat, j: nat): (r: Weights)
    requires IsCoordinate(W, i, k, j)
    ensures SameShape(r, W) && IsCoordinate(r, i, k, j)
  {
    var w := W[i][k][j];
    var e0 := score(W);
    var e1 := score(With(W, i, k, j, w + incr));
    var e2 := score(With(W, i, k, j, w - incr));
    if e0 <= e1 && e0 <= e2 then W
    else if e1 <= e2 then With(W, i, k, j, w + incr)
    else With(W, i, k, j, w - incr)
  }

  /** The step keeps the candidate at the first position of the smallest score, in the order
      current, plus, minus, which is what picking `indexOf(min(errors))` among the three does;
      the network then scores exactly that smallest score. */
  lemma StepKeepsFirstBestCandidate(score: Weights -> real, W: Weights, incr: real, i: nat, k: nat, j: nat, c: nat)
    requires IsCoordinate(W, i, k, j)
    requires IsFirstMinimum(CandidateErrors(score, W, i, k, j, Candidates(W[i][k][j], incr)), c)
    ensures StepWeight(score, W, incr, i, k, j) == With(W, i, k, j, Candidates(W[i][k][j], incr)[c])
    ensures score(StepWeight(score, W, incr, i, k, j))
            == CandidateErrors(score, W, i, k, j, Candidates(W[i][k][j], incr))[c]
  {
    var w := W[i][k][j];
    var errors := CandidateErrors(score, W, i, k, j, Candidates(w, incr));
    WithOwnValue(W, i, k, j);
    assert errors[0] == score(W);
    assert errors[1] == score(With(W, i, k, j, w + incr));
    assert errors[2] == score(With(W, i, k, j, w - incr));
    if c == 0 {
      assert errors[0] <= errors[1] && errors[0] <= errors[2];
    } else if c == 1 {
      assert errors[0] > errors[1] && errors[1] <= errors[2];
    } else {
      assert errors[0] > errors[2] && errors[1] > errors[2];
    }
  }

  /** The step moves at most weight (i, k, j), and only to one of its three candidates. */
  lemma StepMovesOneWeight(score: Weights -> real, W: Weights, incr: real, i: nat, k: nat, j: nat)
    requires IsCoordinate(W, i, k, j)
    ensures var r := StepWeight(score, W, incr, i, k, j);
      r == With(W, i, k, j, r[i][k][j]) && r[i][k][j] in Candidates(W[i][k][j], incr)
  {
    WithOwnValue(W, i, k, j);
  }

  /** The step never increases the score: the current value is a candidate, and a different
      one is kept only when it scores strictly lower. */
  lemma StepNoWorse(score: Weights -> real, W: Weights, incr: real, i: nat, k: nat, j: nat)
    requires IsCoordinate(W, i, k, j)
    ensures score(StepWeight(score, W, incr, i, k, j)) <= score(W)
  {
  }

  /** When neither perturbation scores strictly lower than the current value, the weight stays;
      in particular it stays when all three candidates score the same. */
  lemma StepKeepsWeightOnTie(score: Weights -> real, W: Weights, incr: real, i: nat, k: nat, j: nat)
    requires IsCoordinate(W, i, k, j)
    requires score(With(W, i, k, j, W[i][k][j] + incr)) >= score(W)
    requires score(With(W, i, k, j, W[i][k][j] - incr)) >= score(W)
    ensures StepWeight(score, W, incr, i, k, j) == W
  {
  }

  /** Steps on weights 0 .. n - 1 of unit k of layer i, in index order. */
  function TuneNeuron(score: Weights -> real, W: Weights, incr: real, i: nat, k: nat, n: nat): (r: Weights)
    requires 1 <= i < |W| && k < |W[i]| && n <= |W[i][k]|
    ensures SameShape(r, W)
    decreases n
  {
    if n == 0 then W
    else StepWeight(score, TuneNeuron(score, W, incr, i, k, n - 1), incr, i, k, n - 1)
  }

  /** Tuning a unit moves only that unit's weights and never increases the score. */
  lemma {:induction false} TuneNeuronNoWorse(score: Weights -> real, W: Weights, incr: real, i: nat, k: nat, n: nat)
    requires 1 <= i < |W| && k < |W[i]| && n <= |W[i][k]|
    ensures var r := TuneNeuron(score, W, incr, i, k, n);
      && (forall l :: 0 <= l < |W| && l != i ==> r[l] == W[l])
      && (forall m :: 0 <= m < |W[i]| && m != k ==> r[i][m] == W[i][m])
      && score(r) <= score(W)
    decreases n
  {
    if n > 0 {
      var before := TuneNeuron(score, W, incr, i, k, n - 1);
      TuneNeuronNoWorse(score, W, incr, i, k, n - 1);
      StepMovesOneWeight(score, before, incr, i, k, n - 1);
      StepNoWorse(score, before, incr, i, k, n - 1);
    }
  }

  /** Tunes units 0 .. n - 1 of layer i, in order, each on all its weights. */
  function TuneLayer(score: Weights -> real, W: Weights, incr: real, i: nat, n: nat): (r: Weights)
    requires 1 <= i < |W| && n <= |W[i]|
    ensures SameShape(r, W)
    decreases n
  {
    if n == 0 then W
    else
      var before := TuneLayer(score, W, incr, i, n - 1);
      TuneNeuron(score, before, incr, i, n - 1, |before[i][n - 1]|)
  }

  /** Tuning a layer moves only that layer and never increases the score. */
  lemma {:induction false} TuneLayerNoWorse(score: Weights -> real, W: Weights, incr: real, i: nat, n: nat)
    requires 1 <= i < |W| && n <= |W[i]|
    ensures var r := TuneLayer(score, W, incr, i, n);
      && (forall l :: 0 <= l < |W| && l != i ==> r[l] == W[l])
      && score(r) <= score(W)
    decreases n
  {
    if n > 0 {
      var before := TuneLayer(score, W, incr, i, n - 1);
      TuneLayerNoWorse(score, W, incr, i, n - 1);
      TuneNeuronNoWorse(score, before, incr, i, n - 1, |before[i][n - 1]|);
    }
  }

  /** Tunes compute layers 1 .. n - 1, in order. */
  function TunePass(score: Weights -> real, W: Weights, incr: real, n: nat): (r: Weights)
    requires n <= |W|
    ensures SameShape(r, W)
    decreases n
  {
    if n <= 1 then W
    else
      var before := TunePass(score, W, incr, n - 1);
      TuneLayer(score, before, incr, n - 1, |before[n - 1]|)
  }

  /** A pass over layers 1 .. n - 1 leaves the input layer and the later layers alone and never
      increases the score. */
  lemma {:induction false} TunePassNoWorse(score: Weights -> real, W: Weights, incr: real, n: nat)
    requires n <= |W|
    ensures var r := TunePass(score, W, incr, n);
      && (forall l :: 0 <= l < |W| && (l == 0 || n <= l) ==> r[l] == W[l])
      && score(r) <= score(W)
    decreases n
  {
    if n > 1 {
      var before := TunePass(score, W, incr, n - 1);
      TunePassNoWorse(score, W, incr, n - 1);
      TuneLayerNoWorse(score, before, incr, n - 1, |before[n - 1]|);
    }
  }

  /** The weights after `iterations` full passes. */
  function Trained(score: Weights -> real, W: Weights, incr: real, iterations: nat): (r: Weights)
    ensures SameShape(r, W)
    decreases iterations
  {
    if iterations == 0 then W
    else
      var before := Trained(score, W, incr, iterations - 1);
      TunePass(score, before, incr, |before|)
  }

  /** Training keeps the input layer (it has no weights to move) and never increases the score. */
  lemma {:induction false} TrainedNoWorse(score: Weights -> real, W: Weights, incr: real, iterations: nat)
    ensures var r := Trained(score, W, incr, iterations);
      && (|W| > 0 ==> r[0] == W[0])
      && score(r) <= score(W)
    decreases iterations
  {
    if iterations > 0 {
      var before := Trained(score, W, incr, iterations - 1);
      TrainedNoWorse(score, W, incr, iterations - 1);
      TunePassNoWorse(score, before, incr, |before|);
    }
  }

  /** Training longer never scores worse than training shorter. */
  lemma {:induction false} MoreIterationsNoWorse(score: Weights -> real, W: Weights, incr: real, fewer: nat, more: nat)
    requires fewer <= more
    ensures score(Trained(score, W, incr, more)) <= score(Trained(score, W, incr, fewer))
    decreases more
  {
    if fewer < more {
      MoreIterationsNoWorse(score, W, incr, fewer, more - 1);
      var before := Trained(score, W, incr, more - 1);
      TunePassNoWorse(score, before, incr, |before|);
    }
  }
}

/** The network and its trainer (`WordAnalysisLevel`): an encoder followed
    by `LAYERS` layers, the forward pass, backpropagation over a worker's
    examples, and the batch step that splits the examples among workers
    and applies the averaged update to the live layers. */
module Networks {
  import opened Matrices
  import opened Wrappers
  import opened Layers
  import opened Partitioning
  import opened Backprop
  import opened Batch

  /** The number of layers. */
  const LAYERS: nat := 3

  /** The matrix form of `atanDeriverate`: every entry `x` becomes
      `1 / (1 + x^2)`, which lies in (0, 1]. */
  method AtanDeriverate(x: Matrix) returns (y: Matrix)
    requires x.Valid()
    ensures y == Derivative(x)
    ensures forall i, j :: 0 <= i < y.rows && 0 <= j < y.cols ==> 0.0 < y.At(i, j) <= 1.0
  {
    y := x;
    for i := 0 to x.rows
      invariant SameShape(y, x)
      invariant forall r, c :: 0 <= r < x.rows && 0 <= c < x.cols ==>
                  y.At(r, c) == if r < i then AtanDerivative(x.At(r, c)) else x.At(r, c)
    {
      for j := 0 to x.cols
        invariant SameShape(y, x)
        invariant forall r, c :: 0 <= r < x.rows && 0 <= c < x.cols ==>
                    y.At(r, c) == if r < i || (r == i && c < j) then AtanDerivative(x.At(r, c)) else x.At(r, c)
      {
        y := Set(y, i, j, AtanDerivative(y.At(i, j)));
      }
    }
    Ext(y, Derivative(x));
  }

  /** The parameter shapes the network is built with. */
  ghost predicate Topology(ps: seq<Connections>, h: nat, sizes: seq<nat>) {
    |ps| == |sizes| &&
    forall k :: 0 <= k < |ps| ==>
      HasShape(ps[k].weights, sizes[k], FanIn(ps, h, k)) && HasShape(ps[k].bias, sizes[k], 1)
  }

  lemma TopologyChain(ps: seq<Connections>, h: nat, sizes: seq<nat>)
    requires Topology(ps, h, sizes)
    ensures Chain(ps, h) && ParamsValid(ps)
  {
    forall k | 0 <= k < |ps|
      ensures Link(ps, h, k)
    {
      if k > 0 {
        assert ps[k - 1].weights.rows == sizes[k - 1];
      }
    }
  }

  /** Runs `layer`, which holds the parameters of layer `k` of `ps`, on its
      input: `x` for the first layer, the output of layer `k - 1` otherwise. */
  method Forward(layer: Layer, previousOutput: Matrix, ghost ps: seq<Connections>, ghost x: Matrix,
                 act: real -> real, ghost k: nat)
    requires Feeds(ps, x) && k < |ps|
    requires layer.Valid() && layer.weights == ps[k].weights && layer.bias == ps[k].bias
    requires previousOutput == In(ps, x, act, k)
    modifies layer
    ensures layer.Valid() && layer.weights == ps[k].weights && layer.bias == ps[k].bias
    ensures layer.weightedInput == Some(Weighted(ps, x, act, k))
    ensures layer.output == Out(ps, x, act, k)
  {
    assert Link(ps, x.rows, k);
    layer.ComputeOutput(previousOutput, act);
  }

  /** The weight and bias sums once the layers from `from` up have added
      their contributions for one example to `sums`. */
  ghost predicate Added(ps: seq<Connections>, x: Matrix, target: Matrix, act: real -> real, sums: Grads, from: nat,
                        weightsGradients: seq<Matrix>, biasesGradients: seq<Matrix>)
    requires Fits(ps, x, target) && GradsFit(sums, ps) && from <= |ps|
  {
    |weightsGradients| == |ps| && |biasesGradients| == |ps| &&
    (forall k :: 0 <= k < from ==> weightsGradients[k] == sums.weights[k] && biasesGradients[k] == sums.biases[k]) &&
    (forall k :: from <= k < |ps| ==>
       weightsGradients[k] == Add(sums.weights[k], WeightGradient(ps, x, target, act, k)) &&
       biasesGradients[k] == Add(sums.biases[k], Delta(ps, x, target, act, k)))
  }

  /** The last layer's delta is the output error times the derivative at
      its weighted input, and the cost is the sum of the squared errors. */
  lemma OutputDelta(ps: seq<Connections>, x: Matrix, target: Matrix, act: real -> real)
    requires Fits(ps, x, target)
    ensures Delta(ps, x, target, act, |ps| - 1) ==
            Hadamard(Sub(Out(ps, x, act, |ps| - 1), target), Derivative(Weighted(ps, x, act, |ps| - 1)))
    ensures Cost(ps, x, target, act) ==
            Sum(Hadamard(Sub(Out(ps, x, act, |ps| - 1), target), Sub(Out(ps, x, act, |ps| - 1), target)))
  {
  }

  /** Layer `k` adding its weight gradient and its delta extends `Added`
      down to `k`. */
  lemma AddedStep(ps: seq<Connections>, x: Matrix, target: Matrix, act: real -> real, sums: Grads, k: nat,
                  weightsGradients: seq<Matrix>, biasesGradients: seq<Matrix>)
    requires Fits(ps, x, target) && GradsFit(sums, ps) && k < |ps|
    requires Added(ps, x, target, act, sums, k + 1, weightsGradients, biasesGradients)
    ensures Added(ps, x, target, act, sums, k,
                  weightsGradients[k := Add(weightsGradients[k], WeightGradient(ps, x, target, act, k))],
                  biasesGradients[k := Add(biasesGradients[k], Delta(ps, x, target, act, k))])
  {
  }

  /** Once every layer has added its part, the sums are `sums` plus the
      example's contribution. */
  lemma AddedComplete(ps: seq<Connections>, x: Matrix, target: Matrix, act: real -> real, sums: Grads,
                      weightsGradients: seq<Matrix>, biasesGradients: seq<Matrix>)
    requires Fits(ps, x, target) && GradsFit(sums, ps)
    requires Added(ps, x, target, act, sums, 0, weightsGradients, biasesGradients)
    ensures Grads(weightsGradients, biasesGradients, sums.cost + Cost(ps, x, target, act)) ==
            AddGrads(ps, sums, Contribution(ps, x, target, act))
  {
  }

  /** `q` is `p` moved by `step` times `t`, entry by entry. */
  ghost predicate Stepped(p: Matrix, t: Matrix, step: real, q: Matrix)
    requires SameShape(p, t)
  {
    HasShape(q, p.rows, p.cols) &&
    forall j, i :: 0 <= j < p.rows && 0 <= i < p.cols ==> q.At(j, i) == p.At(j, i) + step * t.At(j, i)
  }

  /** The parameters after one gradient step: every weight and bias moves by
      `step` times the matching entry of `total`. */
  function Update(ps: seq<Connections>, total: Grads, step: real): (qs: seq<Connections>)
    requires GradsFit(total, ps)
    ensures |qs| == |ps|
    ensures forall k :: 0 <= k < |ps| ==>
              Stepped(ps[k].weights, total.weights[k], step, qs[k].weights) &&
              Stepped(ps[k].bias, total.biases[k], step, qs[k].bias)
  {
    seq(|ps|, k requires 0 <= k < |ps| =>
      Connections(Add(ps[k].weights, Scale(step, total.weights[k])), Add(ps[k].bias, Scale(step, total.biases[k]))))
  }

  /** A step keeps the shapes the network was built with. */
  lemma UpdateKeepsTopology(ps: seq<Connections>, total: Grads, step: real, h: nat, sizes: seq<nat>)
    requires GradsFit(total, ps) && Topology(ps, h, sizes)
    ensures Topology(Update(ps, total, step), h, sizes)
  {
  }

  /** Every cached output `outs[k]` has the shape of the bias `ps[k]`. */
  ghost predicate OutputsFit(ps: seq<Connections>, outs: seq<Matrix>) {
    |outs| == |ps| && forall k :: 0 <= k < |ps| ==> SameShape(outs[k], ps[k].bias)
  }

  /** Parameters of the shapes the network is built with may be replaced by
      any of the same shapes. */
  lemma RandomKeepsTopology(ps: seq<Connections>, qs: seq<Connections>, h: nat, sizes: seq<nat>)
    requires Topology(ps, h, sizes) && |qs| == |ps|
    requires forall k :: 0 <= k < |ps| ==> SameShape(qs[k].weights, ps[k].weights) && SameShape(qs[k].bias, ps[k].bias)
    ensures Topology(qs, h, sizes)
  {
  }

  /** A step of length zero changes nothing. */
  lemma UpdateByZeroStep(ps: seq<Connections>, total: Grads)
    requires GradsFit(total, ps)
    ensures Update(ps, total, 0.0) == ps
  {
    var qs := Update(ps, total, 0.0);
    forall k | 0 <= k < |ps|
      ensures qs[k] == ps[k]
    {
      Ext(qs[k].weights, ps[k].weights);
      Ext(qs[k].bias, ps[k].bias);
    }
  }

  /** A step along zero sums changes nothing. */
  lemma UpdateByZeroSums(ps: seq<Connections>, step: real)
    requires ParamsValid(ps)
    ensures Update(ps, ZeroGrads(ps), step) == ps
  {
    var qs := Update(ps, ZeroGrads(ps), step);
    forall k | 0 <= k < |ps|
      ensures qs[k] == ps[k]
    {
      Ext(qs[k].weights, ps[k].weights);
      Ext(qs[k].bias, ps[k].bias);
    }
  }

  lemma QuotientNonNegative(a: real, d: real)
    requires a >= 0.0 && d > 0.0
    ensures a / d >= 0.0
  {
  }


  /** The workers' weight sums for layer `k`, added up in worker order
      starting from a zero matrix of the layer's weight shape. */
  method WeightsTotal(ghost ps: seq<Connections>, sums: seq<Grads>, k: nat, rows: nat, cols: nat)
    returns (total: Matrix)
    requires ParamsValid(ps) && k < |ps| && forall g :: g in sums ==> GradsFit(g, ps)
    requires rows == ps[k].weights.rows && cols == ps[k].weights.cols
    ensures total == Reduce(ps, ZeroGrads(ps), sums).weights[k]
  {
    total := Zeros(rows, cols);
    for i := 0 to |sums|
      invariant total == Reduce(ps, ZeroGrads(ps), sums[..i]).weights[k]
    {
      PrefixStep(sums, i);
      assert sums[i] in sums;
      total := Add(total, sums[i].weights[k]);
    }
    TakeAll(sums);
  }

  /** The workers' bias sums for layer `k`, added up in worker order
      starting from a zero matrix of the layer's output shape. */
  method BiasesTotal(ghost ps: seq<Connections>, sums: seq<Grads>, k: nat, rows: nat, cols: nat)
    returns (total: Matrix)
    requires ParamsValid(ps) && k < |ps| && forall g :: g in sums ==> GradsFit(g, ps)
    requires rows == ps[k].bias.rows && cols == ps[k].bias.cols
    ensures total == Reduce(ps, ZeroGrads(ps), sums).biases[k]
  {
    total := Zeros(rows, cols);
    for i := 0 to |sums|
      invariant total == Reduce(ps, ZeroGrads(ps), sums[..i]).biases[k]
    {
      PrefixStep(sums, i);
      assert sums[i] in sums;
      total := Add(total, sums[i].biases[k]);
    }
    TakeAll(sums);
  }

  class Network {
    /** The activation, `atan(x) / (pi / 2)` in the code. */
    const act: real -> real
    /** The encoder: an encoded word to a column of height `inputHeight`. */
    const encode: seq<int> -> Matrix
    const inputHeight: nat
    /** The neuron counts of the layers. */
    const sizes: seq<nat>
    /** The encoder's cached output. */
    var encoderOutput: Matrix
    /** The layers, first to last; which objects they are never changes. */
    const layers: seq<Layer>

    ghost predicate Valid()
      reads this, layers
    {
      |layers| == LAYERS && |sizes| == LAYERS &&
      (forall i, j :: 0 <= i < j < |layers| ==> layers[i] != layers[j]) &&
      (forall k :: 0 <= k < |layers| ==> layers[k].Valid()) &&
      HasShape(encoderOutput, inputHeight, 1)
    }

    /** The layers' (weights, bias) pairs, first layer first. */
    function Params(): (ps: seq<Connections>)
      reads layers
      ensures |ps| == |layers|
      ensures forall k :: 0 <= k < |layers| ==> ps[k] == Connections(layers[k].weights, layers[k].bias)
    {
      seq(|layers|, k requires 0 <= k < |layers| reads layers => Connections(layers[k].weights, layers[k].bias))
    }

    /** Valid, with every layer of the shape it was built with and every
        cached output a column of the layer's height. */
    ghost predicate Shaped()
      reads this, layers
    {
      Valid() && Topology(Params(), inputHeight, sizes) &&
      forall k :: 0 <= k < LAYERS ==> HasShape(layers[k].output, sizes[k], 1)
    }

    /** Every layer's weights are all ones. */
    ghost predicate AllOnes()
      reads this, layers
      requires |layers| == LAYERS && |sizes| == LAYERS
    {
      layers[0].weights == Constant(sizes[0], inputHeight, 1.0) &&
      layers[1].weights == Constant(sizes[1], sizes[0], 1.0) &&
      layers[2].weights == Constant(sizes[2], sizes[1], 1.0)
    }

    /** Three layers of `sizes[0]`, `sizes[1]` and `sizes[2]` neurons, each
        with all-ones weights. */
    constructor (act: real -> real, encode: seq<int> -> Matrix, inputHeight: nat, sizes: seq<nat>)
      requires |sizes| == LAYERS
      ensures Shaped()
      ensures this.act == act && this.encode == encode && this.inputHeight == inputHeight && this.sizes == sizes
      ensures forall k :: 0 <= k < LAYERS ==> fresh(layers[k]) && layers[k].weightedInput == None
      ensures AllOnes()
    {
      this.act := act;
      this.encode := encode;
      this.inputHeight := inputHeight;
      this.sizes := sizes;
      encoderOutput := Zeros(inputHeight, 1);
      var first := new Layer(sizes[0], inputHeight);
      var second := new Layer(sizes[1], sizes[0]);
      var last := new Layer(sizes[2], sizes[1]);
      layers := [first, second, last];
      new;
    }

    /** A copy with its own layers, each a copy of the matching layer. */
    constructor Copy(other: Network)
      requires other.Valid()
      ensures Valid()
      ensures act == other.act && encode == other.encode && inputHeight == other.inputHeight && sizes == other.sizes
      ensures encoderOutput == other.encoderOutput && Params() == other.Params()
      ensures forall k :: 0 <= k < LAYERS ==>
                fresh(layers[k]) && layers[k].output == other.layers[k].output && layers[k].weightedInput == None
      ensures other.Shaped() ==> Shaped()
    {
      act := other.act;
      encode := other.encode;
      inputHeight := other.inputHeight;
      sizes := other.sizes;
      encoderOutput := other.encoderOutput;
      ghost var ps := other.Params();
      ghost var topology := other.Shaped() && Topology(ps, other.inputHeight, other.sizes);
      var first := new Layer.Copy(other.layers[0]);
      var second := new Layer.Copy(other.layers[1]);
      var last := new Layer.Copy(other.layers[2]);
      layers := [first, second, last];
      new;
      assert Params() == ps;
      assert topology ==> Topology(Params(), inputHeight, sizes);
    }

    /** Every layer holds the parameters `ps` and an output column of its
        height. */
    ghost predicate Holds(ps: seq<Connections>)
      reads layers
    {
      |layers| == LAYERS && |sizes| == LAYERS && |ps| == LAYERS &&
      forall k :: 0 <= k < LAYERS ==>
        layers[k].Valid() && layers[k].weights == ps[k].weights && layers[k].bias == ps[k].bias &&
        HasShape(layers[k].output, sizes[k], 1)
    }

    /** The first `i` layers cache what the forward pass from `x` computes. */
    ghost predicate Cached(ps: seq<Connections>, x: Matrix, i: nat)
      requires Feeds(ps, x) && i <= |ps| && |layers| == |ps|
      reads layers
    {
      forall k :: 0 <= k < i ==>
        layers[k].weightedInput == Some(Weighted(ps, x, act, k)) && layers[k].output == Out(ps, x, act, k)
    }

    /** Runs layer `i` on the encoder output if it is the first layer, on
        the output of layer `i - 1` otherwise. */
    method Step(ghost ps: seq<Connections>, ghost x: Matrix, i: nat)
      requires Valid() && Topology(ps, inputHeight, sizes) && Feeds(ps, x) && i < LAYERS
      requires Holds(ps) && Cached(ps, x, i) && encoderOutput == x
      modifies layers[i]
      ensures Holds(ps) && Cached(ps, x, i + 1)
    {
      var input := if i == 0 then encoderOutput else layers[i - 1].output;
      Forward(layers[i], input, ps, x, act, i);
    }

    /** The forward pass (`analyzeWord`): the encoder output feeds the first
        layer, each layer's output feeds the next, and the last layer's
        output is returned. Parameters stay as they were. */
    method AnalyzeWord(encodedWord: seq<int>) returns (output: Matrix)
      requires Shaped() && HasShape(encode(encodedWord), inputHeight, 1)
      modifies this, layers
      ensures Shaped() && Params() == old(Params())
      ensures encoderOutput == encode(encodedWord)
      ensures Feeds(Params(), encoderOutput) && Holds(Params())
      ensures Cached(Params(), encoderOutput, LAYERS)
      ensures output == Out(Params(), encoderOutput, act, LAYERS - 1)
    {
      encoderOutput := encode(encodedWord);
      ghost var ps := Params();
      ghost var x := encoderOutput;
      TopologyChain(ps, inputHeight, sizes);
      for i := 0 to LAYERS
        invariant Valid() && encoderOutput == x && Holds(ps) && Cached(ps, x, i)
      {
        Step(ps, x, i);
      }
      assert Params() == ps;
      output := layers[LAYERS - 1].output;
    }

    /** The caches hold the forward pass from `x` with parameters `ps`, and
        `target` fits the output. */
    ghost predicate Ready(ps: seq<Connections>, x: Matrix, target: Matrix)
      reads this, layers
    {
      Valid() && Fits(ps, x, target) && Holds(ps) && Cached(ps, x, LAYERS) && encoderOutput == x
    }

    lemma ReadyShaped(ps: seq<Connections>, x: Matrix, target: Matrix)
      requires Ready(ps, x, target) && Topology(ps, inputHeight, sizes)
      ensures Shaped() && Params() == ps
    {
      assert Params() == ps;
    }

    /** One step of the backward pass, at layer `k`: adds `delta *
        previousOutputᵀ` to the layer's weight sum and `delta` to its bias
        sum, then, below the first layer, carries `delta` back through the
        layer's transposed weights times the derivative at the weighted
        input of the layer below. */
    method BackStep(ghost ps: seq<Connections>, ghost x: Matrix, target: Matrix, sums: Grads, k: nat,
                    delta: Matrix, weightsGradients: seq<Matrix>, biasesGradients: seq<Matrix>)
      returns (delta': Matrix, weightsGradients': seq<Matrix>, biasesGradients': seq<Matrix>)
      requires Ready(ps, x, target)
      requires GradsFit(sums, ps) && k < LAYERS
      requires delta == Delta(ps, x, target, act, k)
      requires Added(ps, x, target, act, sums, k + 1, weightsGradients, biasesGradients)
      ensures Ready(ps, x, target)
      ensures Added(ps, x, target, act, sums, k, weightsGradients', biasesGradients')
      ensures k > 0 ==> delta' == Delta(ps, x, target, act, k - 1)
    {
      var prevLevelOutput := if k == 0 then encoderOutput else layers[k - 1].output;
      assert prevLevelOutput == In(ps, x, act, k);
      var weightsGradient := Mul(delta, Transpose(prevLevelOutput));
      assert weightsGradient == WeightGradient(ps, x, target, act, k);
      AddedStep(ps, x, target, act, sums, k, weightsGradients, biasesGradients);
      weightsGradients' := weightsGradients[k := Add(weightsGradients[k], weightsGradient)];
      biasesGradients' := biasesGradients[k := Add(biasesGradients[k], delta)];
      delta' := delta;
      if k > 0 {
        delta' := Mul(Transpose(layers[k].weights), delta);
        var inputGradient := AtanDeriverate(layers[k - 1].weightedInput.value);
        delta' := Hadamard(delta', inputGradient);
        assert delta' == Delta(ps, x, target, act, k - 1);
      }
    }

    /** The output error `output - target` times the derivative at the last
        layer's weighted input, and the sum of the squared errors. */
    method OutputError(ghost ps: seq<Connections>, ghost x: Matrix, output: Matrix, target: Matrix)
      returns (delta: Matrix, cost: real)
      requires Ready(ps, x, target) && output == Out(ps, x, act, LAYERS - 1)
      ensures Ready(ps, x, target)
      ensures delta == Delta(ps, x, target, act, LAYERS - 1) && cost == Cost(ps, x, target, act)
    {
      var gradient := Sub(output, target);
      var input := AtanDeriverate(layers[LAYERS - 1].weightedInput.value);
      delta := Hadamard(gradient, input);
      cost := Sum(Hadamard(gradient, gradient));
      OutputDelta(ps, x, target, act);
    }

    /** The backward pass for one example (the body of the example loop of
        `calculateGradients` after the forward pass): starting from the
        output error times the derivative at the last layer's weighted
        input, takes a `BackStep` at every layer from the last to the
        first; the cost sum grows by the squared error. Nothing is
        changed. */
    method Backward(ghost ps: seq<Connections>, ghost x: Matrix, output: Matrix, target: Matrix, sums: Grads)
      returns (result: Grads)
      requires Ready(ps, x, target)
      requires output == Out(ps, x, act, LAYERS - 1)
      requires GradsFit(sums, ps)
      ensures Ready(ps, x, target)
      ensures result == AddGrads(ps, sums, Contribution(ps, x, target, act))
    {
      var delta, cost := OutputError(ps, x, output, target);
      var totalCost := sums.cost + cost;
      var weightsGradients := sums.weights;
      var biasesGradients := sums.biases;
      for i := 0 to LAYERS
        invariant Ready(ps, x, target)
        invariant i < LAYERS ==> delta == Delta(ps, x, target, act, LAYERS - 1 - i)
        invariant Added(ps, x, target, act, sums, LAYERS - i, weightsGradients, biasesGradients)
      {
        delta, weightsGradients, biasesGradients :=
          BackStep(ps, x, target, sums, LAYERS - 1 - i, delta, weightsGradients, biasesGradients);
      }
      AddedComplete(ps, x, target, act, sums, weightsGradients, biasesGradients);
      result := Grads(weightsGradients, biasesGradients, totalCost);
    }

    /** One example of a worker's loop: the forward pass on its word, then
        the backward pass against its target, adding the example's
        contribution to `sums`. The parameters stay as they were. */
    method AddExample(ghost ps: seq<Connections>, example: Example, sums: Grads) returns (result: Grads)
      requires Shaped() && Params() == ps
      requires Fits(ps, encode(example.word), example.target) && GradsFit(sums, ps)
      modifies this, layers
      ensures Shaped() && Params() == ps
      ensures encoderOutput == encode(example.word) && Cached(ps, encoderOutput, LAYERS)
      ensures result == AddGrads(ps, sums, Contribution(ps, encode(example.word), example.target, act))
    {
      ghost var x := encode(example.word);
      assert Link(ps, x.rows, 0);
      var output := AnalyzeWord(example.word);
      result := Backward(ps, x, output, example.target, sums);
      ReadyShaped(ps, x, example.target);
    }

    /** One worker (`calculateGradients`): on a copy of `network`, runs every
        example forward and then backward, adding its contribution to
        `sums`; the result is the sums over all examples, in order. The
        network itself is not changed. */
    static method CalculateGradients(network: Network, trainingExamples: seq<Example>, sums: Grads)
      returns (result: Grads)
      requires network.Shaped()
      requires ExamplesFit(network.Params(), network.encode, trainingExamples)
      requires GradsFit(sums, network.Params())
      ensures result == Accumulate(old(network.Params()), network.act, network.encode, sums, trainingExamples)
    {
      var localCopy := new Network.Copy(network);
      result := localCopy.AddExamples(network.Params(), trainingExamples, sums);
    }

    /** The example loop of a worker: adds the contributions of `examples`,
        in order, to `sums`. */
    method AddExamples(ghost ps: seq<Connections>, examples: seq<Example>, sums: Grads) returns (result: Grads)
      requires Shaped() && Params() == ps
      requires ExamplesFit(ps, encode, examples) && GradsFit(sums, ps)
      modifies this, layers
      ensures Shaped() && Params() == ps
      ensures examples != [] ==>
                encoderOutput == encode(examples[|examples| - 1].word) && Cached(ps, encoderOutput, LAYERS)
      ensures examples == [] ==>
                encoderOutput == old(encoderOutput) &&
                forall k :: 0 <= k < LAYERS ==>
                  layers[k].output == old(layers[k].output) && layers[k].weightedInput == old(layers[k].weightedInput)
      ensures result == Accumulate(ps, act, encode, sums, examples)
    {
      result := sums;
      for e := 0 to |examples|
        invariant Shaped() && Params() == ps
        invariant result == Accumulate(ps, act, encode, sums, examples[..e])
        invariant e > 0 ==> encoderOutput == encode(examples[e - 1].word) && Cached(ps, encoderOutput, LAYERS)
        invariant e == 0 ==>
                    encoderOutput == old(encoderOutput) &&
                    forall k :: 0 <= k < LAYERS ==>
                      layers[k].output == old(layers[k].output) && layers[k].weightedInput == old(layers[k].weightedInput)
      {
        assert examples[e] in examples;
        result := AddExample(ps, examples[e], result);
        PrefixStep(examples, e);
        AccumulateLast(ps, act, encode, sums, examples[..e + 1]);
      }
      TakeAll(examples);
    }

    /** Imports the given (weights, bias) pairs into the first
        `|connections|` layers, whatever their shapes; the other layers and
        every cached output stay as they were. */
    method InitKnownConnections(connections: seq<Connections>)
      requires Valid() && |connections| <= LAYERS
      requires forall k :: 0 <= k < |connections| ==> connections[k].weights.Valid() && connections[k].bias.Valid()
      modifies layers
      ensures Valid()
      ensures Params() == connections + old(Params())[|connections|..]
      ensures forall k :: 0 <= k < LAYERS ==>
                layers[k].output == old(layers[k].output) && layers[k].weightedInput == old(layers[k].weightedInput)
    {
      ghost var ps := Params();
      for i := 0 to |connections|
        invariant Valid()
        invariant forall k :: 0 <= k < LAYERS ==>
                    layers[k].weights == (if k < i then connections[k] else ps[k]).weights &&
                    layers[k].bias == (if k < i then connections[k] else ps[k]).bias
        invariant forall k :: 0 <= k < LAYERS ==>
                    layers[k].output == old(layers[k].output) && layers[k].weightedInput == old(layers[k].weightedInput)
      {
        layers[i].InitKnownConnections(connections[i]);
      }
    }

    /** Exports every layer's (weights, bias) pair, first layer first;
        changes nothing. */
    method GetKnownConnections() returns (ret: seq<Connections>)
      requires Valid()
      ensures ret == Params()
    {
      ret := [];
      for i := 0 to LAYERS
        invariant ret == Params()[..i]
      {
        var c := layers[i].GetKnownConnections();
        ret := ret + [c];
      }
      TakeAll(Params());
    }

    /** Importing what was just exported changes no parameter and no cache. */
    method ExportThenImport()
      requires Valid()
      modifies layers
      ensures Valid() && Params() == old(Params())
      ensures forall k :: 0 <= k < LAYERS ==>
                layers[k].output == old(layers[k].output) && layers[k].weightedInput == old(layers[k].weightedInput)
    {
      var connections := GetKnownConnections();
      InitKnownConnections(connections);
      assert connections + old(Params())[LAYERS..] == connections;
    }

    /** Replaces every layer's parameters with values of the same shapes;
        the random draw happens outside the model and is passed in. */
    method InitRandomConnections(random: seq<Connections>)
      requires Shaped() && |random| == LAYERS
      requires forall k :: 0 <= k < LAYERS ==>
                 SameShape(random[k].weights, layers[k].weights) && SameShape(random[k].bias, layers[k].bias)
      modifies layers
      ensures Shaped() && Params() == random
      ensures forall k :: 0 <= k < LAYERS ==>
                layers[k].output == old(layers[k].output) && layers[k].weightedInput == old(layers[k].weightedInput)
    {
      ghost var ps := Params();
      ghost var outs := [layers[0].output, layers[1].output, layers[2].output];
      ghost var wis := [layers[0].weightedInput, layers[1].weightedInput, layers[2].weightedInput];
      for i := 0 to LAYERS
        invariant Valid() && Moved(ps, random, i, i) && Kept(outs, wis)
      {
        InitLayer(ps, random, i, outs, wis);
      }
      RandomKeepsTopology(ps, random, inputHeight, sizes);
      assert Params() == random;
    }

    /** Gives layer `i` the random parameters `random[i]`. */
    method InitLayer(ghost ps: seq<Connections>, random: seq<Connections>, i: nat,
                     ghost outs: seq<Matrix>, ghost wis: seq<Option<Matrix>>)
      requires Valid() && i < LAYERS && Moved(ps, random, i, i) && Kept(outs, wis)
      requires SameShape(random[i].weights, ps[i].weights) && SameShape(random[i].bias, ps[i].bias)
      modifies layers[i]
      ensures Moved(ps, random, i + 1, i + 1) && Kept(outs, wis)
    {
      layers[i].InitRandomConnections(random[i].weights, random[i].bias);
    }

    /** The zero sums every worker starts from, of the shapes the layers
        are built with (the encoder's output height for the first layer). */
    function ZeroSums(): Grads
      requires |sizes| == LAYERS
    {
      Grads([Zeros(sizes[0], inputHeight), Zeros(sizes[1], sizes[0]), Zeros(sizes[2], sizes[1])],
            [Zeros(sizes[0], 1), Zeros(sizes[1], 1), Zeros(sizes[2], 1)], 0.0)
    }

    /** For parameters of the built shapes, these are the zero sums. */
    lemma ZeroSumsAreZero(ps: seq<Connections>)
      requires |sizes| == LAYERS && Topology(ps, inputHeight, sizes)
      ensures ParamsValid(ps) && ZeroSums() == ZeroGrads(ps)
    {
      assert ps[0].weights.cols == inputHeight && ps[1].weights.cols == sizes[0] && ps[2].weights.cols == sizes[1];
      assert ZeroSums().weights == ZeroGrads(ps).weights;
      assert ZeroSums().biases == ZeroGrads(ps).biases;
    }

    /** Built as it was, holding `ps`, with the caches `outs` and `wis`. */
    ghost predicate Steady(ps: seq<Connections>, outs: seq<Matrix>, wis: seq<Option<Matrix>>)
      reads this, layers
    {
      Shaped() && Params() == ps && Kept(outs, wis)
    }

    /** Runs one worker on `slice` from `zero`; the network is not changed. */
    method RunWorker(ghost ps: seq<Connections>, slice: seq<Example>, zero: Grads,
                     ghost outs: seq<Matrix>, ghost wis: seq<Option<Matrix>>) returns (threadSums: Grads)
      requires Steady(ps, outs, wis) && GradsFit(zero, ps)
      requires ExamplesFit(ps, encode, slice)
      ensures Steady(ps, outs, wis)
      ensures threadSums == Accumulate(ps, act, encode, zero, slice)
    {
      threadSums := CalculateGradients(this, slice, zero);
    }

    /** Runs one worker per slice, each on its own copy of the network and
        from `zero`; worker `i`'s result is the sums over slice `i`. The
        network is not changed. */
    method RunWorkers(ghost ps: seq<Connections>, slices: seq<seq<Example>>, zero: Grads,
                      ghost outs: seq<Matrix>, ghost wis: seq<Option<Matrix>>) returns (sums: seq<Grads>)
      requires Steady(ps, outs, wis) && GradsFit(zero, ps)
      requires forall i :: 0 <= i < |slices| ==> ExamplesFit(ps, encode, slices[i])
      ensures Steady(ps, outs, wis)
      ensures sums == SliceSums(ps, act, encode, zero, slices)
    {
      sums := [];
      for i := 0 to |slices|
        invariant Steady(ps, outs, wis)
        invariant |sums| == i && sums == SliceSums(ps, act, encode, zero, slices)[..i]
      {
        var threadSums := RunWorker(ps, slices[i], zero, outs, wis);
        SliceSumsStep(ps, act, encode, zero, slices, sums, threadSums);
        sums := sums + [threadSums];
      }
      TakeAll(SliceSums(ps, act, encode, zero, slices));
    }

    /** The layers below `w` hold the weights of `qs` and the others those
        of `ps`; likewise the biases below `b`. */
    ghost predicate Moved(ps: seq<Connections>, qs: seq<Connections>, w: nat, b: nat)
      reads layers
    {
      |layers| == LAYERS && |ps| == LAYERS && |qs| == LAYERS &&
      forall k :: 0 <= k < LAYERS ==>
        layers[k].Valid() &&
        layers[k].weights == (if k < w then qs[k] else ps[k]).weights &&
        layers[k].bias == (if k < b then qs[k] else ps[k]).bias
    }

    /** Every layer's cached output and weighted input are `outs[k]` and
        `wis[k]`. */
    ghost predicate Kept(outs: seq<Matrix>, wis: seq<Option<Matrix>>)
      reads layers
    {
      |layers| == LAYERS && |outs| == LAYERS && |wis| == LAYERS &&
      forall k :: 0 <= k < LAYERS ==> layers[k].output == outs[k] && layers[k].weightedInput == wis[k]
    }

    /** Adds `step` times the workers' weight sums for layer `i` to its
        weights. */
    method ApplyWeights(ghost ps: seq<Connections>, ghost qs: seq<Connections>, sums: seq<Grads>, step: real, i: nat,
                        ghost outs: seq<Matrix>, ghost wis: seq<Option<Matrix>>)
      requires Valid() && i < LAYERS && Moved(ps, qs, i, 0)
      requires ParamsValid(ps) && forall g :: g in sums ==> GradsFit(g, ps)
      requires qs == Update(ps, Reduce(ps, ZeroGrads(ps), sums), step)
      requires Kept(outs, wis)
      modifies layers[i]
      ensures Moved(ps, qs, i + 1, 0)
      ensures Kept(outs, wis)
    {
      var total := WeightsTotal(ps, sums, i, layers[i].weights.rows, layers[i].weights.cols);
      total := Scale(step, total);
      layers[i].AdjustConnections(total);
      assert layers[i].weights == qs[i].weights && layers[i].bias == ps[i].bias;
    }

    /** Adds `step` times the workers' bias sums for layer `i` to its bias;
        the sum starts from a zero matrix of the layer's output shape. */
    method ApplyBiases(ghost ps: seq<Connections>, ghost qs: seq<Connections>, sums: seq<Grads>, step: real, i: nat,
                        ghost outs: seq<Matrix>, ghost wis: seq<Option<Matrix>>)
      requires Valid() && i < LAYERS && Moved(ps, qs, LAYERS, i)
      requires Kept(outs, wis) && OutputsFit(ps, outs)
      requires ParamsValid(ps) && forall g :: g in sums ==> GradsFit(g, ps)
      requires qs == Update(ps, Reduce(ps, ZeroGrads(ps), sums), step)
      modifies layers[i]
      ensures Moved(ps, qs, LAYERS, i + 1)
      ensures Kept(outs, wis)
    {
      var total := BiasesTotal(ps, sums, i, layers[i].output.rows, layers[i].output.cols);
      total := Scale(step, total);
      assert qs[i].bias == Add(ps[i].bias, total);
      layers[i].AdjustBiases(total);
      assert layers[i].bias == qs[i].bias && layers[i].weights == qs[i].weights;
    }

    /** The workers' costs added up in worker order; nothing is changed. */
    method TotalCost(ghost ps: seq<Connections>, sums: seq<Grads>, ghost outs: seq<Matrix>, ghost wis: seq<Option<Matrix>>)
      returns (totalCost: real)
      requires Steady(ps, outs, wis) && ParamsValid(ps) && forall g :: g in sums ==> GradsFit(g, ps)
      ensures Steady(ps, outs, wis)
      ensures totalCost == Reduce(ps, ZeroGrads(ps), sums).cost
    {
      totalCost := 0.0;
      for i := 0 to |sums|
        invariant totalCost == CostSum(sums, i)
      {
        totalCost := totalCost + sums[i].cost;
      }
      ReduceCost(ps, ZeroGrads(ps), sums);
    }

    /** The workers' part of `backpropagate`: splits the examples among
        `ThreadCount(maxThreads, n)` workers and runs each on its slice from
        zero sums. */
    method BatchSums(ghost ps: seq<Connections>, trainingExamples: seq<Example>, maxThreads: int,
                     ghost outs: seq<Matrix>, ghost wis: seq<Option<Matrix>>)
      returns (sums: seq<Grads>, totalCost: real)
      requires Steady(ps, outs, wis)
      requires |trainingExamples| >= 1 && maxThreads != 0
      requires ExamplesFit(ps, encode, trainingExamples)
      ensures ParamsValid(ps) && Steady(ps, outs, wis)
      ensures sums == WorkerSums(ps, act, encode, trainingExamples, ThreadCount(maxThreads, |trainingExamples|))
      ensures Reduce(ps, ZeroGrads(ps), sums) == Accumulate(ps, act, encode, ZeroGrads(ps), trainingExamples)
      ensures totalCost == Reduce(ps, ZeroGrads(ps), sums).cost >= 0.0
    {
      TopologyChain(ps, inputHeight, sizes);
      var threadsN := ThreadCount(maxThreads, |trainingExamples|);
      var examples := Partition(trainingExamples, threadsN);
      SlicesFit(ps, encode, trainingExamples, threadsN);
      var zero := ZeroSums();
      ZeroSumsAreZero(ps);
      sums := RunWorkers(ps, examples, zero, outs, wis);
      WorkerSumsSpec(ps, act, encode, trainingExamples, threadsN, sums);
      totalCost := TotalCost(ps, sums, outs, wis);
    }

    /** The update part of `backpropagate`: adds `step` times the summed
        weight gradients to every layer's weights, then `step` times the
        summed bias gradients to every bias. */
    method ApplyStep(ghost ps: seq<Connections>, sums: seq<Grads>, step: real,
                     ghost outs: seq<Matrix>, ghost wis: seq<Option<Matrix>>)
      requires Steady(ps, outs, wis)
      requires forall g :: g in sums ==> GradsFit(g, ps)
      modifies layers
      ensures Shaped() && Kept(outs, wis)
      ensures Params() == Update(ps, Reduce(ps, ZeroGrads(ps), sums), step)
    {
      TopologyChain(ps, inputHeight, sizes);
      ghost var qs := Update(ps, Reduce(ps, ZeroGrads(ps), sums), step);
      assert OutputsFit(ps, outs);
      for i := 0 to LAYERS
        invariant Valid() && Moved(ps, qs, i, 0) && Kept(outs, wis)
      {
        ApplyWeights(ps, qs, sums, step, i, outs, wis);
      }
      for i := 0 to LAYERS
        invariant Valid() && Moved(ps, qs, LAYERS, i) && Kept(outs, wis)
      {
        ApplyBiases(ps, qs, sums, step, i, outs, wis);
      }
      UpdateKeepsTopology(ps, Reduce(ps, ZeroGrads(ps), sums), step, inputHeight, sizes);
      assert Params() == qs;
    }

    /** One training step on a batch (`backpropagate`): the workers' sums,
        added up, move every weight and bias by `-learningSpeed / n` times
        the summed gradient, and the summed cost over `2 n` is returned.
        Whatever the number of workers, the step is the one the whole
        batch's sums give. The layers' cached outputs are not changed. */
    method Backpropagate(ghost ps: seq<Connections>, trainingExamples: seq<Example>, learningSpeed: real, maxThreads: int)
      returns (averageCost: real)
      requires Shaped() && Params() == ps
      requires |trainingExamples| >= 1 && maxThreads != 0
      requires ExamplesFit(ps, encode, trainingExamples)
      modifies layers
      ensures Shaped()
      ensures Params() == Update(ps, Accumulate(ps, act, encode, ZeroGrads(ps), trainingExamples),
                                 -learningSpeed / |trainingExamples| as real)
      ensures averageCost == Accumulate(ps, act, encode, ZeroGrads(ps), trainingExamples).cost
                             / (2 * |trainingExamples|) as real
      ensures averageCost >= 0.0
      ensures forall k :: 0 <= k < LAYERS ==>
                layers[k].output == old(layers[k].output) && layers[k].weightedInput == old(layers[k].weightedInput)
    {
      ghost var outs := [layers[0].output, layers[1].output, layers[2].output];
      ghost var wis := [layers[0].weightedInput, layers[1].weightedInput, layers[2].weightedInput];
      var n := |trainingExamples|;
      var sums, totalCost := BatchSums(ps, trainingExamples, maxThreads, outs, wis);
      ApplyStep(ps, sums, -learningSpeed / n as real, outs, wis);
      averageCost := totalCost / (2 * n) as real;
      QuotientNonNegative(totalCost, (2 * n) as real);
    }
  }
}

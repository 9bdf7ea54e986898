/** A fully connected layer (`MiddleLayer`): a weight matrix, a bias column
    and the caches of the last forward step. */
module Layers {
  import opened Matrices
  import opened Wrappers

  /** The (weights, bias) pair a layer exports and imports. */
  datatype Connections = Connections(weights: Matrix, bias: Matrix)

  /** Applies the activation to every entry of `z` shifted by the matching
      bias entry: entry (j, i) becomes `act(z(j, i) + b(j, i))`. */
  function Activated(z: Matrix, b: Matrix, act: real -> real): (r: Matrix)
    requires z.Valid() && b.Valid() && z.rows <= b.rows && z.cols <= b.cols
    ensures SameShape(r, z)
    ensures forall j, i :: 0 <= j < z.rows && 0 <= i < z.cols ==> r.At(j, i) == act(z.At(j, i) + b.At(j, i))
  {
    Matrix(z.rows, z.cols,
      seq(z.rows, j requires 0 <= j < z.rows =>
        seq(z.cols, i requires 0 <= i < z.cols => act(z.cells[j][i] + b.cells[j][i]))))
  }

  class Layer {
    /** The neuron count given at construction. */
    const neurons: nat
    /** The connection weights, `neurons` x previous-layer neurons. */
    var weights: Matrix
    var bias: Matrix
    /** The activated output of the last forward step. */
    var output: Matrix
    /** The product of the weights with the last input, without the bias;
        absent until the first forward step. */
    var weightedInput: Option<Matrix>

    ghost predicate Valid()
      reads this
    {
      weights.Valid() && bias.Valid() && output.Valid() &&
      (weightedInput.Some? ==> weightedInput.value.Valid())
    }

    /** Every entry of the weights is 1; bias and output are `neurons` x 1
        columns whose values are not set. */
    constructor (neurons: nat, previousLayerNeurons: nat)
      ensures Valid() && this.neurons == neurons
      ensures HasShape(weights, neurons, previousLayerNeurons)
      ensures weights == Constant(neurons, previousLayerNeurons, 1.0)
      ensures forall j, i :: 0 <= j < neurons && 0 <= i < previousLayerNeurons ==> weights.At(j, i) == 1.0
      ensures HasShape(bias, neurons, 1) && HasShape(output, neurons, 1)
      ensures weightedInput == None
    {
      this.neurons := neurons;
      weights := Constant(neurons, previousLayerNeurons, 1.0);
      bias := Zeros(neurons, 1);
      output := Zeros(neurons, 1);
      weightedInput := None;
    }

    /** A copy with its own weights, bias and output, equal to `other`'s;
        the weighted-input cache is not copied. */
    constructor Copy(other: Layer)
      requires other.Valid()
      ensures Valid() && neurons == other.neurons
      ensures weights == other.weights && bias == other.bias && output == other.output
      ensures weightedInput == None
    {
      neurons := other.neurons;
      weights := other.weights;
      bias := other.bias;
      output := other.output;
      weightedInput := None;
    }

    /** The forward step: caches `weights * previousOutput` as the weighted
        input and `act(weights * previousOutput + bias)` as the output. */
    method ComputeOutput(previousOutput: Matrix, act: real -> real)
      requires Valid() && previousOutput.Valid()
      requires previousOutput.rows == weights.cols
      requires weights.rows <= bias.rows && previousOutput.cols <= bias.cols
      modifies this
      ensures Valid()
      ensures weights == old(weights) && bias == old(bias)
      ensures weightedInput == Some(Mul(weights, previousOutput))
      ensures HasShape(output, weights.rows, previousOutput.cols)
      ensures forall j, i :: 0 <= j < output.rows && 0 <= i < output.cols ==>
                output.At(j, i) == act(weightedInput.value.At(j, i) + bias.At(j, i))
      ensures output == Activated(weightedInput.value, bias, act)
    {
      var product := Mul(weights, previousOutput);
      weightedInput := Some(product);
      var out := product;
      var i := 0;
      while i < out.cols
        invariant SameShape(out, product) && 0 <= i <= out.cols
        invariant forall r, c :: 0 <= r < out.rows && 0 <= c < out.cols ==>
                    out.At(r, c) == if c < i then act(product.At(r, c) + bias.At(r, c)) else product.At(r, c)
      {
        var j := 0;
        while j < out.rows
          invariant SameShape(out, product) && 0 <= j <= out.rows
          invariant forall r, c :: 0 <= r < out.rows && 0 <= c < out.cols ==>
                      out.At(r, c) == if c < i || (c == i && r < j) then act(product.At(r, c) + bias.At(r, c)) else product.At(r, c)
        {
          out := Set(out, j, i, act(out.At(j, i) + bias.At(j, i)));
          j := j + 1;
        }
        i := i + 1;
      }
      output := out;
      Ext(output, Activated(product, bias, act));
    }

    /** `weights += diff`. */
    method AdjustConnections(diff: Matrix)
      requires Valid() && SameShape(diff, weights)
      modifies this
      ensures Valid()
      ensures SameShape(weights, old(weights))
      ensures forall j, i :: 0 <= j < weights.rows && 0 <= i < weights.cols ==>
                weights.At(j, i) == old(weights).At(j, i) + diff.At(j, i)
      ensures weights == Add(old(weights), diff)
      ensures unchanged(this`bias) && unchanged(this`output) && unchanged(this`weightedInput)
    {
      weights := Add(weights, diff);
    }

    /** `bias += diff`. */
    method AdjustBiases(diff: Matrix)
      requires Valid() && SameShape(diff, bias)
      modifies this
      ensures Valid()
      ensures SameShape(bias, old(bias))
      ensures forall j, i :: 0 <= j < bias.rows && 0 <= i < bias.cols ==>
                bias.At(j, i) == old(bias).At(j, i) + diff.At(j, i)
      ensures bias == Add(old(bias), diff)
      ensures unchanged(this`weights) && unchanged(this`output) && unchanged(this`weightedInput)
    {
      bias := Add(bias, diff);
    }

    /** Overwrites weights and bias with the given pair, whatever its shape. */
    method InitKnownConnections(connections: Connections)
      requires Valid() && connections.weights.Valid() && connections.bias.Valid()
      modifies this
      ensures Valid()
      ensures weights == connections.weights && bias == connections.bias
      ensures unchanged(this`output) && unchanged(this`weightedInput)
    {
      weights := connections.weights;
      bias := connections.bias;
    }

    /** Exports the current (weights, bias) pair; changes nothing. */
    method GetKnownConnections() returns (connections: Connections)
      ensures connections.weights == weights && connections.bias == bias
    {
      connections := Connections(weights, bias);
    }

    /** Replaces weights and bias with values of the same shapes; the random
        draw happens outside the model and is passed in. */
    method InitRandomConnections(randomWeights: Matrix, randomBias: Matrix)
      requires Valid() && SameShape(randomWeights, weights) && SameShape(randomBias, bias)
      modifies this
      ensures Valid()
      ensures weights == randomWeights && bias == randomBias
      ensures SameShape(weights, old(weights)) && SameShape(bias, old(bias))
      ensures unchanged(this`output) && unchanged(this`weightedInput)
    {
      weights := randomWeights;
      bias := randomBias;
    }
  }

  /** Exporting right after importing `p` gives back exactly `p`. */
  method ImportThenExport(layer: Layer, p: Connections) returns (q: Connections)
    requires layer.Valid() && p.weights.Valid() && p.bias.Valid()
    modifies layer
    ensures q == p
  {
    layer.InitKnownConnections(p);
    q := layer.GetKnownConnections();
  }

  /** Adjusting a copy leaves the original's parameters and output as they were. */
  method CopyIsIndependent(original: Layer, diff: Matrix) returns (copy: Layer)
    requires original.Valid() && SameShape(diff, original.weights)
    ensures fresh(copy) && copy.Valid()
    ensures copy.weights == Add(original.weights, diff)
    ensures unchanged(original)
  {
    copy := new Layer.Copy(original);
    copy.AdjustConnections(diff);
  }
}

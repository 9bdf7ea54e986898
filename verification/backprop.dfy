/** What one forward pass and one backpropagation step compute, as functions
    of the layers' parameters: the values `analyzeWord` leaves in the layer
    caches, the deltas and gradient contributions of `calculateGradients`,
    and the accumulators a worker sums them into. */
module Backprop {
  import opened Matrices
  import opened Layers
  import opened Partitioning

  /** A training example: the encoded word and the expected output column. */
  datatype Example = Example(word: seq<int>, target: Matrix)

  /** The derivative of the arc tangent, `1 / (1 + x^2)` (`atanDeriverate` drops
      the constant factor `1 / (pi / 2)` of the activation). */
  function AtanDerivative(x: real): (r: real)
    ensures 0.0 < r <= 1.0
  {
    assert x * x >= 0.0;
    1.0 / (1.0 + x * x)
  }

  /** `AtanDerivative` applied to every entry. */
  function Derivative(m: Matrix): (r: Matrix)
    requires m.Valid()
    ensures SameShape(r, m)
    ensures forall i, j :: 0 <= i < m.rows && 0 <= j < m.cols ==> r.At(i, j) == AtanDerivative(m.At(i, j))
  {
    Matrix(m.rows, m.cols,
      seq(m.rows, i requires 0 <= i < m.rows =>
        seq(m.cols, j requires 0 <= j < m.cols => AtanDerivative(m.cells[i][j]))))
  }

  /** The number of inputs of layer `k`: the height `h` of the encoder output
      for the first layer, the neuron count of the layer before otherwise. */
  function FanIn(ps: seq<Connections>, h: nat, k: nat): nat
    requires k < |ps|
  {
    if k == 0 then h else ps[k - 1].weights.rows
  }

  /** Each layer's weights take the previous layer's output (or an input of
      height `h`) and its bias is one column per neuron. */
  ghost predicate Chain(ps: seq<Connections>, h: nat) {
    forall k :: 0 <= k < |ps| ==> Link(ps, h, k)
  }

  /** Layer `k` of the chain: its weights take layer `k - 1`'s output, or
      the input of height `h` for the first layer, and its bias is one
      column per neuron. (A predicate of its own, so that the fact about
      layer `k` does not bring in the one about layer `k - 1`.) */
  ghost predicate Link(ps: seq<Connections>, h: nat, k: nat)
    requires k < |ps|
  {
    ps[k].weights.Valid() && HasShape(ps[k].bias, ps[k].weights.rows, 1) &&
    ps[k].weights.cols == FanIn(ps, h, k)
  }

  /** `x` is a column the chain `ps` accepts. */
  ghost predicate Feeds(ps: seq<Connections>, x: Matrix) {
    x.Valid() && x.cols == 1 && Chain(ps, x.rows)
  }

  /** The input of layer `k`: `x` for the first layer, the previous layer's
      output otherwise. */
  function In(ps: seq<Connections>, x: Matrix, act: real -> real, k: nat): (r: Matrix)
    requires Feeds(ps, x) && k < |ps|
    ensures HasShape(r, ps[k].weights.cols, 1)
    decreases 3 * k
  {
    assert Link(ps, x.rows, k);
    if k == 0 then x else Out(ps, x, act, k - 1)
  }

  /** The weighted input layer `k` caches: its weights times its input, with
      no bias added. */
  function Weighted(ps: seq<Connections>, x: Matrix, act: real -> real, k: nat): (r: Matrix)
    requires Feeds(ps, x) && k < |ps|
    ensures HasShape(r, ps[k].weights.rows, 1)
    decreases 3 * k + 1
  {
    assert Link(ps, x.rows, k);
    Mul(ps[k].weights, In(ps, x, act, k))
  }

  /** The output of layer `k`: one entry per neuron. */
  function Out(ps: seq<Connections>, x: Matrix, act: real -> real, k: nat): (r: Matrix)
    requires Feeds(ps, x) && k < |ps|
    ensures HasShape(r, ps[k].weights.rows, 1)
    decreases 3 * k + 2
  {
    assert Link(ps, x.rows, k);
    Activated(Weighted(ps, x, act, k), ps[k].bias, act)
  }

  /** `x` feeds the chain and `t` has the height of the last layer. */
  ghost predicate Fits(ps: seq<Connections>, x: Matrix, t: Matrix) {
    Feeds(ps, x) && |ps| >= 1 && HasShape(t, ps[|ps| - 1].weights.rows, 1)
  }

  /** The output error `output - target`. */
  function Error(ps: seq<Connections>, x: Matrix, t: Matrix, act: real -> real): (r: Matrix)
    requires Fits(ps, x, t)
    ensures SameShape(r, t)
  {
    Sub(Out(ps, x, act, |ps| - 1), t)
  }

  /** The delta of layer `k`: the error times the derivative at the last
      layer, and the next layer's delta carried back through its transposed
      weights, times the derivative, below it. The derivative is taken at
      the cached weighted input. */
  function Delta(ps: seq<Connections>, x: Matrix, t: Matrix, act: real -> real, k: nat): (r: Matrix)
    requires Fits(ps, x, t) && k < |ps|
    ensures SameShape(r, ps[k].bias)
    decreases |ps| - k
  {
    assert Link(ps, x.rows, k);
    if k == |ps| - 1 then
      Hadamard(Error(ps, x, t, act), Derivative(Weighted(ps, x, act, k)))
    else
      assert Link(ps, x.rows, k + 1);
      Hadamard(Mul(Transpose(ps[k + 1].weights), Delta(ps, x, t, act, k + 1)),
               Derivative(Weighted(ps, x, act, k)))
  }

  /** The weight-gradient contribution of layer `k`: its delta times the
      transposed input it was fed; it has the shape of the layer's weights. */
  function WeightGradient(ps: seq<Connections>, x: Matrix, t: Matrix, act: real -> real, k: nat): (r: Matrix)
    requires Fits(ps, x, t) && k < |ps|
    ensures SameShape(r, ps[k].weights)
  {
    assert Link(ps, x.rows, k);
    Mul(Delta(ps, x, t, act, k), Transpose(In(ps, x, act, k)))
  }

  /** The cost contribution of one example, the sum of its squared errors;
      never negative. */
  function Cost(ps: seq<Connections>, x: Matrix, t: Matrix, act: real -> real): (r: real)
    requires Fits(ps, x, t)
    ensures r >= 0.0
  {
    var e := Error(ps, x, t, act);
    SumOfSquaresNonNegative(e);
    Sum(Hadamard(e, e))
  }

  /** Every layer's weights and bias are well-formed matrices. */
  ghost predicate ParamsValid(ps: seq<Connections>) {
    forall k :: 0 <= k < |ps| ==> ps[k].weights.Valid() && ps[k].bias.Valid()
  }

  /** Per-layer weight and bias gradient sums and a cost sum. */
  datatype Grads = Grads(weights: seq<Matrix>, biases: seq<Matrix>, cost: real)

  /** One gradient matrix per layer, each of that layer's parameter shape. */
  ghost predicate GradsFit(g: Grads, ps: seq<Connections>) {
    |g.weights| == |ps| && |g.biases| == |ps| &&
    forall k :: 0 <= k < |ps| ==> SameShape(g.weights[k], ps[k].weights) && SameShape(g.biases[k], ps[k].bias)
  }

  /** Zero sums of the layers' shapes. */
  function ZeroGrads(ps: seq<Connections>): (g: Grads)
    requires ParamsValid(ps)
    ensures GradsFit(g, ps) && g.cost == 0.0
    ensures forall k :: 0 <= k < |ps| ==>
              g.weights[k] == Zeros(ps[k].weights.rows, ps[k].weights.cols) &&
              g.biases[k] == Zeros(ps[k].bias.rows, ps[k].bias.cols)
  {
    Grads(seq(|ps|, k requires 0 <= k < |ps| => Zeros(ps[k].weights.rows, ps[k].weights.cols)),
          seq(|ps|, k requires 0 <= k < |ps| => Zeros(ps[k].bias.rows, ps[k].bias.cols)),
          0.0)
  }

  /** Layer-by-layer sums. */
  function AddGrads(ps: seq<Connections>, a: Grads, b: Grads): (r: Grads)
    requires GradsFit(a, ps) && GradsFit(b, ps)
    ensures GradsFit(r, ps) && r.cost == a.cost + b.cost
    ensures forall k :: 0 <= k < |ps| ==>
              r.weights[k] == Add(a.weights[k], b.weights[k]) && r.biases[k] == Add(a.biases[k], b.biases[k])
  {
    Grads(seq(|ps|, k requires 0 <= k < |ps| => Add(a.weights[k], b.weights[k])),
          seq(|ps|, k requires 0 <= k < |ps| => Add(a.biases[k], b.biases[k])),
          a.cost + b.cost)
  }

  /** What one example adds to a worker's sums: every layer's weight
      gradient and delta, and its cost. */
  function Contribution(ps: seq<Connections>, x: Matrix, t: Matrix, act: real -> real): (g: Grads)
    requires Fits(ps, x, t)
    ensures GradsFit(g, ps) && g.cost >= 0.0
    ensures forall k :: 0 <= k < |ps| ==>
              g.weights[k] == WeightGradient(ps, x, t, act, k) && g.biases[k] == Delta(ps, x, t, act, k)
  {
    var weights := seq(|ps|, k requires 0 <= k < |ps| => WeightGradient(ps, x, t, act, k));
    var biases := seq(|ps|, k requires 0 <= k < |ps| => Delta(ps, x, t, act, k));
    Grads(weights, biases, Cost(ps, x, t, act))
  }

  /** Every example's encoded word feeds the chain and its target has the
      output height. */
  ghost predicate ExamplesFit(ps: seq<Connections>, encode: seq<int> -> Matrix, es: seq<Example>) {
    forall e :: e in es ==> Fits(ps, encode(e.word), e.target)
  }

  /** The sums after adding the contributions of `es`, in order, to `acc`. */
  function Accumulate(ps: seq<Connections>, act: real -> real, encode: seq<int> -> Matrix,
                      acc: Grads, es: seq<Example>): (r: Grads)
    requires GradsFit(acc, ps) && ExamplesFit(ps, encode, es)
    ensures GradsFit(r, ps)
    decreases |es|
  {
    if es == [] then acc
    else
      var last := es[|es| - 1];
      AddGrads(ps, Accumulate(ps, act, encode, acc, es[..|es| - 1]),
               Contribution(ps, encode(last.word), last.target, act))
  }

  /** The cost sum only grows: each example adds a sum of squares. */
  lemma {:induction false} AccumulateCostGrows(ps: seq<Connections>, act: real -> real, encode: seq<int> -> Matrix,
                                               acc: Grads, es: seq<Example>)
    requires GradsFit(acc, ps) && ExamplesFit(ps, encode, es)
    ensures Accumulate(ps, act, encode, acc, es).cost >= acc.cost
    decreases |es|
  {
    if es != [] {
      AccumulateCostGrows(ps, act, encode, acc, es[..|es| - 1]);
    }
  }

  /** The sum of the workers' sums, added worker by worker to `zero`. */
  function Reduce(ps: seq<Connections>, zero: Grads, gs: seq<Grads>): (r: Grads)
    requires GradsFit(zero, ps) && forall g :: g in gs ==> GradsFit(g, ps)
    ensures GradsFit(r, ps)
    decreases |gs|
  {
    if gs == [] then zero else AddGrads(ps, Reduce(ps, zero, gs[..|gs| - 1]), gs[|gs| - 1])
  }

  /** The costs of the first `n` workers, added up in order. */
  function CostSum(gs: seq<Grads>, n: nat): real
    requires n <= |gs|
  {
    if n == 0 then 0.0 else CostSum(gs, n - 1) + gs[n - 1].cost
  }

  lemma {:induction false} CostSumPrefix(gs: seq<Grads>, m: nat, n: nat)
    requires n <= m <= |gs|
    ensures CostSum(gs[..m], n) == CostSum(gs, n)
  {
    if n > 0 {
      CostSumPrefix(gs, m, n - 1);
    }
  }

  /** The cost of the reduced sums is the workers' costs added up. */
  lemma {:induction false} ReduceCost(ps: seq<Connections>, zero: Grads, gs: seq<Grads>)
    requires GradsFit(zero, ps) && forall g :: g in gs ==> GradsFit(g, ps)
    ensures Reduce(ps, zero, gs).cost == zero.cost + CostSum(gs, |gs|)
    decreases |gs|
  {
    if gs != [] {
      var init := gs[..|gs| - 1];
      ReduceCost(ps, zero, init);
      CostSumPrefix(gs, |gs| - 1, |gs| - 1);
    }
  }

  lemma AddGradsAssoc(ps: seq<Connections>, a: Grads, b: Grads, c: Grads)
    requires GradsFit(a, ps) && GradsFit(b, ps) && GradsFit(c, ps)
    ensures AddGrads(ps, AddGrads(ps, a, b), c) == AddGrads(ps, a, AddGrads(ps, b, c))
  {
    var l, r := AddGrads(ps, AddGrads(ps, a, b), c), AddGrads(ps, a, AddGrads(ps, b, c));
    forall k | 0 <= k < |ps|
      ensures l.weights[k] == r.weights[k] && l.biases[k] == r.biases[k]
    {
      AddAssoc(a.weights[k], b.weights[k], c.weights[k]);
      AddAssoc(a.biases[k], b.biases[k], c.biases[k]);
    }
  }

  lemma AddGradsZero(ps: seq<Connections>, a: Grads)
    requires GradsFit(a, ps)
    ensures AddGrads(ps, a, ZeroGrads(ps)) == a
  {
    var r := AddGrads(ps, a, ZeroGrads(ps));
    forall k | 0 <= k < |ps|
      ensures r.weights[k] == a.weights[k] && r.biases[k] == a.biases[k]
    {
      AddZero(a.weights[k]);
      AddZero(a.biases[k]);
    }
  }

  /** Adding `xs` and then `ys` is adding `xs + ys`. */
  lemma {:induction false} AccumulateAppend(ps: seq<Connections>, act: real -> real, encode: seq<int> -> Matrix,
                                            acc: Grads, xs: seq<Example>, ys: seq<Example>)
    requires GradsFit(acc, ps) && ExamplesFit(ps, encode, xs) && ExamplesFit(ps, encode, ys)
    ensures ExamplesFit(ps, encode, xs + ys)
    ensures Accumulate(ps, act, encode, acc, xs + ys) ==
            Accumulate(ps, act, encode, Accumulate(ps, act, encode, acc, xs), ys)
    decreases |ys|
  {
    forall e | e in xs + ys
      ensures Fits(ps, encode(e.word), e.target)
    {
      assert e in xs || e in ys;
    }
    if ys == [] {
      assert xs + ys == xs;
    } else {
      var ys' := ys[..|ys| - 1];
      AccumulateAppend(ps, act, encode, acc, xs, ys');
      var all := xs + ys;
      DropLastOfAppend(xs, ys);
      AccumulateLast(ps, act, encode, acc, all);
      AccumulateLast(ps, act, encode, Accumulate(ps, act, encode, acc, xs), ys);
    }
  }

  lemma DropLastOfAppend<T>(xs: seq<T>, ys: seq<T>)
    requires ys != []
    ensures (xs + ys)[..|xs + ys| - 1] == xs + ys[..|ys| - 1]
    ensures (xs + ys)[|xs + ys| - 1] == ys[|ys| - 1]
  {
  }

  lemma AppendPrefix<T>(s: seq<T>, p: seq<T>, x: T)
    requires |p| < |s| && p == s[..|p|] && x == s[|p|]
    ensures p + [x] == s[..|p| + 1]
  {
  }

  lemma TakeAll<T>(s: seq<T>)
    ensures s[..|s|] == s
  {
  }

  lemma PrefixStep<T>(s: seq<T>, e: nat)
    requires e < |s|
    ensures s[..e + 1][..e] == s[..e] && s[..e + 1][e] == s[e] && s[..e + 1] != []
  {
  }

  /** The last example's contribution is added last. */
  lemma AccumulateLast(ps: seq<Connections>, act: real -> real, encode: seq<int> -> Matrix,
                       acc: Grads, es: seq<Example>)
    requires GradsFit(acc, ps) && ExamplesFit(ps, encode, es) && es != []
    ensures ExamplesFit(ps, encode, es[..|es| - 1])
    ensures Accumulate(ps, act, encode, acc, es) ==
            AddGrads(ps, Accumulate(ps, act, encode, acc, es[..|es| - 1]),
                     Contribution(ps, encode(es[|es| - 1].word), es[|es| - 1].target, act))
  {
  }

  /** Starting from `acc` is starting from zero and adding `acc` at the end. */
  lemma {:induction false} AccumulateFrom(ps: seq<Connections>, act: real -> real, encode: seq<int> -> Matrix,
                                          acc: Grads, es: seq<Example>)
    requires GradsFit(acc, ps) && ExamplesFit(ps, encode, es)
    requires ParamsValid(ps)
    ensures Accumulate(ps, act, encode, acc, es) ==
            AddGrads(ps, acc, Accumulate(ps, act, encode, ZeroGrads(ps), es))
    decreases |es|
  {
    if es == [] {
      AddGradsZero(ps, acc);
    } else {
      var init, last := es[..|es| - 1], es[|es| - 1];
      var c := Contribution(ps, encode(last.word), last.target, act);
      AccumulateFrom(ps, act, encode, acc, init);
      AddGradsAssoc(ps, acc, Accumulate(ps, act, encode, ZeroGrads(ps), init), c);
    }
  }

  /** Summing the workers' sums, each over one slice, is summing over the
      concatenation of the slices. */
  lemma {:induction false} ReduceSlices(ps: seq<Connections>, act: real -> real, encode: seq<int> -> Matrix,
                                        slices: seq<seq<Example>>, gs: seq<Grads>)
    requires ParamsValid(ps)
    requires |gs| == |slices|
    requires forall i :: 0 <= i < |slices| ==> ExamplesFit(ps, encode, slices[i])
    requires forall i :: 0 <= i < |slices| ==> gs[i] == Accumulate(ps, act, encode, ZeroGrads(ps), slices[i])
    ensures forall g :: g in gs ==> GradsFit(g, ps)
    ensures ExamplesFit(ps, encode, Concat(slices))
    ensures Reduce(ps, ZeroGrads(ps), gs) == Accumulate(ps, act, encode, ZeroGrads(ps), Concat(slices))
    decreases |gs|
  {
    var zero := ZeroGrads(ps);
    if gs != [] {
      var n := |gs| - 1;
      ReduceSlices(ps, act, encode, slices[..n], gs[..n]);
      assert slices[..n] == slices[..|slices| - 1];
      var before := Concat(slices[..n]);
      AccumulateFrom(ps, act, encode, Accumulate(ps, act, encode, zero, before), slices[n]);
      AccumulateAppend(ps, act, encode, zero, before, slices[n]);
    }
  }
}

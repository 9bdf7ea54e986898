/** What the workers of one training step compute together: each sums the
    contributions of its slice of the batch, and the coordinator adds the
    workers' sums. */
module Batch {
  import opened Matrices
  import opened Layers
  import opened Partitioning
  import opened Backprop

  /** The sums from `zero` over each of `slices`, in order. */
  function SliceSums(ps: seq<Connections>, act: real -> real, encode: seq<int> -> Matrix,
                     zero: Grads, slices: seq<seq<Example>>): (gs: seq<Grads>)
    requires GradsFit(zero, ps) && forall i :: 0 <= i < |slices| ==> ExamplesFit(ps, encode, slices[i])
    ensures |gs| == |slices| && forall g :: g in gs ==> GradsFit(g, ps)
  {
    seq(|slices|, i requires 0 <= i < |slices| => Accumulate(ps, act, encode, zero, slices[i]))
  }

  /** Appending the sums over the next slice to those over the slices
      before it gives the sums over one slice more. */
  lemma SliceSumsStep(ps: seq<Connections>, act: real -> real, encode: seq<int> -> Matrix,
                      zero: Grads, slices: seq<seq<Example>>, sums: seq<Grads>, next: Grads)
    requires GradsFit(zero, ps) && forall i :: 0 <= i < |slices| ==> ExamplesFit(ps, encode, slices[i])
    requires |sums| < |slices| && sums == SliceSums(ps, act, encode, zero, slices)[..|sums|]
    requires next == Accumulate(ps, act, encode, zero, slices[|sums|])
    ensures sums + [next] == SliceSums(ps, act, encode, zero, slices)[..|sums| + 1]
  {
    AppendPrefix(SliceSums(ps, act, encode, zero, slices), sums, next);
  }

  /** Every worker's slice of a batch that fits fits too. */
  lemma SlicesFit(ps: seq<Connections>, encode: seq<int> -> Matrix, examples: seq<Example>, w: nat)
    requires w >= 1 && ExamplesFit(ps, encode, examples)
    ensures forall i :: 0 <= i < w ==> ExamplesFit(ps, encode, Slices(examples, w)[i])
  {
  }

  /** The sums of the `w` workers, worker `i` starting from zero on its slice. */
  function WorkerSums(ps: seq<Connections>, act: real -> real, encode: seq<int> -> Matrix,
                      examples: seq<Example>, w: nat): (gs: seq<Grads>)
    requires w >= 1 && ParamsValid(ps) && ExamplesFit(ps, encode, examples)
    ensures |gs| == w && forall g :: g in gs ==> GradsFit(g, ps)
  {
    SlicesFit(ps, encode, examples, w);
    SliceSums(ps, act, encode, ZeroGrads(ps), Slices(examples, w))
  }

  /** The workers' sums added together are the sums over the whole batch,
      whatever the number of workers: the split changes nothing in the
      update. */
  lemma BatchEquivalence(ps: seq<Connections>, act: real -> real, encode: seq<int> -> Matrix,
                         examples: seq<Example>, w: nat)
    requires w >= 1 && ParamsValid(ps) && ExamplesFit(ps, encode, examples)
    ensures Reduce(ps, ZeroGrads(ps), WorkerSums(ps, act, encode, examples, w)) ==
            Accumulate(ps, act, encode, ZeroGrads(ps), examples)
  {
    var slices := Slices(examples, w);
    ReduceSlices(ps, act, encode, slices, WorkerSums(ps, act, encode, examples, w));
    ConcatSlices(examples, w);
  }

  /** The total cost of a batch is never negative. */
  lemma TotalCostNonNegative(ps: seq<Connections>, act: real -> real, encode: seq<int> -> Matrix,
                             examples: seq<Example>, w: nat)
    requires w >= 1 && ParamsValid(ps) && ExamplesFit(ps, encode, examples)
    ensures Reduce(ps, ZeroGrads(ps), WorkerSums(ps, act, encode, examples, w)).cost >= 0.0
  {
    BatchEquivalence(ps, act, encode, examples, w);
    AccumulateCostGrows(ps, act, encode, ZeroGrads(ps), examples);
  }

  /** Sums that are, worker by worker, the sums over the intended slices are
      the workers' sums; they add up to the sums over the whole batch, whose
      cost is never negative. */
  lemma WorkerSumsSpec(ps: seq<Connections>, act: real -> real, encode: seq<int> -> Matrix,
                       examples: seq<Example>, w: nat, sums: seq<Grads>)
    requires w >= 1 && ParamsValid(ps) && ExamplesFit(ps, encode, examples)
    requires forall i :: 0 <= i < w ==> ExamplesFit(ps, encode, Slices(examples, w)[i])
    requires sums == SliceSums(ps, act, encode, ZeroGrads(ps), Slices(examples, w))
    ensures sums == WorkerSums(ps, act, encode, examples, w)
    ensures Reduce(ps, ZeroGrads(ps), sums) == Accumulate(ps, act, encode, ZeroGrads(ps), examples)
    ensures Reduce(ps, ZeroGrads(ps), sums).cost >= 0.0
  {
    BatchEquivalence(ps, act, encode, examples, w);
    TotalCostNonNegative(ps, act, encode, examples, w);
  }
}

# OpinionANN word-analysis network, modelled in Dafny

This project models the core of OpinionANN's word-analysis network. That
network is a three-layer fully connected network that reads an encoded word
and is trained by batch gradient descent, with the batch split among worker
threads.

It covers two classes and the reasoning about them:

- **`MiddleLayer`** (`layer.dfy`, class `Layers.Layer`).
  - A layer owns a weight matrix, a bias column and two caches of its last forward step: the weighted input `W·x` and the output `act(W·x + b)`.
  - It is modelled as a class whose fields the methods reassign.
  - Its operations are the forward step, the in-place `+=` adjustments, the bulk export and import of the (weights, bias) pair, random initialisation, and the copy constructor.
- **`WordAnalysisLevel`** (`network.dfy`, class `Networks.Network`).
  - The network is an encoder followed by `LAYERS = 3` layers.
  - It is modelled as a class holding the layer objects.
  - `analyzeWord` is the forward chain.
  - `calculateGradients` is one worker: on a copy of the network it runs every example forward and backward, adding each example's weight gradients, deltas and squared error into the worker's sums.
  - `backpropagate` is one training step. It:
    - works out the worker count;
    - splits the batch;
    - runs the workers;
    - adds up their sums;
    - moves every weight and bias by `-learningSpeed / N` times the summed gradient;
    - returns `totalCost / (2N)`.
  - `initKnownConnections` and `getKnownConnections` import and export the parameters.

The methods are proved against functions of the parameters that say what a
forward and backward pass compute (`backprop.dfy`):
- `Out`, `Weighted` and `In` are the values the forward pass leaves in the caches.
- `Delta` and `WeightGradient` are the per-layer contributions of one example.
- `Contribution` bundles them with the example's cost.
- `Accumulate` is a worker's sums over its examples, in order.
- `Reduce` is the coordinator's sum over the workers.

The main results:
- `Backpropagate` moves the parameters by exactly the sums over the whole batch (`Networks.Update` of `Accumulate` over all examples). The number of workers and the split do not change this.
- The returned average cost is never negative.
- The batch split (`partition.dfy`) is proved correct in its intended form. The form the code actually writes is proved to drop examples or read past the end (see Findings).

Matrices (`matrices.dfy`) are immutable values with the Eigen operations the
code uses. Entries are mathematical reals. The activation `atan(x)/(pi/2)` is
a function-valued parameter `act`. The word encoder is a parameter `encode`
that maps an encoded word to a column of height `inputHeight`. `batch.dfy`
relates the workers' sums to the sum over the whole batch.

## Model

| member | source | states |
|---|---|---|
| Layers.Layer.constructor | src/MiddleLayer.cpp:7-12 | weights are `neurons × previousLayerNeurons` with every entry 1; bias and output are `neurons × 1` (shape only, their values are not claimed); no weighted input is cached |
| Layers.Layer.Copy | src/MiddleLayer.cpp:14-18 | the copy's weights, bias and output equal the original's; its weighted-input cache is empty |
| Layers.Layer.ComputeOutput | src/MiddleLayer.cpp:20-36 | the cached weighted input is `weights · previousOutput` with no bias; the output has that shape and entry (j, i) is `act(weightedInput(j,i) + bias(j,i))`; weights and bias are unchanged |
| Layers.Layer.AdjustConnections | src/MiddleLayer.cpp:67-70 | weights become `weights + diff` entry by entry; bias, output and weighted input are unchanged |
| Layers.Layer.AdjustBiases | src/MiddleLayer.cpp:72-75 | bias becomes `bias + diff` entry by entry; weights, output and weighted input are unchanged |
| Layers.Layer.InitKnownConnections | src/MiddleLayer.cpp:77-81 | weights and bias become the given pair, whatever its shape; the caches are unchanged |
| Layers.Layer.GetKnownConnections | src/MiddleLayer.cpp:83-86 | returns exactly the current (weights, bias) and changes nothing |
| Layers.Layer.InitRandomConnections | src/MiddleLayer.cpp:50-53 | weights and bias become the supplied values of the same shapes; the caches are unchanged |
| Layers.ImportThenExport | src/MiddleLayer.cpp:77-86 | exporting right after importing `p` returns `p` |
| Layers.CopyIsIndependent | src/MiddleLayer.cpp:14-18 | adjusting a fresh copy leaves the original entirely unchanged |
| Networks.Network.constructor | src/WordAnalysisLevel.cpp:5-10 | three fresh layers of `sizes[0]`, `sizes[1]`, `sizes[2]` neurons; the first takes the encoder's output height and each other takes the previous layer's neurons; all weights are ones; no layer has a cached weighted input |
| Networks.Network.Copy | src/WordAnalysisLevel.cpp:12-17 | fresh layers holding the original's parameters, outputs and encoder output; no layer of the copy has a cached weighted input; a well-shaped original gives a well-shaped copy |
| Networks.Network.InitRandomConnections | src/WordAnalysisLevel.cpp:26-28 | every layer takes the supplied parameters of its own shape; the network keeps its built shapes; every layer's cached output and weighted input keep their values |
| Networks.Network.InitLayer | src/WordAnalysisLevel.cpp:27 | layer `i` takes `random[i]`; the earlier layers keep theirs; the caches are untouched |
| Networks.RandomKeepsTopology | src/WordAnalysisLevel.cpp:26-28 | parameters replaced by ones of the same shapes keep the network's layer shapes |
| Networks.Forward | src/WordAnalysisLevel.cpp:32-34 | a layer holding layer `k`'s parameters, fed layer `k`'s input, caches `Weighted(k)` and `Out(k)` and keeps its parameters |
| Networks.Network.Step | src/WordAnalysisLevel.cpp:32-34 | layer `i`, fed the encoder output for `i = 0` and layer `i-1`'s output otherwise, extends the cached forward pass by one layer; parameters unchanged |
| Networks.Network.AnalyzeWord | src/WordAnalysisLevel.cpp:30-37 | encoder output becomes `encode(word)`; every layer caches the forward pass from it; the result is the last layer's output `Out(LAYERS-1)`; parameters unchanged |
| Backprop.AtanDerivative | src/WordAnalysisLevel.cpp:39-42 | `1 / (1 + x²)` lies in (0, 1] |
| Networks.AtanDeriverate | src/WordAnalysisLevel.cpp:44-49 | the result is `x` with every entry replaced by its arctan derivative (same shape); every entry lies in (0, 1] |
| Backprop.Delta | src/WordAnalysisLevel.cpp:65-85 | each layer's delta has the shape of that layer's bias |
| Backprop.WeightGradient | src/WordAnalysisLevel.cpp:73-76 | each weight-gradient contribution `delta · prevᵀ` has the shape of that layer's weights |
| Backprop.Cost | src/WordAnalysisLevel.cpp:62-69 | an example's cost, the sum of its squared errors, is never negative |
| Networks.OutputDelta | src/WordAnalysisLevel.cpp:62-69 | the last layer's delta is `(output - target) ⊙ derivative(weightedInput)` and the cost is `sum((output - target)²)` |
| Networks.Network.OutputError | src/WordAnalysisLevel.cpp:62-69 | computes the last layer's delta and the example's cost from the cached output and weighted input |
| Networks.AddedStep | src/WordAnalysisLevel.cpp:73-76 | adding layer `k`'s weight gradient and delta extends "layers from `k+1` up have added their part" down to `k` |
| Networks.Network.BackStep | src/WordAnalysisLevel.cpp:71-87 | visiting layer `k` adds `delta · prevᵀ` and `delta` to its sums; the previous output is the encoder's for `k = 0`; for `k > 0` it returns the delta of layer `k-1` |
| Networks.AddedComplete | src/WordAnalysisLevel.cpp:71-87 | once all layers have added their part, the sums are the old sums plus the example's contribution |
| Networks.Network.Backward | src/WordAnalysisLevel.cpp:61-87 | visits layers `LAYERS-1-i` for `i = 0..LAYERS-1`; the result is the sums plus the example's contribution (gradients, deltas and cost); parameters and the cached forward pass stay as they were |
| Networks.Network.AddExample | src/WordAnalysisLevel.cpp:59-88 | one example, forward then backward, adds its contribution to the sums; parameters unchanged; afterwards the encoder output is the example's encoded word and every layer caches the forward pass from it |
| Networks.Network.AddExamples | src/WordAnalysisLevel.cpp:59-88 | the loop over a worker's examples yields `Accumulate` of its examples, in order; parameters unchanged; for a non-empty batch the caches hold the forward pass of the last example; for an empty batch the encoder output and every cache keep their values |
| Networks.Network.CalculateGradients | src/WordAnalysisLevel.cpp:51-89 | working on a copy, the result is `Accumulate` of the given examples from the given sums; the network passed in is not modified |
| Backprop.AccumulateCostGrows | src/WordAnalysisLevel.cpp:69 | a worker's cost sum never decreases |
| Backprop.AccumulateAppend | src/WordAnalysisLevel.cpp:59-88 | adding `xs` and then `ys` equals adding `xs + ys` |
| Backprop.AccumulateFrom | src/WordAnalysisLevel.cpp:59-88 | starting from sums `acc` equals starting from zero and adding `acc` afterwards |
| Partitioning.ThreadCount | src/WordAnalysisLevel.cpp:103 | the worker count is between 1 and N and at most `maxThreads` when positive; below N it is `maxThreads` |
| Partitioning.Partition | src/WordAnalysisLevel.cpp:105-132 | intended split: `threads` contiguous slices of sizes `N/W` or `N/W + 1` (the first `N % W` longer), sizes differing by at most one, concatenating back to the batch |
| Partitioning.ConcatSlices | src/WordAnalysisLevel.cpp:105-132 | the intended slices, in order, concatenate to the whole batch |
| Partitioning.PartitionAsWritten | src/WordAnalysisLevel.cpp:105-132 | the split as written: fails exactly when it would read past the end; otherwise every worker gets `TakenAsWritten` examples and together they cover only a prefix of the batch |
| Partitioning.AsWrittenTotal | src/WordAnalysisLevel.cpp:131-132 | total read by the written split: `N - N%W` if `N/W >= N%W`, else `N - N%W + W` |
| Partitioning.AsWrittenCoversAllIff | src/WordAnalysisLevel.cpp:131-132 | the written split covers the batch exactly iff `N % W == 0`; otherwise it drops examples or over-reads |
| Partitioning.AsWrittenDropsAnExample | src/WordAnalysisLevel.cpp:131-132 | 5 examples on 2 workers: 2 each, so one is dropped; the intended split gives 3 + 2 |
| Partitioning.AsWrittenReadsPastTheEnd | src/WordAnalysisLevel.cpp:131-132 | 5 examples on 3 workers: 2 each, 6 reads from 5 examples |
| Networks.Network.ZeroSumsAreZero | src/WordAnalysisLevel.cpp:114-126 | the zeroed accumulators, shaped from the layer sizes and the encoder's height, are the zero sums of the parameters' shapes |
| Networks.Network.RunWorker | src/WordAnalysisLevel.cpp:141-142 | a worker's sums over its slice are `Accumulate` of the slice from zero; the network is unchanged |
| Networks.Network.RunWorkers | src/WordAnalysisLevel.cpp:108-147 | worker `i`'s sums are `Accumulate` of slice `i`, in worker order; the network is unchanged |
| Batch.SliceSumsStep | src/WordAnalysisLevel.cpp:136-139 | appending the next worker's sums extends the prefix of per-slice sums by one |
| Batch.WorkerSumsSpec | src/WordAnalysisLevel.cpp:146-173 | the workers' sums, added up, are the sums over the whole batch, and their cost is non-negative |
| Batch.BatchEquivalence | src/WordAnalysisLevel.cpp:108-173 | for every worker count, the sum of the workers' sums equals `Accumulate` over the whole batch |
| Batch.TotalCostNonNegative | src/WordAnalysisLevel.cpp:149-150 | the total cost over the workers is never negative |
| Backprop.ReduceSlices | src/WordAnalysisLevel.cpp:155-177 | summing per-slice sums equals accumulating over the concatenated slices |
| Backprop.ReduceCost | src/WordAnalysisLevel.cpp:149-150 | the cost of the reduced sums is the workers' costs added in order |
| Networks.Network.TotalCost | src/WordAnalysisLevel.cpp:149-150 | the loop over the workers' costs yields the cost of the reduced sums; nothing is changed |
| Networks.WeightsTotal | src/WordAnalysisLevel.cpp:157-161 | starting from zero, the loop adds every worker's weight sums for layer `k` to get the reduced weight sum |
| Networks.BiasesTotal | src/WordAnalysisLevel.cpp:169-173 | starting from zero of the output's shape, the loop adds every worker's bias sums for layer `k` to get the reduced bias sum |
| Networks.Update | src/WordAnalysisLevel.cpp:155-177 | every weight and bias entry moves to `p + step · total` |
| Networks.UpdateKeepsTopology | src/WordAnalysisLevel.cpp:155-177 | an update keeps every layer's shapes |
| Networks.UpdateByZeroStep | src/WordAnalysisLevel.cpp:163-164 | a step of length zero changes no parameter |
| Networks.UpdateByZeroSums | src/WordAnalysisLevel.cpp:155-177 | a step along zero sums changes no parameter |
| Networks.Network.ApplyWeights | src/WordAnalysisLevel.cpp:155-165 | layer `i`'s weights become their updated value; the other weights, all biases and the caches keep their values |
| Networks.Network.ApplyBiases | src/WordAnalysisLevel.cpp:167-177 | layer `i`'s bias becomes its updated value; the total starts from zero of the output's shape; everything else keeps its value |
| Networks.Network.ApplyStep | src/WordAnalysisLevel.cpp:153-177 | the parameters become `Update(ps, sum of the workers' sums, step)`; the shapes and caches are kept |
| Networks.Network.BatchSums | src/WordAnalysisLevel.cpp:103-150 | the workers' sums are `WorkerSums` for `ThreadCount(maxThreads, N)` workers; they add up to `Accumulate` over the whole batch; the total cost is their cost and is ≥ 0 |
| Networks.Network.Backpropagate | src/WordAnalysisLevel.cpp:91-197 | parameters become `Update(ps, Accumulate(all examples), -learningSpeed/N)`; returns `Accumulate(...).cost / (2N)`, which is ≥ 0; shapes and caches are kept |
| Networks.Network.InitKnownConnections | src/WordAnalysisLevel.cpp:200-204 | layer `i` takes `connections[i]` for `i < |connections|`; the other layers and every cache are untouched |
| Networks.Network.GetKnownConnections | src/WordAnalysisLevel.cpp:206-214 | returns the `LAYERS` (weights, bias) pairs in layer order and changes nothing |
| Networks.Network.ExportThenImport | src/WordAnalysisLevel.cpp:200-214 | importing what was just exported changes no parameter and no cache |

## Left out

- Threads and their join (src/WordAnalysisLevel.cpp:141-147) become a sequential loop over the slices. Each worker works on its own copy of the network and on its own zeroed sums. Nothing is shared until the sums are added after the join, so the order is immaterial.
- Floating point: entries are reals, and `float`/`double` rounding is not modelled. The activation `atan(x)/(pi/2)` (src/MiddleLayer.cpp:38-40) is a parameter `act` of which nothing is assumed.
- `setRandom` (src/MiddleLayer.cpp:50-53) is library randomness. The random values are passed in, with the shapes of the matrices they replace.
- The `WordsInputLayer` encoder is not part of this model. Its output is `encode(word)`, a column of height `inputHeight`. Its copy in the network copy is the encoder output it holds.
- The getters `getOutput`, `getWeightedInput` and `getWeights` (src/MiddleLayer.cpp:42-48, 55-58) are direct reads of the fields.
- Destructors, `new`/`delete` ownership and the deletions at the end of `backpropagate` (src/WordAnalysisLevel.cpp:19-24, 179-194; src/MiddleLayer.cpp:60-64) are left out. Matrices are values, and an Eigen `+=` on a matrix is a reassignment of the field.
- Networks.Network.AnalyzeWord runs the first layer inside the loop, on the encoder output. The code runs it before the loop. The order of computation is the same.
- Networks.Network.CalculateGradients states its result over the parameters on entry. Its empty modifies clause is what guarantees that the network passed in stays unchanged; the copy it works on is fresh.
- Integer widths: the `int` worker count and example counter are unbounded.
- Networks.Network.Backpropagate requires at least one example and `maxThreads != 0`, because the code divides by the worker count.
- Networks.Network.Backpropagate uses the intended split (`Partition`), not the one written at src/WordAnalysisLevel.cpp:131. The written one is modelled separately; see Findings.
- Networks.Network.BatchSums splits with the intended `Partition` too. When `N % W != 0` it therefore differs from the code as written, which drops examples or reads past the end of the batch. That behaviour is captured only by `Partitioning.PartitionAsWritten` and the lemmas beside it.
- Networks.Network.Backpropagate and the methods it calls take the current parameters `ps` and caches as ghost arguments, standing for the state on entry.
- The bias and output of a new layer are left uninitialised by the code. The model gives them zeros, and its contract claims only their shapes.
- Neither layer constructor assigns the weighted-input pointer (src/MiddleLayer.cpp:7-18), and `computeOutput` deletes it when it is non-null (src/MiddleLayer.cpp:22). The class header, which is not part of this model, is assumed to initialise it to null. The model's `None` ("no weighted input cached") rests on that assumption.
- `analyzeWord` returns a pointer to the last layer's `output` matrix (src/WordAnalysisLevel.cpp:36). The next `computeOutput` on that layer deletes that matrix (src/MiddleLayer.cpp:21), so a caller that keeps the pointer across a second call holds a dangling pointer. The model returns the matrix as a value, so it does not capture this aliasing or the dangling pointer.
- The layer and network constructors give the first layer `inputHeight` inputs. In the code this is the encoder's output height.
- The backward pass uses `1 / (1 + x²)` (src/WordAnalysisLevel.cpp:39-42), without the `2/π` factor of the derivative of `atan(x)/(π/2)`. The activation is a parameter, so the model does not relate the two. It keeps the code's derivative.
- Networks.Network.AnalyzeWord requires the shapes the network was built with (`Shaped()`). The code runs on any chain-consistent shapes, and an import through `initKnownConnections` may change shapes; the model assumes imports keep the built shapes.
- Networks.Network.InitRandomConnections requires the built shapes (`Shaped()`) as well. `setRandom` (src/MiddleLayer.cpp:50-53) fills matrices of any shape, so the model does not cover random initialisation after an import that changed shapes.
- Networks.Network.CalculateGradients requires the built shapes too. Its only caller passes accumulators of those shapes (src/WordAnalysisLevel.cpp:114-126, 141), so the code needs them as well.
- Networks.Network.InitKnownConnections requires `|connections| <= LAYERS`, because the code indexes `layers[i]` for every given pair.
- The cached weighted input is `W·x` without the bias, as the code computes it (src/MiddleLayer.cpp:24-26), and the derivative in the backward pass is taken there. A textbook layer would take the derivative at the pre-activation `W·x + b`; the model follows the code, so `Backprop.Delta` uses the bias-free value.

## Findings

| source | as written | input that shows it | evidently intended | confidence | as-written member | corrected member |
|---|---|---|---|---|---|---|
| src/WordAnalysisLevel.cpp:131 | the extra-example test compares the example counter `j` with `threadsWithExtraExamples`, so every worker takes the same number of examples | 5 examples on 2 workers: each takes 2, example 5 is never used; 5 examples on 3 workers: each takes 2, reading a sixth example past the end | compare the worker index `i`, so the first `N % W` workers take one extra example and every example is used exactly once | high, not executed | Partitioning.PartitionAsWritten, Partitioning.AsWrittenCoversAllIff | Partitioning.Partition |

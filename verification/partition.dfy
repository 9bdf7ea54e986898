/** How a batch of training examples is split among worker threads
    (`backpropagate`, the thread-count and slicing arithmetic). */
module Partitioning {
  import opened Wrappers

  /** The number of workers for `n` examples when at most `maxThreads` are
      wanted. `backpropagate` compares the signed `maxThreads` with the unsigned
      example count, so a negative `maxThreads` converts to a huge unsigned
      value and the count `n` is taken. A count of zero would be divided by,
      hence `maxThreads != 0` and `n >= 1`. */
  function ThreadCount(maxThreads: int, n: nat): (w: nat)
    requires n >= 1 && maxThreads != 0
    ensures 1 <= w <= n
    ensures maxThreads > 0 ==> w <= maxThreads
    ensures w < n ==> w == maxThreads
  {
    if maxThreads < 0 || maxThreads >= n then n else maxThreads
  }

  /** The concatenation of `slices`, in order. */
  function Concat<T>(slices: seq<seq<T>>): seq<T> {
    if slices == [] then [] else Concat(slices[..|slices| - 1]) + slices[|slices| - 1]
  }

  // The intended split: each worker takes `n / w` examples and the first
  // `n % w` workers one more.

  /** The number of examples worker `i` of `w` receives. */
  function SliceSize(n: nat, w: nat, i: nat): nat
    requires w >= 1
  {
    n / w + if i < n % w then 1 else 0
  }

  /** The index of the first example of worker `i`. */
  function SliceStart(n: nat, w: nat, i: nat): nat
    requires w >= 1
  {
    if i == 0 then 0 else SliceStart(n, w, i - 1) + SliceSize(n, w, i - 1)
  }

  lemma {:induction false} SliceStartClosedForm(n: nat, w: nat, i: nat)
    requires w >= 1
    ensures SliceStart(n, w, i) == i * (n / w) + if i < n % w then i else n % w
  {
    if i > 0 {
      SliceStartClosedForm(n, w, i - 1);
      assert i * (n / w) == (i - 1) * (n / w) + n / w;
    }
  }

  /** The slices of all `w` workers end exactly at the last example. */
  lemma SliceStartCoversAll(n: nat, w: nat)
    requires w >= 1
    ensures SliceStart(n, w, w) == n
  {
    SliceStartClosedForm(n, w, w);
  }

  lemma {:induction false} SliceStartMonotone(n: nat, w: nat, i: nat, k: nat)
    requires w >= 1 && i <= k
    ensures SliceStart(n, w, i) <= SliceStart(n, w, k)
  {
    if i < k {
      SliceStartMonotone(n, w, i, k - 1);
    }
  }

  /** The examples worker `i` of `w` receives under the intended split. */
  function SliceOf<T>(examples: seq<T>, w: nat, i: nat): (slice: seq<T>)
    requires w >= 1 && i < w
    ensures |slice| == SliceSize(|examples|, w, i)
    ensures forall e :: e in slice ==> e in examples
  {
    SliceStartCoversAll(|examples|, w);
    SliceStartMonotone(|examples|, w, i + 1, w);
    examples[SliceStart(|examples|, w, i)..SliceStart(|examples|, w, i + 1)]
  }

  /** The slices of all `w` workers, in worker order. */
  function Slices<T>(examples: seq<T>, w: nat): (slices: seq<seq<T>>)
    requires w >= 1
    ensures |slices| == w && forall i :: 0 <= i < w ==> slices[i] == SliceOf(examples, w, i)
  {
    seq(w, i requires 0 <= i < w => SliceOf(examples, w, i))
  }

  lemma {:induction false} ConcatSlicesPrefix<T>(examples: seq<T>, w: nat, i: nat)
    requires w >= 1 && i <= w
    ensures SliceStart(|examples|, w, i) <= |examples|
    ensures Concat(Slices(examples, w)[..i]) == examples[..SliceStart(|examples|, w, i)]
  {
    SliceStartCoversAll(|examples|, w);
    SliceStartMonotone(|examples|, w, i, w);
    if i > 0 {
      ConcatSlicesPrefix(examples, w, i - 1);
      var ss := Slices(examples, w)[..i];
      assert ss[..i - 1] == Slices(examples, w)[..i - 1];
    }
  }

  /** The intended slices, put back together in worker order, are the batch. */
  lemma ConcatSlices<T>(examples: seq<T>, w: nat)
    requires w >= 1
    ensures Concat(Slices(examples, w)) == examples
  {
    ConcatSlicesPrefix(examples, w, w);
    SliceStartCoversAll(|examples|, w);
    assert Slices(examples, w)[..w] == Slices(examples, w);
  }

  lemma MulSucc(i: nat, t: nat)
    ensures (i + 1) * t == i * t + t
  {
  }

  lemma MulMonotone(i: nat, k: nat, t: nat)
    requires i <= k
    ensures i * t <= k * t
  {
  }

  /** Splits `examples` among `threads` workers into contiguous slices, in
      order, the first `|examples| % threads` of them one example longer. */
  method Partition<T>(examples: seq<T>, threads: nat) returns (slices: seq<seq<T>>)
    requires threads >= 1
    ensures |slices| == threads
    ensures forall i :: 0 <= i < threads ==> |slices[i]| == SliceSize(|examples|, threads, i)
    ensures forall i, k :: 0 <= i < threads && 0 <= k < threads ==> |slices[i]| <= |slices[k]| + 1
    ensures slices == Slices(examples, threads)
    ensures Concat(slices) == examples
  {
    var n := |examples|;
    var examplesPerThread := n / threads;
    var threadsWithExtraExamples := n % threads;
    var example := 0;
    slices := [];
    for i := 0 to threads
      invariant |slices| == i
      invariant example == SliceStart(n, threads, i) <= n
      invariant slices == Slices(examples, threads)[..i]
    {
      SliceStartCoversAll(n, threads);
      SliceStartMonotone(n, threads, i + 1, threads);
      ghost var size := SliceSize(n, threads, i);
      assert size == examplesPerThread + if i < threadsWithExtraExamples then 1 else 0;
      assert example + size <= n;
      var start := example;
      var slice := [];
      var j := 0;
      while j < examplesPerThread || (j == examplesPerThread && i < threadsWithExtraExamples)
        invariant 0 <= j <= size
        invariant example == start + j
        invariant slice == examples[start..example]
        decreases size - j
      {
        slice := slice + [examples[example]];
        example := example + 1;
        j := j + 1;
      }
      assert slice == SliceOf(examples, threads, i);
      slices := slices + [slice];
    }
    assert slices == Slices(examples, threads)[..threads];
    ConcatSlices(examples, threads);
  }

  // The split as the code writes it: the extra-example test compares the
  // example counter `j` with the number of threads owed an extra example,
  // so every worker takes the same number of examples.

  /** The number of examples each worker takes under the written guard. */
  function TakenAsWritten(n: nat, w: nat): nat
    requires w >= 1
  {
    n / w + if n / w < n % w then 1 else 0
  }

  /** What the written split reads in all: `n - n % w` examples when
      `n / w >= n % w`, which drops `n % w` of them, and otherwise
      `w - n % w` more than there are. */
  lemma AsWrittenTotal(n: nat, w: nat)
    requires w >= 1
    ensures w * TakenAsWritten(n, w) == if n / w < n % w then n - n % w + w else n - n % w
  {
    var q, r := n / w, n % w;
    assert n == w * q + r;
    if q < r {
      assert w * (q + 1) == w * q + w;
    }
  }

  /** The written split assigns every example exactly when `n % w == 0`. */
  lemma AsWrittenCoversAllIff(n: nat, w: nat)
    requires w >= 1
    ensures w * TakenAsWritten(n, w) == n <==> n % w == 0
    ensures n % w != 0 && n / w >= n % w ==> w * TakenAsWritten(n, w) < n
    ensures n / w < n % w ==> w * TakenAsWritten(n, w) > n
  {
    AsWrittenTotal(n, w);
  }

  /** Five examples on two workers: each takes two and the fifth is never
      assigned. */
  lemma AsWrittenDropsAnExample()
    ensures TakenAsWritten(5, 2) == 2 && 2 * TakenAsWritten(5, 2) < 5
    ensures SliceSize(5, 2, 0) == 3 && SliceStart(5, 2, 2) == 5
  {
  }

  /** Five examples on three workers: each would take two, six reads in all. */
  lemma AsWrittenReadsPastTheEnd()
    ensures TakenAsWritten(5, 3) == 2 && 3 * TakenAsWritten(5, 3) > 5
  {
  }

  /** The split with the guard as written. The result is `None` when a worker
      would read past the last example (undefined behaviour in the code);
      otherwise every worker has `TakenAsWritten` consecutive examples, and
      together they cover a prefix of `examples`. */
  method PartitionAsWritten<T>(examples: seq<T>, threads: nat) returns (slices: Option<seq<seq<T>>>)
    requires threads >= 1
    ensures slices.None? <==> threads * TakenAsWritten(|examples|, threads) > |examples|
    ensures slices.Some? ==> |slices.value| == threads
    ensures slices.Some? ==> forall i :: 0 <= i < threads ==> |slices.value[i]| == TakenAsWritten(|examples|, threads)
    ensures slices.Some? ==> Concat(slices.value) == examples[..threads * TakenAsWritten(|examples|, threads)]
  {
    var n := |examples|;
    var examplesPerThread := n / threads;
    var threadsWithExtraExamples := n % threads;
    ghost var taken := TakenAsWritten(n, threads);
    var example := 0;
    var done: seq<seq<T>> := [];
    for i := 0 to threads
      invariant |done| == i
      invariant example == i * taken <= n
      invariant Concat(done) == examples[..example]
      invariant forall k :: 0 <= k < i ==> |done[k]| == taken
    {
      var start := example;
      var slice := [];
      var j := 0;
      while j < examplesPerThread || (j == examplesPerThread && j < threadsWithExtraExamples)
        invariant 0 <= j <= taken
        invariant example == start + j <= n
        invariant slice == examples[start..example]
        decreases taken - j
      {
        if example == n {
          // worker i would read trainingExamples[n]
          MulSucc(i, taken);
          MulMonotone(i + 1, threads, taken);
          return None;
        }
        slice := slice + [examples[example]];
        example := example + 1;
        j := j + 1;
      }
      MulSucc(i, taken);
      assert (done + [slice])[..i] == done;
      done := done + [slice];
    }
    MulMonotone(threads, threads, taken);
    slices := Some(done);
  }
}

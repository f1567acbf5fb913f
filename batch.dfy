/**
 * `processBatch(items, processor, batchSize, delay)`: hands the items to `processor` in
 * slices of `batchSize`, one slice per timer tick, and resolves after the last slice.
 *
 * The timers are a loop here: each iteration is one `batchProcessor(startIndex)` call. What
 * the method returns is the sequence of slices, every `processor` call as the element with
 * the index `forEach` passes (its index inside the slice), and whether the promise resolves.
 */
module Batching {
  const DEFAULT_BATCH_SIZE := 5

  function Min(a: int, b: int): int {
    if a <= b then a else b
  }

  function Max(a: int, b: int): int {
    if a >= b then a else b
  }

  /** The slices laid end to end. */
  function Flatten<T>(batches: seq<seq<T>>): seq<T> {
    if batches == [] then [] else Flatten(batches[..|batches| - 1]) + batches[|batches| - 1]
  }

  /** The processor calls for items handed over in slices of `size`: each item with its position in its slice. */
  function Calls<T>(items: seq<T>, size: int): (calls: seq<(T, int)>)
    requires size > 0
    ensures |calls| == |items|
    ensures forall i | 0 <= i < |items| :: calls[i] == (items[i], i % size)
  {
    seq(|items|, i requires 0 <= i < |items| => (items[i], i % size))
  }

  /** The calls `batch.forEach(processor)` makes: each element with its index in the batch. */
  function Indexed<T>(batch: seq<T>): (calls: seq<(T, int)>)
    ensures |calls| == |batch|
    ensures forall j | 0 <= j < |batch| :: calls[j] == (batch[j], j)
  {
    seq(|batch|, j requires 0 <= j < |batch| => (batch[j], j))
  }

  /** A multiple of a positive number that lies strictly between its negation and itself is zero. */
  lemma SmallMultipleIsZero(m: int, size: int)
    requires size > 0 && -size < m * size < size
    ensures m == 0
  {
  }

  /** The position of `start + j` inside its slice, for a slice starting at a multiple of `size`. */
  lemma PositionInSlice(k: nat, j: int, size: int)
    requires size > 0 && 0 <= j < size
    ensures (k * size + j) % size == j
  {
    var a := k * size + j;
    var q := a / size;
    assert a == q * size + a % size;
    assert (q - k) * size == j - a % size;
    SmallMultipleIsZero(q - k, size);
  }

  /** The calls of one more slice of at most `size` items, starting at the `k`-th multiple of `size`, extend the calls of the items before it. */
  lemma CallsExtend<T>(items: seq<T>, k: nat, end: int, size: int)
    requires size > 0 && k * size <= end <= |items| && end - k * size <= size
    ensures Calls(items[..k * size], size) + Indexed(items[k * size..end]) == Calls(items[..end], size)
  {
    var start := k * size;
    var lhs := Calls(items[..start], size) + Indexed(items[start..end]);
    forall i | start <= i < end
      ensures lhs[i] == (items[i], i % size)
    {
      PositionInSlice(k, i - start, size);
    }
  }

  /** Slices of `size` items, all full except possibly the last. */
  predicate Sliced<T>(batches: seq<seq<T>>, size: int) {
    && (forall k | 0 <= k < |batches| :: 0 < |batches[k]| <= size)
    && (forall k | 0 <= k < |batches| - 1 :: |batches[k]| == size)
  }

  /** Full slices of `size` items. */
  predicate AllFull<T>(batches: seq<seq<T>>, size: int) {
    forall k | 0 <= k < |batches| :: |batches[k]| == size
  }

  /** One more slice `items[start..end]` after slices covering `items[..start]` covers `items[..end]`. */
  lemma FlattenStep<T>(items: seq<T>, batches: seq<seq<T>>, start: int, end: int)
    requires 0 <= start <= end <= |items| && Flatten(batches) == items[..start]
    ensures Flatten(batches + [items[start..end]]) == items[..end]
  {
    assert (batches + [items[start..end]])[..|batches|] == batches;
    assert items[..end] == items[..start] + items[start..end];
  }

  /** A slice starting at the `k`-th multiple of `size` that is full ends at the next multiple. */
  lemma NextMultiple(k: nat, size: int)
    ensures (k + 1) * size == k * size + size
  {
  }

  /**
   * One `batchProcessor(start)` step after full slices: the next slice, `items[start..end]`
   * with `end` the smaller of `start + size` and the length, is non-empty and at most `size`
   * long, and it is full unless it reaches the end of the items.
   */
  lemma SliceStep<T>(items: seq<T>, batches: seq<seq<T>>, size: int, start: int, end: int)
    requires size > 0 && 0 <= start < |items| && AllFull(batches, size)
    requires end == Min(start + size, |items|)
    ensures Sliced(batches + [items[start..end]], size)
    ensures end < |items| ==> AllFull(batches + [items[start..end]], size)
  {
  }

  /** `batch.forEach(processor)`: one call per element, in order, with its index. */
  method ForEach<T>(batch: seq<T>) returns (calls: seq<(T, int)>)
    ensures calls == Indexed(batch)
  {
    calls := [];
    var j := 0;
    while j < |batch|
      invariant 0 <= j <= |batch|
      invariant calls == Indexed(batch[..j])
    {
      calls := calls + [(batch[j], j)];
      j := j + 1;
    }
    assert batch[..j] == batch;
  }

  /**
   * For a positive batch size every item is processed exactly once, in order, in slices of
   * exactly `batchSize` except possibly the last, and the promise resolves. An empty list
   * resolves at once. For a batch size of zero or less the first end index, `batchSize`,
   * never reaches the length, so the promise never resolves. A size of zero slices
   * `items.slice(0, 0)`, which is empty, again and again: no item is processed. A negative
   * size makes `slice` count the end from the back, so only `items[..|items| + batchSize]` is
   * processed, once; every later slice starts at or after its end and is empty.
   */
  method ProcessBatch<T>(items: seq<T>, batchSize: int) returns (resolved: bool, batches: seq<seq<T>>, calls: seq<(T, int)>)
    ensures items == [] ==> resolved && batches == [] && calls == []
    ensures items != [] && batchSize > 0 ==>
              && resolved
              && Flatten(batches) == items
              && (forall k | 0 <= k < |batches| :: 0 < |batches[k]| <= batchSize)
              && (forall k | 0 <= k < |batches| - 1 :: |batches[k]| == batchSize)
              && calls == Calls(items, batchSize)
    ensures items != [] && batchSize == 0 ==> !resolved && batches == [[]] && calls == []
    ensures items != [] && batchSize < 0 ==>
              && !resolved
              && batches == [items[..Max(0, |items| + batchSize)]]
              && calls == Indexed(items[..Max(0, |items| + batchSize)])
  {
    if |items| == 0 {
      return true, [], [];
    }
    if batchSize <= 0 {
      var first := if batchSize < 0 then items[..Max(0, |items| + batchSize)] else [];
      return false, [first], Indexed(first);
    }
    batches, calls := [], [];
    var start := 0;
    while start < |items|
      invariant 0 <= start <= |items|
      invariant start < |items| ==> start == |batches| * batchSize && AllFull(batches, batchSize)
      invariant Flatten(batches) == items[..start] && Sliced(batches, batchSize)
      invariant calls == Calls(items[..start], batchSize)
      decreases |items| - start
    {
      var end := Min(start + batchSize, |items|);
      var batch := items[start..end];
      var batchCalls := ForEach(batch);
      CallsExtend(items, |batches|, end, batchSize);
      SliceStep(items, batches, batchSize, start, end);
      FlattenStep(items, batches, start, end);
      NextMultiple(|batches|, batchSize);
      calls := calls + batchCalls;
      batches := batches + [batch];
      start := end;
    }
    resolved := true;
    assert items[..start] == items;
  }
}

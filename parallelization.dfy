/**
 * Splitting a list of questions into batches (`_get_question_batches` of
 * examples/parallelization.py).
 */
module Parallelization {
  import opened PyJson

  /** `s[lo:hi]` for non-negative bounds: each bound is clamped to the length, and a crossed range is empty. */
  function Slice<T>(s: seq<T>, lo: nat, hi: nat): (r: seq<T>)
    ensures lo <= hi <= |s| ==> r == s[lo..hi]
    ensures hi <= lo ==> r == []
  {
    var h := if hi <= |s| then hi else |s|;
    var l := if lo <= h then lo else h;
    s[l..h]
  }

  /** The batches laid end to end. */
  function Concat<T>(batches: seq<seq<T>>): seq<T> {
    if batches == [] then [] else batches[0] + Concat(batches[1..])
  }

  /** `ceil(n / size)` for a positive size. */
  function CeilDiv(n: nat, size: nat): nat
    requires size > 0
  {
    (n + size - 1) / size
  }

  lemma MulSucc(a: nat, b: nat)
    ensures (a + 1) * b == a * b + b
  {
  }

  lemma MulLe(a: int, b: int, c: nat)
    requires a <= b
    ensures a * c <= b * c
  {
  }

  /** `m` is the quotient of `x` by `d` when `x` lies in `[m * d, (m + 1) * d)`. */
  lemma DivUnique(x: nat, d: nat, m: nat)
    requires d > 0
    requires m * d <= x < m * d + d
    ensures x / d == m
  {
    var q, r := x / d, x % d;
    assert x == q * d + r && 0 <= r < d;
    if q < m {
      MulLe(q + 1, m, d);
      assert false;
    } else if q > m {
      MulLe(m + 1, q, d);
      assert false;
    }
  }

  /** `m` full batches cover `n` items and `m - 1` do not: then `m` is `ceil(n / size)`. */
  lemma CeilDivExact(n: nat, size: nat, m: nat)
    requires size > 0
    requires m * size >= n
    requires m == 0 || (m - 1) * size < n
    ensures m == CeilDiv(n, size)
  {
    if m > 0 {
      MulSucc(m - 1, size);
    }
    DivUnique(n + size - 1, size, m);
  }

  /**
   * The batches the loop of `_get_question_batches` appends from `index`
   * on: `questions[index:min(index + size, n)]`, then the batches from
   * `index + size`, until `index` reaches the end of the list.
   */
  function BatchesFrom<T>(questions: seq<T>, size: nat, index: nat): seq<seq<T>>
    requires size > 0
    decreases |questions| - index
  {
    if index >= |questions| then []
    else [Slice(questions, index, Min(index + size, |questions|))] + BatchesFrom(questions, size, index + size)
  }

  /** The batches from `index` lay out the rest of the list. */
  lemma {:induction false} ConcatBatchesFrom<T>(questions: seq<T>, size: nat, index: nat)
    requires size > 0 && index <= |questions|
    ensures Concat(BatchesFrom(questions, size, index)) == questions[index..]
    decreases |questions| - index
  {
    if index < |questions| {
      var hi := Min(index + size, |questions|);
      var rest := BatchesFrom(questions, size, index + size);
      var bs := BatchesFrom(questions, size, index);
      assert bs[1..] == rest;
      if index + size <= |questions| {
        ConcatBatchesFrom(questions, size, index + size);
      } else {
        assert rest == [];
      }
      assert questions[index..] == questions[index..hi] + questions[hi..];
    }
  }

  /** Every batch from `index` is non-empty and at most `size` long, and all but the last are full. */
  lemma {:induction false} BatchesFromSizes<T>(questions: seq<T>, size: nat, index: nat)
    requires size > 0
    ensures forall k :: 0 <= k < |BatchesFrom(questions, size, index)| ==> 0 < |BatchesFrom(questions, size, index)[k]| <= size
    ensures forall k :: 0 <= k < |BatchesFrom(questions, size, index)| - 1 ==> |BatchesFrom(questions, size, index)[k]| == size
    decreases |questions| - index
  {
    if index < |questions| {
      BatchesFromSizes(questions, size, index + size);
      var bs, rest := BatchesFrom(questions, size, index), BatchesFrom(questions, size, index + size);
      var hi := Min(index + size, |questions|);
      assert |bs[0]| == hi - index;
      if rest != [] {
        assert index + size < |questions|;
      }
      forall k | 0 <= k < |bs|
        ensures 0 < |bs[k]| <= size
        ensures k < |bs| - 1 ==> |bs[k]| == size
      {
        if k > 0 {
          assert bs[k] == rest[k - 1];
        }
      }
    }
  }

  /** There are `ceil((n - index) / size)` batches from `index`. */
  lemma {:induction false} BatchesFromCount<T>(questions: seq<T>, size: nat, index: nat)
    requires size > 0 && index <= |questions|
    ensures |BatchesFrom(questions, size, index)| * size >= |questions| - index
    ensures |BatchesFrom(questions, size, index)| == 0 || (|BatchesFrom(questions, size, index)| - 1) * size < |questions| - index
    decreases |questions| - index
  {
    if index < |questions| {
      var c := |BatchesFrom(questions, size, index + size)|;
      if index + size <= |questions| {
        BatchesFromCount(questions, size, index + size);
      } else {
        assert c == 0;
      }
      MulSucc(c, size);
    }
  }

  /** Batch `k` from `index` is the slice from `index + k * size`. */
  lemma {:induction false} BatchesFromIndex<T>(questions: seq<T>, size: nat, index: nat)
    requires size > 0
    ensures forall k :: 0 <= k < |BatchesFrom(questions, size, index)| ==>
      BatchesFrom(questions, size, index)[k] == Slice(questions, index + k * size, Min(index + k * size + size, |questions|))
    decreases |questions| - index
  {
    if index < |questions| {
      BatchesFromIndex(questions, size, index + size);
      var bs, rest := BatchesFrom(questions, size, index), BatchesFrom(questions, size, index + size);
      forall k | 0 <= k < |bs|
        ensures bs[k] == Slice(questions, index + k * size, Min(index + k * size + size, |questions|))
      {
        if k == 0 {
          assert k * size == 0;
        } else {
          assert bs[k] == rest[k - 1];
          MulSucc(k - 1, size);
          assert index + size + (k - 1) * size == index + k * size;
        }
      }
    }
  }

  /**
   * What `_get_question_batches` promises for a positive batch size: the
   * batches give back the list when laid end to end, there are
   * `ceil(n / size)` of them, each is non-empty and at most `size` long,
   * every one but the last is full, and batch `k` is the slice from
   * `k * size`.
   */
  lemma BatchesShape<T>(questions: seq<T>, size: nat)
    requires size > 0
    ensures var bs := BatchesFrom(questions, size, 0);
      && Concat(bs) == questions
      && |bs| == CeilDiv(|questions|, size)
      && (forall k :: 0 <= k < |bs| ==> 0 < |bs[k]| <= size)
      && (forall k :: 0 <= k < |bs| - 1 ==> |bs[k]| == size)
      && (forall k :: 0 <= k < |bs| ==> bs[k] == Slice(questions, k * size, Min(k * size + size, |questions|)))
  {
    ConcatBatchesFrom(questions, size, 0);
    assert questions[0..] == questions;
    BatchesFromCount(questions, size, 0);
    CeilDivExact(|questions|, size, |BatchesFrom(questions, size, 0)|);
    BatchesFromSizes(questions, size, 0);
    BatchesFromIndex(questions, size, 0);
  }

  /**
   * `_get_question_batches`: the loop over `range(0, len(questions),
   * batch_size)` appends `questions[index:min(index + batch_size, n)]`.
   * A zero batch size makes `range` raise ValueError and a negative one
   * gives an empty range, so no batch; otherwise the result is the
   * batches from index 0.
   */
  method GetQuestionBatches<T>(questions: seq<T>, batchSize: int) returns (r: Outcome<seq<seq<T>>>)
    ensures batchSize == 0 ==> r == Raised(ValueError)
    ensures batchSize < 0 ==> r == Returned([])
    ensures batchSize > 0 ==> r == Returned(BatchesFrom(questions, batchSize, 0))
  {
    if batchSize == 0 {
      return Raised(ValueError);
    }
    if batchSize < 0 {
      return Returned([]);
    }
    var n := |questions|;
    var batches: seq<seq<T>> := [];
    var index := 0;
    while index < n
      invariant batches + BatchesFrom(questions, batchSize, index) == BatchesFrom(questions, batchSize, 0)
    {
      var batch := Slice(questions, index, Min(index + batchSize, n));
      var rest := BatchesFrom(questions, batchSize, index + batchSize);
      assert BatchesFrom(questions, batchSize, index) == [batch] + rest;
      assert batches + [batch] + rest == batches + ([batch] + rest);
      batches := batches + [batch];
      index := index + batchSize;
    }
    assert batches + [] == batches;
    r := Returned(batches);
  }
}

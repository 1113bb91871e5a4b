/** The two pieces of bookkeeping every training loop of the repository
    shares: how the mini-batches are cut from a shuffled index list
    (src/sequential.cpp, src/sequential.h) and how correct predictions are
    counted for the accuracy figure. */
module Batching {
  import opened Outcomes
  import opened Arith
  import opened Matrices
  import TensorWrap

  // ---------------------------------------------------------------------------
  // Mini-batches
  // ---------------------------------------------------------------------------

  /** The loop bound `train_size - batch_size`, computed in `size_t`. */
  function LoopBound(train: nat, batch: nat): nat {
    (train - batch) % TensorWrap.SizeTModulus
  }

  /** The batches the loop `for (l = start; l < n - b; l += b)` copies out of
      `order`, where `n` is the length of `order`: `order[l .. l+b)` for every
      start it visits. */
  function BatchesFrom(order: seq<int>, b: nat, l: nat): seq<seq<int>>
    requires 0 < b
    decreases |order| - l
  {
    if l < |order| - b then [order[l .. l + b]] + BatchesFrom(order, b, l + b) else []
  }

  /** All batches of one epoch. */
  function Batches(order: seq<int>, b: nat): seq<seq<int>>
    requires 0 < b
  {
    BatchesFrom(order, b, 0)
  }

  /** When there are at least `b` samples the bound does not wrap. */
  lemma LoopBoundExact(train: nat, batch: nat)
    requires batch <= train < TensorWrap.SizeTModulus
    ensures LoopBound(train, batch) == train - batch
  {
  }

  /** With fewer samples than one batch the bound wraps around to a huge
      value, so the loop enters with `l = 0` and copies `b` indices from a
      list that has fewer. */
  lemma ShortTrainingSetOverruns(train: nat, batch: nat)
    requires train < batch < TensorWrap.SizeTModulus
    ensures 0 < LoopBound(train, batch) && 0 + batch > train
  {
    DivModUnique(train - batch, TensorWrap.SizeTModulus, -1, train - batch + TensorWrap.SizeTModulus);
  }

  /** Batch `k` starting from offset `l` is `order[l + k*b .. l + k*b + b)`,
      and it ends strictly before the end of the list. */
  lemma {:induction false} BatchAt(order: seq<int>, b: nat, l: nat, k: nat)
    requires 0 < b <= |order|
    requires k < |BatchesFrom(order, b, l)|
    ensures l + k * b + b < |order|
    ensures BatchesFrom(order, b, l)[k] == order[l + k * b .. l + k * b + b]
    decreases k
  {
    if k > 0 {
      BatchAt(order, b, l + b, k - 1);
      assert l + b + (k - 1) * b == l + k * b;
    }
  }

  /** The loop test `l < n - b` at `l = l0 + k*b` holds exactly when batch
      `k` (counting from `l0`) exists. */
  lemma {:induction false} BatchesFromRuns(order: seq<int>, b: nat, l: nat, k: nat)
    requires 0 < b <= |order|
    ensures k < |BatchesFrom(order, b, l)| <==> l + k * b < |order| - b
    decreases k
  {
    if k > 0 && l < |order| - b {
      BatchesFromRuns(order, b, l + b, k - 1);
      assert l + b + (k - 1) * b == l + k * b;
    } else if k > 0 {
      assert k * b >= 0;
    }
  }

  /** The SGD loop runs batch `k`, at `l = k*b`, exactly when it exists. */
  lemma BatchRuns(order: seq<int>, b: nat, k: nat)
    requires 0 < b <= |order|
    ensures k < |Batches(order, b)| <==> k * b < |order| - b
  {
    BatchesFromRuns(order, b, 0, k);
  }

  /** The result of `std::shuffle` on `0, 1, ..., n-1`: every index below `n`
      exactly once. */
  predicate IsShuffle(order: seq<int>, n: nat) {
    && |order| == n
    && (forall i | 0 <= i < n :: 0 <= order[i] < n)
    && (forall i, j | 0 <= i < j < n :: order[i] != order[j])
  }

  /** Every index a batch selects is a sample index below `n`. */
  lemma BatchesInRange(order: seq<int>, b: nat, n: nat)
    requires IsShuffle(order, n) && 0 < b <= n
    ensures forall k, e | 0 <= k < |Batches(order, b)| && e in Batches(order, b)[k] :: 0 <= e < n
  {
    forall k, e | 0 <= k < |Batches(order, b)| && e in Batches(order, b)[k] ensures 0 <= e < n {
      BatchAt(order, b, 0, k);
    }
  }

  /** From an offset `l` below the end, the loop runs `(n - l - 1) / b`
      times. */
  lemma {:induction false} BatchesFromCount(order: seq<int>, b: nat, l: nat)
    requires 0 < b <= |order| && l < |order|
    ensures |BatchesFrom(order, b, l)| == (|order| - l - 1) / b
    decreases |order| - l
  {
    var n := |order|;
    if l < n - b {
      BatchesFromCount(order, b, l + b);
      var x := n - l - b - 1;
      DivModUnique(x + b, b, x / b + 1, x % b);
    } else {
      DivModUnique(n - l - 1, b, 0, n - l - 1);
    }
  }

  /** One epoch runs `(n - 1) / b` batches and leaves between 1 and `b`
      samples unused at the end of the shuffled list. */
  lemma BatchCount(order: seq<int>, b: nat)
    requires 0 < b <= |order|
    ensures |Batches(order, b)| == (|order| - 1) / b
    ensures 1 <= |order| - |Batches(order, b)| * b <= b
  {
    BatchesFromCount(order, b, 0);
    var n := |order|;
    ModRange(n - 1, b);
  }

  lemma ModRange(x: int, b: int)
    requires x >= 0 && b > 0
    ensures 0 <= x - (x / b) * b < b
  {
  }

  /** When `b` divides the sample count `m*b`, only `m - 1` of the `m` full
      batches run: the last full batch is never used. */
  lemma LastFullBatchDropped(order: seq<int>, b: nat, m: nat)
    requires 0 < b && m > 0 && |order| == m * b
    ensures |Batches(order, b)| == m - 1
  {
    MulAtLeast(m, b);
    BatchCount(order, b);
    assert m * b - 1 == (m - 1) * b + (b - 1);
    DivModUnique(m * b - 1, b, m - 1, b - 1);
  }

  /** Different batches cover disjoint stretches of the list, so when the
      list holds each sample index once no index is in two batches. */
  lemma BatchesDisjoint(order: seq<int>, b: nat, k1: nat, k2: nat)
    requires 0 < b <= |order|
    requires forall i, j | 0 <= i < j < |order| :: order[i] != order[j]
    requires k1 < k2 < |Batches(order, b)|
    ensures forall x | x in Batches(order, b)[k1] :: x !in Batches(order, b)[k2]
  {
    BatchAt(order, b, 0, k1);
    BatchAt(order, b, 0, k2);
    MulAtLeast(k2 - k1, b);
    assert k1 * b + b <= k2 * b by {
      assert k2 * b - k1 * b == (k2 - k1) * b;
    }
    var s1 := order[k1 * b .. k1 * b + b];
    var s2 := order[k2 * b .. k2 * b + b];
    forall x | x in s1 ensures x !in s2 {
      var i :| 0 <= i < b && s1[i] == x;
      forall j | 0 <= j < b ensures s2[j] != x {
        assert s2[j] == order[k2 * b + j] && x == order[k1 * b + i];
      }
    }
  }

  // ---------------------------------------------------------------------------
  // Counting correct predictions
  // ---------------------------------------------------------------------------

  /** `static_cast<int>(x)`: rounds toward zero. */
  function Trunc(x: real): (n: int)
    ensures x >= 0.0 ==> n as real <= x < n as real + 1.0
    ensures x < 0.0 ==> n as real - 1.0 < x <= n as real
  {
    if x >= 0.0 then x.Floor else -((-x).Floor)
  }

  /** Number of positions where the two label lists agree. */
  function Matches(predicted: seq<int>, expected: seq<int>): nat
    requires |predicted| == |expected|
  {
    if |predicted| == 0 then 0
    else Matches(predicted[..|predicted| - 1], expected[..|expected| - 1])
         + (if predicted[|predicted| - 1] == expected[|expected| - 1] then 1 else 0)
  }

  /** The agreeing positions. */
  function Agreeing(predicted: seq<int>, expected: seq<int>): set<int>
    requires |predicted| == |expected|
  {
    set i | 0 <= i < |predicted| && predicted[i] == expected[i]
  }

  /** The count is the number of agreeing positions. */
  lemma {:induction false} MatchesCountsAgreeing(predicted: seq<int>, expected: seq<int>)
    requires |predicted| == |expected|
    ensures Matches(predicted, expected) == |Agreeing(predicted, expected)|
    decreases |predicted|
  {
    var n := |predicted|;
    if n == 0 {
      assert Agreeing(predicted, expected) == {};
    } else {
      var p, e := predicted[..n - 1], expected[..n - 1];
      MatchesCountsAgreeing(p, e);
      var earlier := Agreeing(p, e);
      assert Agreeing(predicted, expected)
        == earlier + (if predicted[n - 1] == expected[n - 1] then {n - 1} else {});
      assert n - 1 !in earlier;
    }
  }

  /** The count lies between 0 and the number of samples, and it is the
      number of samples exactly when every prediction is right. */
  lemma {:induction false} MatchesAllIff(predicted: seq<int>, expected: seq<int>)
    requires |predicted| == |expected|
    ensures Matches(predicted, expected) <= |predicted|
    ensures Matches(predicted, expected) == |predicted| <==> predicted == expected
    decreases |predicted|
  {
    var n := |predicted|;
    if n > 0 {
      var p, e := predicted[..n - 1], expected[..n - 1];
      MatchesAllIff(p, e);
      if predicted == expected {
        assert p == e;
      }
      if Matches(predicted, expected) == n {
        assert p == e && predicted[n - 1] == expected[n - 1];
        assert predicted == p + [predicted[n - 1]];
        assert expected == e + [expected[n - 1]];
      }
    }
  }

  /** The predicted label of every column of `pred`: the row of its first
      largest entry. */
  function PredictedLabels(pred: Matrix): (labels: seq<int>)
    requires pred.rows > 0
    ensures |labels| == pred.cols
    ensures forall i | 0 <= i < pred.cols :: 0 <= labels[i] < pred.rows
  {
    seq(pred.cols, i => ArgMaxColumn(pred, i, pred.rows))
  }

  /** The counting loop of `accuracy`: one comparison of the predicted label
      with the expected label per column. */
  method CountCorrect(pred: Matrix, expected: seq<int>) returns (sum: int)
    requires pred.rows > 0 && |expected| == pred.cols
    ensures sum == Matches(PredictedLabels(pred), expected)
    ensures 0 <= sum <= pred.cols
  {
    var predicted := PredictedLabels(pred);
    sum := 0;
    for i := 0 to pred.cols
      invariant sum == Matches(predicted[..i], expected[..i])
    {
      var guess := ArgMaxColumn(pred, i, pred.rows);
      assert predicted[..i + 1][..i] == predicted[..i];
      assert expected[..i + 1][..i] == expected[..i];
      sum := sum + (if expected[i] == guess then 1 else 0);
    }
    assert predicted[..pred.cols] == predicted;
    assert expected[..pred.cols] == expected;
    MatchesAllIff(predicted, expected);
  }

  /** `static_cast<float>(sum) / static_cast<float>(test_size)`; `None`
      stands for the non-number of an empty test set. */
  function Ratio(sum: int, total: int): (r: Option<real>)
    ensures r.Some? <==> total != 0
    ensures 0 <= sum <= total && total != 0 ==> 0.0 <= r.value <= 1.0
    ensures total != 0 && sum == total ==> r.value == 1.0
  {
    if total == 0 then None else Some(sum as real / total as real)
  }
}

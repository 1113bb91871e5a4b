/** The offset arithmetic and the shuffle that the three batch readers share:
    a reader hands out iterators at offsets `0, batch, 2*batch, ...` into its
    record array, stops them at an `end()` offset, and `reset()` reorders the
    records in place with `std::shuffle`. */
module BatchReading {
  import opened Arith

  // ---------------------------------------------------------------------------
  // The stop offset of `end()`
  // ---------------------------------------------------------------------------

  /** `end()` as written: with `misal = total % batch`, the stop offset is
      `total` when `misal == 0` and `total - batch + misal` otherwise. */
  function EndAsWritten(total: nat, batch: int): int
    requires batch > 0
  {
    var misal := total % batch;
    if misal == 0 then total else total - batch + misal
  }

  /** An iterator that starts at offset 0 and advances by `batch` lands on
      the as-written stop offset only when the record count is a multiple of
      the batch or its remainder is exactly half a batch. */
  lemma AsWrittenReachedOnlyIf(total: nat, batch: int, k: nat)
    requires batch > 0 && k * batch == EndAsWritten(total, batch)
    ensures total % batch == 0 || 2 * (total % batch) == batch
  {
    var q, m := total / batch, total % batch;
    if m != 0 {
      // The stop offset is `(q - 1) * batch + 2m`, so `2m` is a multiple of
      // the batch strictly between 0 and `2 * batch`.
      assert (k - q) * batch == 2 * m - batch;
      SmallMultipleIsZero(k - q, batch);
    }
  }

  /** In both of those cases the iterator lands on the stop offset after
      `total / batch` steps. */
  lemma AsWrittenReachedIf(total: nat, batch: int)
    requires batch > 0 && (total % batch == 0 || 2 * (total % batch) == batch)
    ensures (total / batch) * batch == EndAsWritten(total, batch)
  {
  }

  /** With 10 records in batches of 3 the stop offset is 8, which no number
      of steps reaches: the iterator passes from offset 6 to offset 9 and the
      following batch reads records 9, 10 and 11 of a 10-record array. */
  lemma TenByThreeNeverStops(k: nat)
    ensures EndAsWritten(10, 3) == 8
    ensures k * 3 != EndAsWritten(10, 3)
  {
    if k * 3 == EndAsWritten(10, 3) {
      AsWrittenReachedOnlyIf(10, 3, k);
    }
  }

  /** The stop offset evidently intended: just after the last full batch,
      `total - total % batch`. It agrees with the as-written offset exactly in
      the cases where that one is reached. */
  function StopOffset(total: nat, batch: int): (r: nat)
    requires batch > 0
    ensures r <= total && total - r < batch
    ensures r == EndAsWritten(total, batch) <==> total % batch == 0 || 2 * (total % batch) == batch
  {
    total - total % batch
  }

  /** From offset 0 in steps of `batch` the iterator meets the stop offset
      at step `total / batch` and at no other step, and every batch it
      visits before that lies inside the record array. */
  lemma StopReached(total: nat, batch: int, k: nat)
    requires batch > 0
    ensures k * batch == StopOffset(total, batch) <==> k == total / batch
    ensures k < total / batch ==> k * batch + batch <= total
  {
    var q := total / batch;
    if k * batch == StopOffset(total, batch) {
      assert k * batch == q * batch;
      MulCancel(k, q, batch);
    }
    if k < q {
      MulAtLeast(q - k, batch);
      assert (q - k) * batch == q * batch - k * batch;
    }
  }

  // ---------------------------------------------------------------------------
  // The shuffle of `reset()`
  // ---------------------------------------------------------------------------

  /** One `iter_swap` of entries `i` and `j`. */
  function Swap<T>(s: seq<T>, i: int, j: int): (r: seq<T>)
    requires 0 <= i < |s| && 0 <= j < |s|
    ensures |r| == |s| && r[i] == s[j] && r[j] == s[i]
    ensures forall k | 0 <= k < |s| && k != i && k != j :: r[k] == s[k]
  {
    s[i := s[j]][j := s[i]]
  }

  /** A swap only reorders the entries. */
  lemma SwapPermutes<T>(s: seq<T>, i: int, j: int)
    requires 0 <= i < |s| && 0 <= j < |s|
    ensures multiset(Swap(s, i, j)) == multiset(s)
  {
    var t := s[i := s[j]];
    assert multiset(t) == multiset(s) - multiset{s[i]} + multiset{s[j]};
    assert multiset(t[j := s[i]]) == multiset(t) - multiset{t[j]} + multiset{s[i]};
  }

  /** The random draws of one Fisher-Yates pass over `n` entries: the pass
      exchanges entry `k` with entry `picks[k]` drawn from `[0, k]`. */
  predicate Picks(picks: seq<int>, n: nat) {
    |picks| == n && forall k | 0 <= k < n :: 0 <= picks[k] <= k
  }

  /** The entries after the first `i` exchanges of the pass (the exchange at
      `k == 0` is the identity, where `std::shuffle` starts at 1). */
  function ShuffledUpTo<T>(s: seq<T>, picks: seq<int>, i: nat): (r: seq<T>)
    requires Picks(picks, |s|) && i <= |s|
    ensures |r| == |s| && multiset(r) == multiset(s)
  {
    if i == 0 then s
    else
      var t := ShuffledUpTo(s, picks, i - 1);
      SwapPermutes(t, i - 1, picks[i - 1]);
      Swap(t, i - 1, picks[i - 1])
  }

  /** The entries after the whole pass: a permutation of `s`. */
  function Shuffled<T>(s: seq<T>, picks: seq<int>): (r: seq<T>)
    requires Picks(picks, |s|)
    ensures |r| == |s| && multiset(r) == multiset(s)
  {
    ShuffledUpTo(s, picks, |s|)
  }

  /** `std::shuffle` over the whole array, the random engine's draws given
      as `picks`. */
  method Shuffle<T>(s: seq<T>, picks: seq<int>) returns (r: seq<T>)
    requires Picks(picks, |s|)
    ensures r == Shuffled(s, picks)
  {
    r := s;
    for i := 0 to |s|
      invariant r == ShuffledUpTo(s, picks, i)
    {
      r := r[i := r[picks[i]]][picks[i] := r[i]];
    }
  }

  // ---------------------------------------------------------------------------
  // The reader base
  // ---------------------------------------------------------------------------

  /** The common reader over records of type `T`: the record array, the batch
      size and the record count. Iterators are represented by their offset
      into `paths`; building one is left to the concrete reader. */
  class BatchReader<T> {
    var paths: seq<T>
    var batch: int
    var totalSize: int

    /** Stores the batch size; the record array starts empty and the count
      is whatever the concrete reader sets. */
    constructor(batch: int)
      ensures this.batch == batch && paths == []
    {
      this.batch := batch;
      paths := [];
    }

    /** `begin()`: the iterator at the first record. */
    method Begin() returns (offset: int)
      ensures offset == 0
    {
      offset := 0;
    }

    /** `end()`, stopping at `StopOffset` (the offset `EndAsWritten` computes
      is off the iterator's path unless the remainder is 0 or half a batch):
      the stop offset lies on that path. */
    method End() returns (offset: int)
      requires batch > 0 && totalSize >= 0
      ensures offset == StopOffset(totalSize, batch) && offset % batch == 0
    {
      offset := totalSize - totalSize % batch;
      DivModUnique(offset, batch, totalSize / batch, 0);
    }

    /** `reset()`: shuffles the records in place. */
    method Reset(picks: seq<int>)
      requires Picks(picks, |paths|)
      modifies this
      ensures paths == Shuffled(old(paths), picks) && multiset(paths) == multiset(old(paths))
      ensures batch == old(batch) && totalSize == old(totalSize)
    {
      paths := Shuffle(paths, picks);
    }
  }
}

/**
 * Cumulative offset indices of a ragged append store. After batch k has been
 * appended, the index holds the total row count of batches 0..k, so batch k
 * occupies rows [idx[k-1], idx[k]) of the column (with idx[-1] taken as 0).
 */
module Offsets {
  import opened Seqs

  /** Running totals: entry k is the number of rows contributed by batches 0..k. */
  function Cumulative(sizes: seq<nat>): (idx: seq<nat>)
    ensures |idx| == |sizes|
  {
    if sizes == [] then [] else Cumulative(sizes[..|sizes| - 1]) + [Sum(sizes)]
  }

  /** First row of batch k: the previous offset, or 0 for the first batch. */
  function BatchStart(idx: seq<nat>, k: nat): nat
    requires k <= |idx|
  {
    if k == 0 then 0 else idx[k - 1]
  }

  /** Batch k's bounds lie inside a column of `rows` rows and are in order. */
  predicate BatchInRange(idx: seq<nat>, k: nat, rows: nat)
  {
    k < |idx| && BatchStart(idx, k) <= idx[k] <= rows
  }

  /** The rows of batch k, cut out of a column by its offset index. */
  function GetBatch<T>(column: seq<T>, idx: seq<nat>, k: nat): seq<T>
    requires BatchInRange(idx, k, |column|)
  {
    column[BatchStart(idx, k)..idx[k]]
  }

  /** Every pair of entries is ordered like its positions. */
  predicate NonDecreasing(idx: seq<nat>)
  {
    forall j, k :: 0 <= j <= k < |idx| ==> idx[j] <= idx[k]
  }

  /** Appending one batch pushes the new total onto the index. */
  lemma CumulativeAppend(sizes: seq<nat>, n: nat)
    ensures Cumulative(sizes + [n]) == Cumulative(sizes) + [Sum(sizes) + n]
  {
    assert (sizes + [n])[..|sizes|] == sizes;
  }

  /** Entry k of the index is the total of the first k + 1 batch sizes. */
  lemma {:induction false} CumulativeAt(sizes: seq<nat>, k: nat)
    requires k < |sizes|
    ensures Cumulative(sizes)[k] == Sum(sizes[..k + 1])
    decreases |sizes|
  {
    var n := |sizes|;
    if k == n - 1 {
      assert sizes[..k + 1] == sizes;
    } else {
      var front := sizes[..n - 1];
      CumulativeAt(front, k);
      assert front[..k + 1] == sizes[..k + 1];
    }
  }

  /** idx[k] - idx[k-1] (with idx[-1] == 0) is the size of batch k. */
  lemma CumulativeStep(sizes: seq<nat>, k: nat)
    requires k < |sizes|
    ensures Cumulative(sizes)[k] == BatchStart(Cumulative(sizes), k) + sizes[k]
  {
    CumulativeAt(sizes, k);
    assert sizes[..k + 1][..k] == sizes[..k];
    if k > 0 {
      CumulativeAt(sizes, k - 1);
    }
  }

  /** The offset index never decreases; a zero-size batch repeats the previous offset. */
  lemma CumulativeNonDecreasing(sizes: seq<nat>)
    ensures NonDecreasing(Cumulative(sizes))
  {
    var idx := Cumulative(sizes);
    forall j, k | 0 <= j <= k < |idx|
      ensures idx[j] <= idx[k]
    {
      CumulativeMonotone(sizes, j, k);
    }
  }

  lemma {:induction false} CumulativeMonotone(sizes: seq<nat>, j: nat, k: nat)
    requires j <= k < |sizes|
    ensures Cumulative(sizes)[j] <= Cumulative(sizes)[k]
    decreases k - j
  {
    if j < k {
      CumulativeMonotone(sizes, j, k - 1);
      CumulativeStep(sizes, k);
    }
  }

  /** The last offset is the total row count of all batches. */
  lemma CumulativeLast(sizes: seq<nat>)
    requires sizes != []
    ensures Cumulative(sizes)[|sizes| - 1] == Sum(sizes)
  {
  }

  /**
   * Batch recovery: for a column built by appending the parts in order and
   * its cumulative index, slice k of the column is part k.
   */
  lemma BatchRecovery<T>(parts: seq<seq<T>>, k: nat)
    requires k < |parts|
    ensures BatchInRange(Cumulative(Sizes(parts)), k, |Concat(parts)|)
    ensures GetBatch(Concat(parts), Cumulative(Sizes(parts)), k) == parts[k]
  {
    var idx := Cumulative(Sizes(parts));
    var column := Concat(parts);
    var before, upto := parts[..k], parts[..k + 1];
    // the column is the first k parts, then part k, then the rest
    assert parts == upto + parts[k + 1..];
    ConcatSplit(upto, parts[k + 1..]);
    assert upto[..k] == before;
    assert Concat(upto) == Concat(before) + parts[k];
    // the offsets are the lengths of the first k and k + 1 parts
    CumulativeAt(Sizes(parts), k);
    SizesPrefix(parts, k + 1);
    ConcatLength(upto);
    assert idx[k] == |Concat(upto)|;
    if k > 0 {
      CumulativeAt(Sizes(parts), k - 1);
      SizesPrefix(parts, k);
      ConcatLength(before);
      assert BatchStart(idx, k) == |Concat(before)|;
    }
    ConcatLength(parts);
    assert column[BatchStart(idx, k)..idx[k]] == parts[k];
  }

  /** The offset of every batch is the cumulative count, and the last one is the column length. */
  lemma IndexMatchesColumn<T>(parts: seq<seq<T>>)
    requires parts != []
    ensures Cumulative(Sizes(parts))[|parts| - 1] == |Concat(parts)|
  {
    ConcatLength(parts);
  }

  /** Batches of sizes [3, 0, 5, 2] give the index [3, 3, 8, 10]. */
  lemma ExampleIndex()
    ensures Cumulative([3, 0, 5, 2]) == [3, 3, 8, 10]
  {
    CumulativeAppend([], 3);
    CumulativeAppend([3], 0);
    CumulativeAppend([3, 0], 5);
    CumulativeAppend([3, 0, 5], 2);
    assert [3, 0][..1] == [3];
    assert [3, 0, 5][..2] == [3, 0];
    assert [3, 0, 5, 2][..3] == [3, 0, 5];
  }

  /** With that index, batch 1 is empty and batch 2 is the five rows at [3, 8). */
  lemma ExampleBatches<T>(column: seq<T>)
    requires |column| == 10
    ensures BatchInRange([3, 3, 8, 10], 1, |column|) && GetBatch(column, [3, 3, 8, 10], 1) == []
    ensures BatchInRange([3, 3, 8, 10], 2, |column|) && GetBatch(column, [3, 3, 8, 10], 2) == column[3..8]
  {
  }
}

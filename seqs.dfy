/**
 * Sequence helpers for ragged data: concatenating variable-length parts,
 * the sizes of the parts, and cutting a flat sequence back into equal-width
 * chunks (the row-major flattening used by numpy's ravel and reshape).
 */
module Seqs {

  /** The parts laid end to end, in order. */
  function Concat<T>(parts: seq<seq<T>>): seq<T>
  {
    if parts == [] then [] else Concat(parts[..|parts| - 1]) + parts[|parts| - 1]
  }

  /** Total of a sequence of counts. */
  function Sum(s: seq<nat>): nat
  {
    if s == [] then 0 else Sum(s[..|s| - 1]) + s[|s| - 1]
  }

  /** The length of each part. */
  function Sizes<T>(parts: seq<seq<T>>): seq<nat>
  {
    seq(|parts|, i requires 0 <= i < |parts| => |parts[i]|)
  }

  /** Every part has exactly `w` elements. */
  predicate Uniform<T>(parts: seq<seq<T>>, w: nat)
  {
    forall i :: 0 <= i < |parts| ==> |parts[i]| == w
  }

  /** Cuts `s`, which holds `n` rows of width `w` back to back, into those rows. */
  function Chunks<T>(s: seq<T>, n: nat, w: nat): (rows: seq<seq<T>>)
    requires |s| == n * w
    ensures |rows| == n && Uniform(rows, w)
  {
    if n == 0 then []
    else
      assert n * w == (n - 1) * w + w;
      Chunks(s[..(n - 1) * w], n - 1, w) + [s[(n - 1) * w..]]
  }

  lemma ConcatAppend<T>(parts: seq<seq<T>>, last: seq<T>)
    ensures Concat(parts + [last]) == Concat(parts) + last
  {
    assert (parts + [last])[..|parts|] == parts;
  }

  /** Concatenation distributes over appending sequences of parts. */
  lemma {:induction false} ConcatSplit<T>(a: seq<seq<T>>, b: seq<seq<T>>)
    ensures Concat(a + b) == Concat(a) + Concat(b)
    decreases |b|
  {
    if b == [] {
      assert a + b == a;
    } else {
      var b' := b[..|b| - 1];
      assert (a + b)[..|a + b| - 1] == a + b';
      ConcatSplit(a, b');
    }
  }

  /** Taking one more part extends the concatenation by that part, and stays a prefix of the whole. */
  lemma {:induction false} ConcatPrefix<T>(parts: seq<seq<T>>, j: nat)
    requires j < |parts|
    ensures Concat(parts[..j + 1]) == Concat(parts[..j]) + parts[j]
    ensures Concat(parts[..j + 1]) <= Concat(parts)
  {
    var pre, rest := parts[..j + 1], parts[j + 1..];
    assert pre[..|pre| - 1] == parts[..j] && pre[|pre| - 1] == parts[j];
    assert parts == pre + rest;
    ConcatSplit(pre, rest);
  }

  /** The length of a concatenation is the total of the part sizes. */
  lemma {:induction false} ConcatLength<T>(parts: seq<seq<T>>)
    ensures |Concat(parts)| == Sum(Sizes(parts))
    decreases |parts|
  {
    if parts != [] {
      var front := parts[..|parts| - 1];
      assert Sizes(parts)[..|parts| - 1] == Sizes(front);
      ConcatLength(front);
    }
  }

  /** Sizes commutes with taking a prefix. */
  lemma SizesPrefix<T>(parts: seq<seq<T>>, k: nat)
    requires k <= |parts|
    ensures Sizes(parts)[..k] == Sizes(parts[..k])
  {
  }

  /** The parts of width `w` concatenate to `|rows| * w` elements, row `i` at offset `i * w`. */
  lemma {:induction false} ConcatUniformIndex<T>(rows: seq<seq<T>>, w: nat, i: nat, j: nat)
    requires Uniform(rows, w)
    requires i < |rows| && j < w
    ensures |Concat(rows)| == |rows| * w
    ensures i * w + j < |Concat(rows)| && Concat(rows)[i * w + j] == rows[i][j]
    decreases |rows|
  {
    var n := |rows|;
    var front := rows[..n - 1];
    ConcatUniformLength(front, w);
    assert n * w == (n - 1) * w + w;
    if i < n - 1 {
      ConcatUniformIndex(front, w, i, j);
      assert i * w + j < (n - 1) * w by {
        assert i * w <= (n - 2) * w by { MulMono(i, n - 2, w); }
        assert (n - 2) * w + w == (n - 1) * w;
      }
    } else {
      assert i * w == (n - 1) * w;
    }
  }

  /** The concatenation of `n` rows of width `w` has `n * w` elements. */
  lemma {:induction false} ConcatUniformLength<T>(rows: seq<seq<T>>, w: nat)
    requires Uniform(rows, w)
    ensures |Concat(rows)| == |rows| * w
    decreases |rows|
  {
    if rows != [] {
      var n := |rows|;
      ConcatUniformLength(rows[..n - 1], w);
      assert n * w == (n - 1) * w + w;
    }
  }

  lemma MulMono(a: nat, b: nat, w: nat)
    requires a <= b
    ensures a * w <= b * w
  {
  }

  /** Cutting a concatenation of equal-width rows gives the rows back. */
  lemma {:induction false} ChunksConcat<T>(rows: seq<seq<T>>, w: nat)
    requires Uniform(rows, w)
    ensures |Concat(rows)| == |rows| * w
    ensures Chunks(Concat(rows), |rows|, w) == rows
    decreases |rows|
  {
    ConcatUniformLength(rows, w);
    if rows != [] {
      var n := |rows|;
      var front := rows[..n - 1];
      ConcatUniformLength(front, w);
      ChunksConcat(front, w);
      assert Concat(rows) == Concat(front) + rows[n - 1];
      assert Concat(rows)[..(n - 1) * w] == Concat(front);
      assert Concat(rows)[(n - 1) * w..] == rows[n - 1];
    }
  }

  /** Concatenating the chunks of `s` gives `s` back. */
  lemma {:induction false} ConcatChunks<T>(s: seq<T>, n: nat, w: nat)
    requires |s| == n * w
    ensures Concat(Chunks(s, n, w)) == s
    decreases n
  {
    if n > 0 {
      assert n * w == (n - 1) * w + w;
      var rows := Chunks(s, n, w);
      ConcatChunks(s[..(n - 1) * w], n - 1, w);
      assert rows[..n - 1] == Chunks(s[..(n - 1) * w], n - 1, w);
      assert s == s[..(n - 1) * w] + s[(n - 1) * w..];
    }
  }
}

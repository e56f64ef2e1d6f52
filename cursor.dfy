/**
 * The navigation protocol shared by the four ROOT readers (events, PDFs,
 * angle lists, Gaussian angle fits): a position `i` that starts before the
 * first entry (-1), moved by next/prev/jump_to, read by current/index, and a
 * separate full scan that never touches `i`. The readers differ only in how
 * an entry is decoded, so the model is one class over the stored entries and
 * a decoding function.
 */
module Cursor {
  import opened Wrappers

  /** What the readers raise: StopIteration from next/prev, IndexError from jump_to. */
  datatype CursorError = StopIteration | IndexError

  /** One cursor move: the new position and the entry read, or None when the move raised. */
  datatype Move = Move(pos: int, read: Option<int>)

  /** next() over `n` entries from position `i`. */
  function NextMove(n: nat, i: int): (m: Move)
    ensures m.read.Some? <==> i + 1 < n
    ensures m.read.Some? ==> m.pos == i + 1 && m.read.value == m.pos
    ensures m.read.None? ==> m.pos == i
  {
    if i + 1 >= n then Move(i, None) else Move(i + 1, Some(i + 1))
  }

  /** prev() from position `i`; at or before the first entry it resets to -1 and raises. */
  function PrevMove(i: int): (m: Move)
    ensures m.read.Some? <==> i > 0
    ensures m.read.Some? ==> m.pos == i - 1 && m.read.value == m.pos
    ensures m.read.None? ==> m.pos == -1
  {
    if i <= 0 then Move(-1, None) else Move(i - 1, Some(i - 1))
  }

  /** jump_to(k) over `n` entries from position `i`. */
  function JumpMove(n: nat, i: int, k: int): (m: Move)
    ensures m.read.Some? <==> 0 <= k < n
    ensures m.read.Some? ==> m.pos == k && m.read.value == k
    ensures m.read.None? ==> m.pos == i
  {
    if k < 0 || k >= n then Move(i, None) else Move(k, Some(k))
  }

  /** The entries read by `calls` successive moves of next() from `i`, and the final position. */
  function NextRun(n: nat, i: int, calls: nat): (seq<int>, int)
    decreases calls
  {
    if calls == 0 then ([], i)
    else
      var m := NextMove(n, i);
      var rest := NextRun(n, m.pos, calls - 1);
      ((if m.read.Some? then [m.read.value] else []) + rest.0, rest.1)
  }

  /** The entries read by `calls` successive moves of prev() from `i`, and the final position. */
  function PrevRun(i: int, calls: nat): (seq<int>, int)
    decreases calls
  {
    if calls == 0 then ([], i)
    else
      var m := PrevMove(i);
      var rest := PrevRun(m.pos, calls - 1);
      ((if m.read.Some? then [m.read.value] else []) + rest.0, rest.1)
  }

  /** From position i, k calls of next() read entries i+1 .. i+k when they exist. */
  lemma {:induction false} NextRunForward(n: nat, i: int, k: nat)
    requires -1 <= i && i + k < n
    ensures NextRun(n, i, k) == (seq(k, j => i + 1 + j), i + k)
    decreases k
  {
    if k > 0 {
      NextRunForward(n, i + 1, k - 1);
      var rest := NextRun(n, i + 1, k - 1);
      assert NextMove(n, i) == Move(i + 1, Some(i + 1));
      assert NextRun(n, i, k) == ([i + 1] + rest.0, rest.1);
      assert [i + 1] + rest.0 == seq(k, j => i + 1 + j);
    } else {
      assert seq(k, j => i + 1 + j) == [];
    }
  }

  /**
   * Exhaustion: a fresh cursor over n entries reads entries 0 .. n-1 with n
   * calls of next(); the next call raises and leaves the position at n - 1.
   */
  lemma Exhaustion(n: nat)
    ensures NextRun(n, -1, n) == (seq(n, j => j), n - 1)
    ensures NextMove(n, n - 1) == Move(n - 1, None)
  {
    NextRunForward(n, -1, n);
    assert seq(n, j => -1 + 1 + j) == seq(n, j => j);
  }

  /** From position p, p calls of prev() read entries p-1 down to 0; one more resets to -1 and raises. */
  lemma {:induction false} PrevRunBackward(p: nat)
    ensures PrevRun(p, p) == (seq(p, j => p - 1 - j), 0)
    ensures PrevMove(0) == Move(-1, None)
    decreases p
  {
    if p > 0 {
      PrevRunBackward(p - 1);
      var rest := PrevRun(p - 1, p - 1);
      assert PrevMove(p) == Move(p - 1, Some(p - 1));
      assert PrevRun(p, p) == ([p - 1] + rest.0, rest.1);
      assert [p - 1] + seq(p - 1, j => p - 1 - 1 - j) == seq(p, j => p - 1 - j);
    } else {
      assert seq(p, j => p - 1 - j) == [];
    }
  }

  /** A reader over the stored entries of a tree, decoded by `decode`. */
  class Reader<R, T> {
    const entries: seq<R>
    const decode: R -> T
    var i: int

    /** The position is -1 (before the first entry) or a valid entry index. */
    ghost predicate Valid()
      reads this
    {
      -1 <= i < |entries|
    }

    /** All entries, decoded, in file order. */
    ghost function Decoded(): seq<T>
    {
      seq(|entries|, k requires 0 <= k < |entries| => decode(entries[k]))
    }

    /** The value a move hands back: the decoded entry it read, or the error it raised. */
    ghost function Fetch(read: Option<int>, err: CursorError): Result<T, CursorError>
    {
      if read.Some? && 0 <= read.value < |entries| then Ok(decode(entries[read.value])) else Err(err)
    }

    /** Opening a reader: position -1. */
    constructor (entries: seq<R>, decode: R -> T)
      ensures this.entries == entries && this.decode == decode
      ensures i == -1 && Valid()
    {
      this.entries := entries;
      this.decode := decode;
      i := -1;
    }

    /** `len(reader)`: the number of entries in the tree. */
    method Len() returns (n: nat)
      ensures n == |entries|
    {
      n := |entries|;
    }

    /** `index()`: the current position. */
    method Index() returns (k: int)
      ensures k == i
    {
      k := i;
    }

    /** `next()`: raises StopIteration at the last entry, otherwise advances and reads. */
    method Next() returns (r: Result<T, CursorError>)
      requires Valid()
      modifies this`i
      ensures Valid()
      ensures old(i) + 1 >= |entries| ==> i == old(i) && r == Err(StopIteration)
      ensures old(i) + 1 < |entries| ==> i == old(i) + 1 && r == Ok(decode(entries[i]))
      ensures i == NextMove(|entries|, old(i)).pos && r == Fetch(NextMove(|entries|, old(i)).read, StopIteration)
    {
      if i + 1 >= |entries| {
        return Err(StopIteration);
      }
      i := i + 1;
      r := Ok(decode(entries[i]));
    }

    /** `prev()`: at or before the first entry resets to -1 and raises, otherwise steps back and reads. */
    method Prev() returns (r: Result<T, CursorError>)
      requires Valid()
      modifies this`i
      ensures Valid()
      ensures old(i) <= 0 ==> i == -1 && r == Err(StopIteration)
      ensures old(i) > 0 ==> i == old(i) - 1 && r == Ok(decode(entries[i]))
      ensures i == PrevMove(old(i)).pos && r == Fetch(PrevMove(old(i)).read, StopIteration)
    {
      if i <= 0 {
        i := -1;
        return Err(StopIteration);
      }
      i := i - 1;
      r := Ok(decode(entries[i]));
    }

    /** `current()`: the entry at the position, which does not move. */
    method Current() returns (r: T)
      requires Valid() && i >= 0
      ensures r == decode(entries[i])
    {
      r := decode(entries[i]);
    }

    /** `jump_to(index)`: IndexError outside [0, len), otherwise moves there, whatever the position was. */
    method JumpTo(index: int) returns (r: Result<T, CursorError>)
      requires Valid()
      modifies this`i
      ensures Valid()
      ensures (index < 0 || index >= |entries|) ==> i == old(i) && r == Err(IndexError)
      ensures 0 <= index < |entries| ==> i == index && r == Ok(decode(entries[index]))
      ensures i == JumpMove(|entries|, old(i), index).pos && r == Fetch(JumpMove(|entries|, old(i), index).read, IndexError)
    {
      if index < 0 || index >= |entries| {
        return Err(IndexError);
      }
      i := index;
      r := Ok(decode(entries[i]));
    }

    /** `__iter__`: every entry decoded, in order; the position is neither read nor written. */
    method Scan() returns (rows: seq<T>)
      ensures rows == Decoded()
    {
      rows := [];
      for k := 0 to |entries|
        invariant rows == Decoded()[..k]
      {
        rows := rows + [decode(entries[k])];
      }
    }
  }
}

/**
 * An HDF5 dataset as the append code uses it: its rows along the one axis
 * that grows, and the largest row count its `maxshape` allows (None for an
 * unlimited axis). `resize` changes the row count, keeping the rows that
 * remain and filling new ones with the fill value; a slice assignment writes
 * a value into the selected rows, a single row being broadcast to all of
 * them, and fails when the value's row count neither matches the selection
 * nor is 1.
 *
 * The append code writes a batch of k rows into the tail selection `[-k:]`.
 * Python reads `-0` as `0`, so for an empty batch that selection is the
 * whole axis, which an empty value cannot fill (`AppendAsWritten`). The
 * intended tail write is the selection starting at the old length
 * (`Append`).
 */
module Datasets {
  import opened Wrappers

  datatype Dataset<T> = Dataset(rows: seq<T>, maxRows: Option<nat>)

  /** Resizing beyond `maxshape`; assigning a value that cannot be broadcast to the selection. */
  datatype DatasetError = ExtentExceeded | BroadcastMismatch

  /** `create_dataset(data=..., maxshape=(None, ...))`: the axis can grow without bound. */
  function CreateGrowable<T>(data: seq<T>): (ds: Dataset<T>)
    ensures ds.rows == data
    ensures forall n: nat :: Admits(ds, n)
  {
    Dataset(data, None)
  }

  /** `create_dataset(data=...)` without `maxshape`: the dataset is fixed at its initial extent. */
  function CreateFixed<T>(data: seq<T>): (ds: Dataset<T>)
    ensures ds.rows == data
    ensures forall n: nat :: Admits(ds, n) <==> n <= |data|
  {
    Dataset(data, Some(|data|))
  }

  /** The axis may hold `n` rows. */
  predicate Admits<T>(ds: Dataset<T>, n: nat)
  {
    ds.maxRows.None? || n <= ds.maxRows.value
  }

  /** `ds.resize(n, axis)`: rows below `n` are kept, new rows hold the fill value. */
  function Resize<T>(ds: Dataset<T>, n: nat, fill: T): (r: Result<Dataset<T>, DatasetError>)
    ensures r.Err? <==> !Admits(ds, n)
    ensures r.Err? ==> r.error == ExtentExceeded
    ensures r.Ok? ==> r.value.maxRows == ds.maxRows && |r.value.rows| == n
    ensures r.Ok? ==> forall k :: 0 <= k < n && k < |ds.rows| ==> r.value.rows[k] == ds.rows[k]
    ensures r.Ok? ==> forall k :: |ds.rows| <= k < n ==> r.value.rows[k] == fill
  {
    if !Admits(ds, n) then Err(ExtentExceeded)
    else if n <= |ds.rows| then Ok(ds.(rows := ds.rows[..n]))
    else Ok(ds.(rows := ds.rows + seq(n - |ds.rows|, _ => fill)))
  }

  /** `ds[start:] = value`: the rows before `start` are kept, the selected rows take the (broadcast) value. */
  function AssignFrom<T>(ds: Dataset<T>, start: nat, value: seq<T>): (r: Result<Dataset<T>, DatasetError>)
    requires start <= |ds.rows|
    ensures r.Ok? <==> |value| == |ds.rows| - start || |value| == 1
    ensures r.Err? ==> r.error == BroadcastMismatch
    ensures r.Ok? ==> r.value.maxRows == ds.maxRows && |r.value.rows| == |ds.rows|
    ensures r.Ok? ==> r.value.rows[..start] == ds.rows[..start]
    ensures r.Ok? && |value| == |ds.rows| - start ==> r.value.rows[start..] == value
    ensures r.Ok? && |value| == 1 ==> forall k :: start <= k < |ds.rows| ==> r.value.rows[k] == value[0]
  {
    var sel := |ds.rows| - start;
    if |value| == sel then Ok(ds.(rows := ds.rows[..start] + value))
    else if |value| == 1 then Ok(ds.(rows := ds.rows[..start] + seq(sel, _ => value[0])))
    else Err(BroadcastMismatch)
  }

  /** First row of the Python selection `[-k:]` over `len` rows: `-0` is 0, and a too-long reach clamps to 0. */
  function NegativeStart(len: nat, k: nat): (start: nat)
    ensures start <= len
    ensures k == 0 ==> start == 0
    ensures 0 < k <= len ==> start == len - k
  {
    if k == 0 || k > len then 0 else len - k
  }

  /** The append as the source writes it: resize by |b|, then `ds[-|b|:] = b`. */
  function AppendAsWritten<T>(ds: Dataset<T>, b: seq<T>, fill: T): (r: Result<Dataset<T>, DatasetError>)
    ensures r.Err? <==> !Admits(ds, |ds.rows| + |b|) || (b == [] && |ds.rows| > 0)
    ensures r.Err? ==> r.error == if Admits(ds, |ds.rows| + |b|) then BroadcastMismatch else ExtentExceeded
    ensures r.Ok? ==> r.value.maxRows == ds.maxRows && |r.value.rows| == |ds.rows| + |b|
  {
    match Resize(ds, |ds.rows| + |b|, fill)
    case Err(e) => Err(e)
    case Ok(grown) => AssignFrom(grown, NegativeStart(|grown.rows|, |b|), b)
  }

  /** The append as intended: resize by |b|, then write `b` from the old length on. */
  function Append<T>(ds: Dataset<T>, b: seq<T>, fill: T): (r: Result<Dataset<T>, DatasetError>)
    ensures r.Err? <==> !Admits(ds, |ds.rows| + |b|)
    ensures r.Err? ==> r.error == ExtentExceeded
    ensures r.Ok? ==> r.value.maxRows == ds.maxRows && |r.value.rows| == |ds.rows| + |b|
    ensures r.Ok? ==> r.value.rows[|ds.rows|..] == b
  {
    match Resize(ds, |ds.rows| + |b|, fill)
    case Err(e) => Err(e)
    case Ok(grown) => AssignFrom(grown, |grown.rows| - |b|, b)
  }

  /** `ds.resize(n + 1)` then `ds[n] = v`, as the offset arrays grow. */
  function Push<T>(ds: Dataset<T>, v: T, fill: T): (r: Result<Dataset<T>, DatasetError>)
    ensures r.Err? <==> !Admits(ds, |ds.rows| + 1)
    ensures r.Err? ==> r.error == ExtentExceeded
    ensures r.Ok? ==> r.value.maxRows == ds.maxRows && |r.value.rows| == |ds.rows| + 1
    ensures r.Ok? ==> r.value.rows[|ds.rows|] == v && forall k :: 0 <= k < |ds.rows| ==> r.value.rows[k] == ds.rows[k]
  {
    match Resize(ds, |ds.rows| + 1, fill)
    case Err(e) => Err(e)
    case Ok(grown) => Ok(grown.(rows := grown.rows[|ds.rows| := v]))
  }

  /** Append, when the extent allows it, leaves the old rows as they were and adds exactly the batch. */
  lemma AppendGrows<T>(ds: Dataset<T>, b: seq<T>, fill: T)
    requires Admits(ds, |ds.rows| + |b|)
    ensures Append(ds, b, fill) == Ok(Dataset(ds.rows + b, ds.maxRows))
  {
    var grown := Resize(ds, |ds.rows| + |b|, fill).value;
    assert grown.rows[..|ds.rows|] == ds.rows;
  }

  /** Append beyond the extent fails and writes nothing. */
  lemma AppendExtentExceeded<T>(ds: Dataset<T>, b: seq<T>, fill: T)
    requires !Admits(ds, |ds.rows| + |b|)
    ensures Append(ds, b, fill) == Err(ExtentExceeded)
  {
  }

  /** The push used for the offset arrays grows them by exactly that one entry. */
  lemma PushGrows<T>(ds: Dataset<T>, v: T, fill: T)
    requires Admits(ds, |ds.rows| + 1)
    ensures Push(ds, v, fill) == Ok(Dataset(ds.rows + [v], ds.maxRows))
  {
    var grown := Resize(ds, |ds.rows| + 1, fill).value;
    assert grown.rows[|ds.rows| := v] == ds.rows + [v];
  }

  /** The as-written append of an empty batch to a non-empty dataset selects every row and fails. */
  lemma EmptyBatchRejected<T>(ds: Dataset<T>, fill: T)
    requires |ds.rows| > 0 && Admits(ds, |ds.rows|)
    ensures AppendAsWritten(ds, [], fill) == Err(BroadcastMismatch)
    ensures Append(ds, [], fill) == Ok(ds)
  {
    AppendGrows(ds, [], fill);
    assert ds.rows + [] == ds.rows;
  }

  /** For every non-empty batch, and for an empty batch on an empty dataset, the two appends agree. */
  lemma AsWrittenAgrees<T>(ds: Dataset<T>, b: seq<T>, fill: T)
    requires |b| > 0 || |ds.rows| == 0
    ensures AppendAsWritten(ds, b, fill) == Append(ds, b, fill)
  {
  }

  /** A dataset created without `maxshape` rejects every non-empty append. */
  lemma FixedExtentRejectsGrowth<T>(data: seq<T>, b: seq<T>, fill: T)
    requires |b| > 0
    ensures Append(CreateFixed(data), b, fill) == Err(ExtentExceeded)
  {
  }

  /** A dataset created with an unlimited axis accepts every append: appends concatenate. */
  lemma GrowableAcceptsGrowth<T>(data: seq<T>, b: seq<T>, fill: T)
    ensures Append(CreateGrowable(data), b, fill) == Ok(CreateGrowable(data + b))
  {
    AppendGrows(CreateGrowable(data), b, fill);
  }
}

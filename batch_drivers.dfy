/**
 * Two drivers that build the same ragged track columns as the reverse-track
 * file, but keep the offsets in a Python list and write them once, at the
 * end.
 *
 * `fixed_dist_hist` / `bkg_dist_hist` (one body, two callers) write one
 * batch per simulated event. Their flag `i` is set to 1 by `i =+ 1` (an
 * assignment of +1) after the whole first location, so every event of the
 * first location takes the create branch.
 *
 * `gen_ev` writes one batch per location, after the location's events have
 * been simulated, from the last event's deposits and tracks; a location that
 * yields no event repeats the previous location's batch.
 */
module BatchDrivers {
  import opened Wrappers
  import opened Seqs
  import opened Offsets
  import opened Datasets
  import opened TrackStore
  import ShortEvents

  /** A second `create_dataset` of the same name; a name used before any assignment bound it. */
  datatype DriverError = AlreadyCreated | UnboundName

  /** The file written by the dist-hist drivers: no deposits, a single offset array `idx`. */
  datatype DistFile<P, F, L> = DistFile(coord: seq<CoordPair<P>>, sigma: seq<F>, rLens: Option<L>, idx: seq<nat>)

  /** The analyzer's tracks can always be stacked into `coord`. */
  ghost predicate AlignedAnalyzer<E(!new), P, F, L>(analyze: E -> Tracks<P, F, L>)
  {
    forall ev :: Aligned(analyze(ev))
  }

  /** The dist-hist drivers store no deposit rows: one track-only batch per event. */
  function TrackBatches<E(!new), P, F, L>(events: seq<E>, analyze: E -> Tracks<P, F, L>): (bs: seq<Batch<P, F, L>>)
    requires AlignedAnalyzer(analyze)
    ensures |bs| == |events| && AllAligned(bs)
    ensures forall k :: 0 <= k < |bs| ==> bs[k] == Batch([], analyze(events[k]))
  {
    seq(|events|, k requires 0 <= k < |events| => Batch([], analyze(events[k])))
  }

  lemma TrackBatchesSplit<E(!new), P, F, L>(a: seq<E>, b: seq<E>, analyze: E -> Tracks<P, F, L>)
    requires AlignedAnalyzer(analyze)
    ensures TrackBatches(a + b, analyze) == TrackBatches(a, analyze) + TrackBatches(b, analyze)
  {
  }

  /** Writing event k of a location adds its batch after those of the events before it. */
  lemma TrackBatchesStep<E(!new), P, F, L>(done: seq<E>, run: seq<E>, k: nat, analyze: E -> Tracks<P, F, L>)
    requires AlignedAnalyzer(analyze) && k < |run|
    ensures TrackBatches(done + run[..k + 1], analyze) == TrackBatches(done + run[..k], analyze) + [Batch([], analyze(run[k]))]
  {
    assert done + run[..k + 1] == (done + run[..k]) + [run[k]];
    TrackBatchesSplit(done + run[..k], [run[k]], analyze);
  }

  /** The dist-hist file for the given batches: the track columns and the track offsets. */
  function DistContents<P, F, L>(bs: seq<Batch<P, F, L>>): DistFile<P, F, L>
    requires AllAligned(bs)
  {
    var c := Contents(bs);
    DistFile(c.coord, c.sigma, c.rLens, c.idxTr)
  }

  /**
   * What `fixed_dist_hist` / `bkg_dist_hist` produce from the events each
   * location yields: a second event at the first location re-creates
   * `coord`; a first location with no event leaves `coord` unbound for the
   * next event; otherwise one batch per event.
   */
  function DistHistResult<E(!new), P, F, L>(runs: seq<seq<E>>, analyze: E -> Tracks<P, F, L>): (r: Result<DistFile<P, F, L>, DriverError>)
    requires AlignedAnalyzer(analyze)
    ensures r == Err(AlreadyCreated) <==> |runs| > 0 && |runs[0]| >= 2
    ensures r == Err(UnboundName) <==> |runs| > 0 && |runs[0]| == 0 && Concat(runs) != []
    ensures r.Ok? ==> |r.value.idx| == |Concat(runs)|
  {
    if |runs| > 0 && |runs[0]| >= 2 then Err(AlreadyCreated)
    else if |runs| > 0 && |runs[0]| == 0 && Concat(runs) != [] then Err(UnboundName)
    else Ok(DistContents(TrackBatches(Concat(runs), analyze)))
  }

  /**
   * The datasets the drivers grow (`en_depo`, `coord`, `sigma`, `r_lens`)
   * and the Python lists that collect the offsets. The dist-hist drivers
   * store no deposits: their batches carry none, and their file has no
   * deposit column or deposit offsets.
   */
  class TrackColumns<P, F, L> {
    var enDepo: Dataset<P>
    var coord: Dataset<CoordPair<P>>
    var uncert: Dataset<F>
    var rLens: Option<L>
    var arrTr: seq<nat>
    var arrDepo: seq<nat>
    ghost var batches: seq<Batch<P, F, L>>
    const vecFill: P
    const scalarFill: F

    /** The file as it stands, with the offset lists written out. */
    function File(): TrackFileContents<P, F, L>
      reads this
    {
      TrackFileContents(enDepo.rows, coord.rows, uncert.rows, rLens, arrTr, arrDepo)
    }

    /** The columns and offset lists hold exactly the batches written so far, on unlimited axes. */
    ghost predicate Valid()
      reads this
    {
      && AllAligned(batches)
      && enDepo.maxRows.None? && coord.maxRows.None? && uncert.maxRows.None?
      && File() == Contents(batches)
      && |arrTr| == |batches|
    }

    /** Nothing written yet. */
    constructor (vecFill: P, scalarFill: F)
      ensures Valid() && batches == []
    {
      enDepo, coord, uncert := CreateGrowable([]), CreateGrowable([]), CreateGrowable([]);
      rLens := None;
      arrTr, arrDepo := [], [];
      batches := [];
      this.vecFill, this.scalarFill := vecFill, scalarFill;
    }

    /** The create branch: each dataset created from the batch, and the batch's sizes collected. */
    method Create(b: Batch<P, F, L>)
      requires Valid() && batches == [] && Aligned(b.tracks)
      modifies this
      ensures Valid() && batches == [b]
    {
      enDepo := CreateGrowable(b.vert);
      coord := CreateGrowable(Coords(b.tracks));
      uncert := CreateGrowable(b.tracks.sigmas);
      rLens := Some(b.tracks.lensRad);
      arrTr := arrTr + [|uncert.rows|];
      arrDepo := arrDepo + [|enDepo.rows|];
      ContentsFirst(b);
      batches := [b];
    }

    /** The grow branch: each dataset resized by the batch and its tail written, and the new lengths collected. */
    method Grow(b: Batch<P, F, L>)
      requires Valid() && batches != [] && Aligned(b.tracks)
      modifies this
      ensures Valid() && batches == old(batches) + [b]
    {
      ContentsAppend(batches, b);
      AppendGrows(enDepo, b.vert, vecFill);
      enDepo := Append(enDepo, b.vert, vecFill).value;
      AppendGrows(coord, Coords(b.tracks), CoordPair(vecFill, vecFill));
      coord := Append(coord, Coords(b.tracks), CoordPair(vecFill, vecFill)).value;
      AppendGrows(uncert, b.tracks.sigmas, scalarFill);
      uncert := Append(uncert, b.tracks.sigmas, scalarFill).value;
      arrTr := arrTr + [|uncert.rows|];
      arrDepo := arrDepo + [|enDepo.rows|];
      batches := batches + [b];
    }
  }

  /** Part j of the parts is no longer than their concatenation. */
  lemma PartWithinConcat<T>(parts: seq<seq<T>>, j: nat)
    requires j < |parts|
    ensures |parts[j]| <= |Concat(parts)|
  {
    ConcatPrefix(parts, j);
  }

  /**
   * What one location's events lead to, with `first` the flag `i == 0` and
   * `done` the events written before: a second event under the flag
   * re-creates `coord`; an event after the flag is cleared, with nothing
   * written yet, finds `coord` unbound.
   */
  function LocationError<E>(first: bool, done: seq<E>, run: seq<E>): (err: Option<DriverError>)
    ensures err == Some(AlreadyCreated) <==> first && |run| >= 2
    ensures err == Some(UnboundName) <==> !first && done == [] && run != []
    ensures err.None? <==> (first ==> |run| < 2) && (!first && done == [] ==> run == [])
  {
    if first && |run| >= 2 then Some(AlreadyCreated)
    else if !first && done == [] && run != [] then Some(UnboundName)
    else None
  }

  /**
   * The inner loop of the dist-hist drivers over one location's events. The
   * name `coord` is bound exactly when a batch has been written, which is
   * when `arr` has an entry.
   */
  method DistLocation<E(!new), P, F, L>(cols: TrackColumns<P, F, L>, run: seq<E>, analyze: E -> Tracks<P, F, L>,
                                        first: bool, ghost done: seq<E>)
    returns (err: Option<DriverError>)
    requires AlignedAnalyzer(analyze)
    requires cols.Valid() && cols.batches == TrackBatches(done, analyze)
    requires first ==> done == []
    modifies cols
    ensures cols.Valid()
    ensures err == LocationError(first, done, run)
    ensures err.None? ==> cols.batches == TrackBatches(done + run, analyze)
  {
    for k := 0 to |run|
      invariant cols.Valid()
      invariant first ==> k <= 1
      invariant !first && done == [] ==> k == 0
      invariant cols.batches == TrackBatches(done + run[..k], analyze)
    {
      var b := Batch([], analyze(run[k]));
      TrackBatchesStep(done, run, k, analyze);
      if first {
        if cols.arrTr != [] {
          return Some(AlreadyCreated);
        }
        cols.Create(b);
      } else {
        if cols.arrTr == [] {
          return Some(UnboundName);
        }
        cols.Grow(b);
      }
    }
    assert run[..|run|] == run;
    return None;
  }

  /**
   * `fixed_dist_hist` / `bkg_dist_hist`: for each location, each simulated
   * event's tracks are written as one batch, `coord` and `sigma` being
   * created while `i == 0` and grown afterwards; `i` becomes 1 after the
   * first location; `idx` is written at the end from the collected lengths.
   */
  method DistHist<E(!new), P, F, L>(runs: seq<seq<E>>, analyze: E -> Tracks<P, F, L>, vecFill: P, scalarFill: F)
    returns (r: Result<DistFile<P, F, L>, DriverError>)
    requires AlignedAnalyzer(analyze)
    ensures r == DistHistResult(runs, analyze)
  {
    var cols := new TrackColumns(vecFill, scalarFill);
    var i := 0;
    ghost var done: seq<E> := [];
    for j := 0 to |runs|
      invariant fresh(cols) && cols.Valid()
      invariant done == Concat(runs[..j])
      invariant i == (if j == 0 then 0 else 1)
      invariant j > 0 ==> |runs[0]| <= 1
      invariant j > 0 && runs[0] == [] ==> done == []
      invariant cols.batches == TrackBatches(done, analyze)
    {
      ConcatPrefix(runs, j);
      assert runs[..0] == [];
      var err := DistLocation(cols, runs[j], analyze, i == 0, done);
      if err.Some? {
        if j > 0 {
          PartWithinConcat(runs[..j], 0);
          PartWithinConcat(runs, j);
        }
        return Err(err.value);
      }
      done := done + runs[j];
      i := 1;
    }
    assert runs[..|runs|] == runs;
    r := Ok(DistFile(cols.coord.rows, cols.uncert.rows, cols.rLens, cols.arrTr));
  }

  /** When each location yields one event, as the drivers' event builders do, the file holds one batch per location. */
  lemma DistHistOneEventPerLocation<E(!new), P, F, L>(runs: seq<seq<E>>, analyze: E -> Tracks<P, F, L>)
    requires AlignedAnalyzer(analyze)
    requires forall j :: 0 <= j < |runs| ==> |runs[j]| == 1
    ensures DistHistResult(runs, analyze).Ok?
    ensures |DistHistResult(runs, analyze).value.idx| == |runs|
  {
    ConcatSingletons(runs);
  }

  lemma {:induction false} ConcatSingletons<T>(runs: seq<seq<T>>)
    requires forall j :: 0 <= j < |runs| ==> |runs[j]| == 1
    ensures |Concat(runs)| == |runs|
    decreases |runs|
  {
    if runs != [] {
      ConcatSingletons(runs[..|runs| - 1]);
    }
  }

  /**
   * The offsets `idx` of a dist-hist file: one per event, never decreasing,
   * the last equal to the `sigma` length, and event k's sigmas are
   * `sigma[idx[k-1]:idx[k]]`.
   */
  lemma DistHistOffsets<E(!new), P, F, L>(runs: seq<seq<E>>, analyze: E -> Tracks<P, F, L>, k: nat)
    requires AlignedAnalyzer(analyze)
    requires DistHistResult(runs, analyze).Ok? && k < |Concat(runs)|
    ensures var file := DistHistResult(runs, analyze).value;
      && |file.idx| == |Concat(runs)| && NonDecreasing(file.idx)
      && file.idx[|file.idx| - 1] == |file.sigma|
      && BatchInRange(file.idx, k, |file.sigma|)
      && GetBatch(file.sigma, file.idx, k) == analyze(Concat(runs)[k]).sigmas
  {
    var bs := TrackBatches(Concat(runs), analyze);
    OffsetsTrackLengths(bs);
    BatchesRecoverable(bs, k);
  }

  /** The event whose deposits and tracks `gen_ev` writes at location j: the last one seen so far. */
  function Latest<E>(runs: seq<seq<E>>, j: nat): (e: E)
    requires j < |runs| && runs[0] != []
    ensures runs[j] != [] ==> e == runs[j][|runs[j]| - 1]
    ensures forall i :: 0 <= i <= j && runs[i] != [] && (forall m :: i < m <= j ==> runs[m] == []) ==>
      e == runs[i][|runs[i]| - 1]
    decreases j
  {
    if runs[j] != [] then runs[j][|runs[j]| - 1] else Latest(runs, j - 1)
  }

  /**
   * Every simulated event keeps its initial photons, whose positions the
   * inner loop reads, and the event each location writes yields stackable
   * tracks.
   */
  predicate RunsWritable<P, W, F, L>(runs: seq<seq<ShortEvents.Event<P, W>>>, analyze: ShortEvents.Event<P, W> -> Tracks<P, F, L>)
  {
    && (forall j, k :: 0 <= j < |runs| && 0 <= k < |runs[j]| ==> runs[j][k].photonsBeg.Some?)
    && (|runs| > 0 && runs[0] != [] ==> forall j :: 0 <= j < |runs| ==> Aligned(analyze(Latest(runs, j))))
  }

  lemma LatestWritable<P, W, F, L>(runs: seq<seq<ShortEvents.Event<P, W>>>, j: nat, analyze: ShortEvents.Event<P, W> -> Tracks<P, F, L>)
    requires j < |runs| && runs[0] != [] && RunsWritable(runs, analyze)
    ensures Latest(runs, j).photonsBeg.Some? && Aligned(analyze(Latest(runs, j)))
    decreases j
  {
    if runs[j] == [] {
      LatestWritable(runs, j - 1, analyze);
    }
  }

  /** The events whose batches `gen_ev` writes for the first n locations: the latest one seen at each. */
  function LocationEvents<E>(runs: seq<seq<E>>, n: nat): (evs: seq<E>)
    requires n <= |runs| && (n > 0 ==> runs[0] != [])
    ensures |evs| == n
    ensures forall j :: 0 <= j < n ==> evs[j] == Latest(runs, j)
  {
    seq(n, j requires 0 <= j < n => Latest(runs, j))
  }

  lemma LocationEventsWritable<P, W, F, L>(runs: seq<seq<ShortEvents.Event<P, W>>>, n: nat,
                                           analyze: ShortEvents.Event<P, W> -> Tracks<P, F, L>)
    requires n <= |runs| && (n > 0 ==> runs[0] != []) && RunsWritable(runs, analyze)
    ensures Writable(LocationEvents(runs, n), analyze)
  {
    forall j | 0 <= j < n
      ensures Latest(runs, j).photonsBeg.Some? && Aligned(analyze(Latest(runs, j)))
    {
      LatestWritable(runs, j, analyze);
    }
  }

  /** One batch per location, from the latest event. */
  function LocationBatches<P, W, F, L>(runs: seq<seq<ShortEvents.Event<P, W>>>, n: nat,
                                       analyze: ShortEvents.Event<P, W> -> Tracks<P, F, L>)
    : (bs: seq<Batch<P, F, L>>)
    requires n <= |runs| && (n > 0 ==> runs[0] != []) && RunsWritable(runs, analyze)
    ensures |bs| == n && AllAligned(bs)
  {
    LocationEventsWritable(runs, n, analyze);
    EventBatches(LocationEvents(runs, n), analyze)
  }

  /** What `gen_ev` produces: a first location with no event leaves `vert` unbound; otherwise one batch per location. */
  function GenEvResult<P, W, F, L>(runs: seq<seq<ShortEvents.Event<P, W>>>, analyze: ShortEvents.Event<P, W> -> Tracks<P, F, L>)
    : (r: Result<TrackFileContents<P, F, L>, DriverError>)
    requires RunsWritable(runs, analyze)
    ensures r.Err? <==> |runs| > 0 && runs[0] == []
    ensures r.Err? ==> r.error == UnboundName
    ensures r.Ok? ==> |r.value.idxTr| == |runs| && |r.value.idxDepo| == |runs|
  {
    if |runs| > 0 && runs[0] == [] then Err(UnboundName)
    else
      OffsetsTrackLengths(LocationBatches(runs, |runs|, analyze));
      Ok(Contents(LocationBatches(runs, |runs|, analyze)))
  }

  /** The batches of the first j + 1 locations are those of the first j, then location j's. */
  lemma LocationBatchesStep<P, W, F, L>(runs: seq<seq<ShortEvents.Event<P, W>>>, j: nat,
                                        analyze: ShortEvents.Event<P, W> -> Tracks<P, F, L>)
    requires j < |runs| && runs[0] != [] && RunsWritable(runs, analyze)
    ensures Latest(runs, j).photonsBeg.Some?
    ensures LocationBatches(runs, j + 1, analyze) == LocationBatches(runs, j, analyze) + [EventBatch(Latest(runs, j), analyze)]
  {
    LatestWritable(runs, j, analyze);
    LocationEventsWritable(runs, j, analyze);
    assert LocationEvents(runs, j + 1) == LocationEvents(runs, j) + [Latest(runs, j)];
    EventBatchesSplit(LocationEvents(runs, j), [Latest(runs, j)], analyze);
  }

  /**
   * The write loop of `gen_ev`: for each location, the simulated events
   * rebind `vert` and `tracks`; after them, one batch is written from the
   * current bindings and the column lengths are appended to `arr_depo` and
   * `arr_tr`, which become `idx_depo` and `idx_tr` at the end.
   */
  method GenEv<P, W, F, L>(runs: seq<seq<ShortEvents.Event<P, W>>>, analyze: ShortEvents.Event<P, W> -> Tracks<P, F, L>,
                           vecFill: P, scalarFill: F)
    returns (r: Result<TrackFileContents<P, F, L>, DriverError>)
    requires RunsWritable(runs, analyze)
    ensures r == GenEvResult(runs, analyze)
  {
    var cols := new TrackColumns(vecFill, scalarFill);
    var first := true;
    var latest: Option<Batch<P, F, L>> := None;
    for j := 0 to |runs|
      invariant fresh(cols) && cols.Valid()
      invariant j > 0 ==> runs[0] != []
      invariant first == (j == 0)
      invariant j > 0 ==> Latest(runs, j - 1).photonsBeg.Some? && latest == Some(EventBatch(Latest(runs, j - 1), analyze))
      invariant j == 0 ==> latest == None
      invariant cols.batches == LocationBatches(runs, j, analyze)
    {
      ghost var before := latest;
      for k := 0 to |runs[j]|
        invariant k == 0 ==> latest == before
        invariant k > 0 ==> runs[j][k - 1].photonsBeg.Some? && latest == Some(EventBatch(runs[j][k - 1], analyze))
      {
        var ev := runs[j][k];
        latest := Some(Batch(ev.photonsBeg.value.pos, analyze(ev)));
      }
      if latest.None? {
        return Err(UnboundName);
      }
      var b := latest.value;
      LocationBatchesStep(runs, j, analyze);
      LatestWritable(runs, j, analyze);
      if first {
        cols.Create(b);
      } else {
        cols.Grow(b);
      }
      first := false;
    }
    r := Ok(cols.File());
  }

  /**
   * `gen_ev` writes exactly one batch per location: the offsets have one
   * entry per location, and location j's sigmas, cut out by them, are those of
   * the latest event simulated up to it.
   */
  lemma GenEvOneBatchPerLocation<P, W, F, L>(runs: seq<seq<ShortEvents.Event<P, W>>>,
                                             analyze: ShortEvents.Event<P, W> -> Tracks<P, F, L>, j: nat)
    requires RunsWritable(runs, analyze) && j < |runs| && runs[0] != []
    ensures GenEvResult(runs, analyze).Ok? && Latest(runs, j).photonsBeg.Some?
    ensures var c := GenEvResult(runs, analyze).value;
      && |c.idxTr| == |runs| && |c.idxDepo| == |runs|
      && BatchInRange(c.idxTr, j, |c.sigma|)
      && GetBatch(c.sigma, c.idxTr, j) == analyze(Latest(runs, j)).sigmas
      && BatchInRange(c.idxDepo, j, |c.enDepo|)
      && GetBatch(c.enDepo, c.idxDepo, j) == Latest(runs, j).photonsBeg.value.pos
  {
    var bs := LocationBatches(runs, |runs|, analyze);
    LatestWritable(runs, j, analyze);
    OffsetsTrackLengths(bs);
    BatchesRecoverable(bs, j);
  }

  /** A location that yields no event writes the previous location's batch again. */
  lemma EmptyLocationRepeats<P, W, F, L>(runs: seq<seq<ShortEvents.Event<P, W>>>,
                                         analyze: ShortEvents.Event<P, W> -> Tracks<P, F, L>, j: nat)
    requires RunsWritable(runs, analyze) && 0 < j < |runs| && runs[0] != [] && runs[j] == []
    ensures LocationBatches(runs, |runs|, analyze)[j] == LocationBatches(runs, |runs|, analyze)[j - 1]
  {
    LatestWritable(runs, j - 1, analyze);
  }

  /** When the first location yields no event, `gen_ev` fails before writing anything. */
  lemma GenEvFirstLocationEmpty<P, W, F, L>(runs: seq<seq<ShortEvents.Event<P, W>>>,
                                            analyze: ShortEvents.Event<P, W> -> Tracks<P, F, L>)
    requires RunsWritable(runs, analyze) && |runs| > 0 && runs[0] == []
    ensures GenEvResult(runs, analyze) == Err(UnboundName)
  {
  }
}

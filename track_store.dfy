/**
 * The ragged reverse-track file: one batch per event, each batch adding its
 * energy-deposit positions to `en_depo`, its (hit position, mean) pairs to
 * `coord`, its uncertainties to `sigma`, and pushing the new totals onto
 * the offset arrays `idx_tr` and `idx_depo`. The lens radius `r_lens` comes
 * from the first batch only. The contents after any sequence of batches are
 * a function of those batches (`Contents`), and the lemmas below recover
 * each batch from its offsets.
 */
module TrackStore {
  import opened Wrappers
  import opened Seqs
  import opened Offsets
  import opened Datasets
  import ShortEvents

  /** The analyzer's output for one event: per-track hit positions, means and sigmas, and the lens radius. */
  datatype Tracks<P, F, L> = Tracks(hitPos: seq<P>, means: seq<P>, sigmas: seq<F>, lensRad: L)

  /** hit_pos and means describe the same tracks, so they can be stacked into `coord`. */
  predicate Aligned<P, F, L>(t: Tracks<P, F, L>)
  {
    |t.hitPos| == |t.means|
  }

  /** Every track has a sigma as well, so `coord` and `sigma` count the same tracks. */
  predicate SigmaPerTrack<P, F, L>(t: Tracks<P, F, L>)
  {
    |t.means| == |t.sigmas|
  }

  /** One row of `coord` along its growing axis: `coord[0, j]` and `coord[1, j]`. */
  datatype CoordPair<P> = CoordPair(hit: P, mean: P)

  /** `[tracks.hit_pos.T, tracks.means.T]`, track by track. */
  function Coords<P, F, L>(t: Tracks<P, F, L>): (c: seq<CoordPair<P>>)
    requires Aligned(t)
    ensures |c| == |t.means|
    ensures forall j :: 0 <= j < |c| ==> c[j].hit == t.hitPos[j] && c[j].mean == t.means[j]
  {
    seq(|t.means|, j requires 0 <= j < |t.means| => CoordPair(t.hitPos[j], t.means[j]))
  }

  /** One call's input: the deposit positions and the event's tracks. */
  datatype Batch<P, F, L> = Batch(vert: seq<P>, tracks: Tracks<P, F, L>)

  predicate AllAligned<P, F, L>(bs: seq<Batch<P, F, L>>)
  {
    forall k :: 0 <= k < |bs| ==> Aligned(bs[k].tracks)
  }

  function VertParts<P, F, L>(bs: seq<Batch<P, F, L>>): seq<seq<P>>
  {
    seq(|bs|, k requires 0 <= k < |bs| => bs[k].vert)
  }

  function CoordParts<P, F, L>(bs: seq<Batch<P, F, L>>): seq<seq<CoordPair<P>>>
    requires AllAligned(bs)
  {
    seq(|bs|, k requires 0 <= k < |bs| => Coords(bs[k].tracks))
  }

  function SigmaParts<P, F, L>(bs: seq<Batch<P, F, L>>): seq<seq<F>>
  {
    seq(|bs|, k requires 0 <= k < |bs| => bs[k].tracks.sigmas)
  }

  /** The datasets of a reverse-track file; `rLens` is None while the file is empty. */
  datatype TrackFileContents<P, F, L> = TrackFileContents(
    enDepo: seq<P>,
    coord: seq<CoordPair<P>>,
    sigma: seq<F>,
    rLens: Option<L>,
    idxTr: seq<nat>,
    idxDepo: seq<nat>)

  /** The file after the batches `bs`, in order: columns concatenated, offsets the running totals. */
  function Contents<P, F, L>(bs: seq<Batch<P, F, L>>): TrackFileContents<P, F, L>
    requires AllAligned(bs)
  {
    TrackFileContents(
      Concat(VertParts(bs)),
      Concat(CoordParts(bs)),
      Concat(SigmaParts(bs)),
      if bs == [] then None else Some(bs[0].tracks.lensRad),
      Cumulative(Sizes(SigmaParts(bs))),
      Cumulative(Sizes(VertParts(bs))))
  }

  lemma PartsAppend<P, F, L>(bs: seq<Batch<P, F, L>>, b: Batch<P, F, L>)
    requires AllAligned(bs) && Aligned(b.tracks)
    ensures AllAligned(bs + [b])
    ensures VertParts(bs + [b]) == VertParts(bs) + [b.vert]
    ensures CoordParts(bs + [b]) == CoordParts(bs) + [Coords(b.tracks)]
    ensures SigmaParts(bs + [b]) == SigmaParts(bs) + [b.tracks.sigmas]
  {
    assert forall k :: 0 <= k < |bs| ==> (bs + [b])[k] == bs[k];
  }

  /**
   * One more batch appends its rows to every column, leaves every earlier row
   * as it was, pushes the new column lengths onto the offsets, and keeps the
   * lens radius of the first batch.
   */
  lemma ContentsAppend<P, F, L>(bs: seq<Batch<P, F, L>>, b: Batch<P, F, L>)
    requires AllAligned(bs) && Aligned(b.tracks)
    ensures AllAligned(bs + [b])
    ensures var before, after := Contents(bs), Contents(bs + [b]);
      && after.enDepo == before.enDepo + b.vert
      && after.coord == before.coord + Coords(b.tracks)
      && after.sigma == before.sigma + b.tracks.sigmas
      && after.idxTr == before.idxTr + [|after.sigma|]
      && after.idxDepo == before.idxDepo + [|after.enDepo|]
      && after.rLens == (if bs == [] then Some(b.tracks.lensRad) else before.rLens)
  {
    PartsAppend(bs, b);
    ConcatAppend(VertParts(bs), b.vert);
    ConcatAppend(CoordParts(bs), Coords(b.tracks));
    ConcatAppend(SigmaParts(bs), b.tracks.sigmas);
    assert Sizes(SigmaParts(bs + [b])) == Sizes(SigmaParts(bs)) + [|b.tracks.sigmas|];
    assert Sizes(VertParts(bs + [b])) == Sizes(VertParts(bs)) + [|b.vert|];
    CumulativeAppend(Sizes(SigmaParts(bs)), |b.tracks.sigmas|);
    CumulativeAppend(Sizes(VertParts(bs)), |b.vert|);
    ConcatLength(SigmaParts(bs));
    ConcatLength(VertParts(bs));
  }

  /** The first batch alone: the columns are its rows and each offset array is its single size. */
  lemma ContentsFirst<P, F, L>(b: Batch<P, F, L>)
    requires Aligned(b.tracks)
    ensures AllAligned([b])
    ensures Contents([b]) == TrackFileContents(b.vert, Coords(b.tracks), b.tracks.sigmas, Some(b.tracks.lensRad),
                                               [|b.tracks.sigmas|], [|b.vert|])
  {
    ContentsAppend([], b);
    assert [] + [b] == [b];
  }

  /**
   * Batch recovery: batch k's deposits are `en_depo[idx_depo[k-1]:idx_depo[k]]`
   * and its sigmas are `sigma[idx_tr[k-1]:idx_tr[k]]` (with idx[-1] = 0).
   */
  lemma BatchesRecoverable<P, F, L>(bs: seq<Batch<P, F, L>>, k: nat)
    requires AllAligned(bs) && k < |bs|
    ensures var c := Contents(bs);
      && BatchInRange(c.idxDepo, k, |c.enDepo|) && GetBatch(c.enDepo, c.idxDepo, k) == bs[k].vert
      && BatchInRange(c.idxTr, k, |c.sigma|) && GetBatch(c.sigma, c.idxTr, k) == bs[k].tracks.sigmas
  {
    BatchRecovery(VertParts(bs), k);
    BatchRecovery(SigmaParts(bs), k);
  }

  /** With a sigma per track, idx_tr also cuts `coord` into the batches' (hit, mean) pairs. */
  lemma CoordRecoverable<P, F, L>(bs: seq<Batch<P, F, L>>, k: nat)
    requires AllAligned(bs) && k < |bs|
    requires forall j :: 0 <= j < |bs| ==> SigmaPerTrack(bs[j].tracks)
    ensures var c := Contents(bs);
      BatchInRange(c.idxTr, k, |c.coord|) && GetBatch(c.coord, c.idxTr, k) == Coords(bs[k].tracks)
  {
    assert Sizes(CoordParts(bs)) == Sizes(SigmaParts(bs));
    BatchRecovery(CoordParts(bs), k);
  }

  /** With a sigma per track, `coord` and `sigma` stay the same length. */
  lemma CoordMatchesSigma<P, F, L>(bs: seq<Batch<P, F, L>>)
    requires AllAligned(bs)
    requires forall j :: 0 <= j < |bs| ==> SigmaPerTrack(bs[j].tracks)
    ensures |Contents(bs).coord| == |Contents(bs).sigma|
  {
    assert Sizes(CoordParts(bs)) == Sizes(SigmaParts(bs));
    ConcatLength(CoordParts(bs));
    ConcatLength(SigmaParts(bs));
  }

  /**
   * The offsets: one entry per batch, never decreasing, with the last entries
   * equal to the current `sigma` and `en_depo` lengths.
   */
  lemma OffsetsTrackLengths<P, F, L>(bs: seq<Batch<P, F, L>>)
    requires AllAligned(bs)
    ensures var c := Contents(bs);
      && |c.idxTr| == |bs| && |c.idxDepo| == |bs|
      && NonDecreasing(c.idxTr) && NonDecreasing(c.idxDepo)
      && (bs != [] ==> c.idxTr[|bs| - 1] == |c.sigma| && c.idxDepo[|bs| - 1] == |c.enDepo|)
  {
    CumulativeNonDecreasing(Sizes(SigmaParts(bs)));
    CumulativeNonDecreasing(Sizes(VertParts(bs)));
    if bs != [] {
      IndexMatchesColumn(SigmaParts(bs));
      IndexMatchesColumn(VertParts(bs));
    }
  }

  /** A batch with no tracks repeats the previous track offset. */
  lemma EmptyBatchRepeatsOffset<P, F, L>(bs: seq<Batch<P, F, L>>, k: nat)
    requires AllAligned(bs) && 0 < k < |bs| && bs[k].tracks.sigmas == []
    ensures Contents(bs).idxTr[k] == Contents(bs).idxTr[k - 1]
  {
    CumulativeStep(Sizes(SigmaParts(bs)), k);
  }

  /** What the two branches of the write can raise. */
  datatype WriteError = DatasetExists | DatasetMissing

  /**
   * An open reverse-track HDF5 file. `created` says whether the datasets
   * exist; `batches` is the ghost history of successful writes.
   */
  class ReverseTrackFile<P, F, L> {
    var created: bool
    var enDepo: Dataset<P>
    var coord: Dataset<CoordPair<P>>
    var sigma: Dataset<F>
    var rLens: Option<L>
    var idxTr: Dataset<nat>
    var idxDepo: Dataset<nat>
    ghost var batches: seq<Batch<P, F, L>>
    /** The datasets' fill values, which `resize` writes into new rows before they are overwritten. */
    const vecFill: P
    const scalarFill: F

    /** The datasets hold exactly the batches written so far, on unlimited axes. */
    ghost predicate Valid()
      reads this
    {
      && AllAligned(batches)
      && created == (batches != [])
      && enDepo.maxRows.None? && coord.maxRows.None? && sigma.maxRows.None?
      && idxTr.maxRows.None? && idxDepo.maxRows.None?
      && TrackFileContents(enDepo.rows, coord.rows, sigma.rows, rLens, idxTr.rows, idxDepo.rows) == Contents(batches)
    }

    /** `h5py.File(name, 'w')`: a new, empty file. */
    constructor (vecFill: P, scalarFill: F)
      ensures Valid() && !created && batches == []
      ensures this.vecFill == vecFill && this.scalarFill == scalarFill
    {
      created := false;
      enDepo, coord, sigma := CreateGrowable([]), CreateGrowable([]), CreateGrowable([]);
      rLens := None;
      idxTr, idxDepo := CreateGrowable([]), CreateGrowable([]);
      batches := [];
      this.vecFill, this.scalarFill := vecFill, scalarFill;
    }

    /** The first branch: every dataset is created from the batch, each offset array holding one entry. */
    method CreateDatasets(b: Batch<P, F, L>)
      requires Valid() && !created && Aligned(b.tracks)
      modifies this
      ensures Valid() && batches == old(batches) + [b]
    {
      enDepo := CreateGrowable(b.vert);
      coord := CreateGrowable(Coords(b.tracks));
      sigma := CreateGrowable(b.tracks.sigmas);
      rLens := Some(b.tracks.lensRad);
      idxTr := CreateGrowable([|sigma.rows|]);
      idxDepo := CreateGrowable([|enDepo.rows|]);
      ContentsFirst(b);
      assert batches + [b] == [b];
      created := true;
      batches := [b];
    }

    /** The second branch: each column resized by the batch and its tail written, each offset array pushed. */
    method AppendDatasets(b: Batch<P, F, L>)
      requires Valid() && created && Aligned(b.tracks)
      modifies this
      ensures Valid() && batches == old(batches) + [b]
    {
      ContentsAppend(batches, b);
      AppendGrows(enDepo, b.vert, vecFill);
      enDepo := Append(enDepo, b.vert, vecFill).value;
      var pairFill := CoordPair(vecFill, vecFill);
      AppendGrows(coord, Coords(b.tracks), pairFill);
      coord := Append(coord, Coords(b.tracks), pairFill).value;
      AppendGrows(sigma, b.tracks.sigmas, scalarFill);
      sigma := Append(sigma, b.tracks.sigmas, scalarFill).value;
      PushGrows(idxTr, |sigma.rows|, 0);
      idxTr := Push(idxTr, |sigma.rows|, 0).value;
      PushGrows(idxDepo, |enDepo.rows|, 0);
      idxDepo := Push(idxDepo, |enDepo.rows|, 0).value;
      batches := batches + [b];
    }

    /**
     * `write_h5_reverse_track_file_event(h5file, vert, tracks, first)`:
     * `first` on a file that has the datasets raises (the names exist), and
     * not `first` on a file without them raises (nothing to resize); both
     * leave the file as it was. Otherwise the batch is appended: every
     * column grows by exactly the batch's rows, earlier rows unchanged, and
     * each offset array gains the new column length.
     */
    method WriteEvent(vert: seq<P>, tracks: Tracks<P, F, L>, first: bool) returns (r: Outcome<WriteError>)
      requires Valid() && Aligned(tracks)
      modifies this
      ensures Valid()
      ensures first && old(created) ==> r == Fail(DatasetExists)
      ensures !first && !old(created) ==> r == Fail(DatasetMissing)
      ensures r.Fail? ==> unchanged(this)
      ensures first != old(created) ==> r == Pass && batches == old(batches) + [Batch(vert, tracks)]
      ensures r.Pass? ==> && enDepo.rows == old(enDepo.rows) + vert
                          && coord.rows == old(coord.rows) + Coords(tracks)
                          && sigma.rows == old(sigma.rows) + tracks.sigmas
                          && idxTr.rows == old(idxTr.rows) + [|sigma.rows|]
                          && idxDepo.rows == old(idxDepo.rows) + [|enDepo.rows|]
                          && rLens == (if old(created) then old(rLens) else Some(tracks.lensRad))
    {
      var b := Batch(vert, tracks);
      if first == created {
        return if first then Fail(DatasetExists) else Fail(DatasetMissing);
      }
      ghost var before := batches;
      if first {
        CreateDatasets(b);
      } else {
        AppendDatasets(b);
      }
      ContentsAppend(before, b);
      r := Pass;
    }
  }

  /** The batch `generate_events` writes for one simulated event: its initial photon positions and its tracks. */
  function EventBatch<P, W, F, L>(ev: ShortEvents.Event<P, W>, analyze: ShortEvents.Event<P, W> -> Tracks<P, F, L>): (b: Batch<P, F, L>)
    requires ev.photonsBeg.Some?
    ensures b.vert == ev.photonsBeg.value.pos && b.tracks == analyze(ev)
  {
    Batch(ev.photonsBeg.value.pos, analyze(ev))
  }

  /** The simulated events can be written: each keeps its initial photons and yields stackable tracks. */
  predicate Writable<P, W, F, L>(events: seq<ShortEvents.Event<P, W>>, analyze: ShortEvents.Event<P, W> -> Tracks<P, F, L>)
  {
    forall k :: 0 <= k < |events| ==> events[k].photonsBeg.Some? && Aligned(analyze(events[k]))
  }

  /** The batches of a sequence of events, one per event, in order. */
  function EventBatches<P, W, F, L>(events: seq<ShortEvents.Event<P, W>>, analyze: ShortEvents.Event<P, W> -> Tracks<P, F, L>): (bs: seq<Batch<P, F, L>>)
    requires Writable(events, analyze)
    ensures |bs| == |events| && AllAligned(bs)
    ensures forall k :: 0 <= k < |bs| ==> bs[k] == EventBatch(events[k], analyze)
  {
    seq(|events|, k requires 0 <= k < |events| => EventBatch(events[k], analyze))
  }

  /** What `generate_events` itself can raise. */
  datatype GenerateError = TracksUnbound

  /**
   * The write loop of `generate_events`: for each of the runs of the
   * simulation, every event it yields is written, with `first` true only for
   * the first event of the whole file, and then the progress line reads the
   * last event's `tracks`. When the first run yields no event, `tracks` is
   * not yet bound and that line raises `UnboundLocalError`, with nothing
   * written; otherwise every write succeeds and the file holds one batch per
   * event.
   */
  method GenerateEvents<P, W, F, L>(runs: seq<seq<ShortEvents.Event<P, W>>>,
                                    analyze: ShortEvents.Event<P, W> -> Tracks<P, F, L>,
                                    vecFill: P, scalarFill: F)
    returns (f: ReverseTrackFile<P, F, L>, r: Outcome<GenerateError>)
    requires Writable(Concat(runs), analyze)
    ensures fresh(f) && f.Valid()
    ensures r.Fail? <==> |runs| > 0 && runs[0] == []
    ensures r.Fail? ==> r.error == TracksUnbound && f.batches == []
    ensures r.Pass? ==> f.batches == EventBatches(Concat(runs), analyze)
  {
    f := new ReverseTrackFile(vecFill, scalarFill);
    var first := true;
    for j := 0 to |runs|
      invariant f.Valid() && fresh(f)
      invariant Writable(Concat(runs[..j]), analyze)
      invariant f.batches == EventBatches(Concat(runs[..j]), analyze)
      invariant first == !f.created
      invariant first <==> j == 0
      invariant j > 0 ==> runs[0] != []
    {
      ConcatPrefix(runs, j);
      RunWritable(runs, j, analyze);
      first := WriteRun(f, runs[j], analyze, first, Concat(runs[..j]));
      if first {
        return f, Fail(TracksUnbound);
      }
    }
    assert runs[..|runs|] == runs;
    r := Pass;
  }

  /**
   * The inner loop of `generate_events`: every event of one run written in
   * order after the events `done` already in the file, `first` cleared by
   * the first write.
   */
  method WriteRun<P, W, F, L>(f: ReverseTrackFile<P, F, L>, run: seq<ShortEvents.Event<P, W>>,
                              analyze: ShortEvents.Event<P, W> -> Tracks<P, F, L>, first: bool,
                              ghost done: seq<ShortEvents.Event<P, W>>)
    returns (stillFirst: bool)
    requires Writable(done, analyze) && Writable(run, analyze)
    requires f.Valid() && f.batches == EventBatches(done, analyze) && first == !f.created
    modifies f
    ensures Writable(done + run, analyze)
    ensures f.Valid() && f.batches == EventBatches(done + run, analyze)
    ensures stillFirst == !f.created
    ensures stillFirst <==> first && run == []
  {
    stillFirst := first;
    assert done + run[..0] == done;
    if run == [] {
      return;
    }
    for k := 0 to |run|
      invariant f.Valid()
      invariant Writable(done + run[..k], analyze)
      invariant f.batches == EventBatches(done + run[..k], analyze)
      invariant stillFirst == !f.created
      invariant k > 0 ==> !stillFirst
    {
      WriteSimulatedEvent(f, done, run, k, analyze, stillFirst);
      stillFirst := false;
    }
    assert run[..|run|] == run;
  }

  /** Writing event k of a run adds its batch after those of the events before it. */
  lemma EventBatchesStep<P, W, F, L>(done: seq<ShortEvents.Event<P, W>>, run: seq<ShortEvents.Event<P, W>>, k: nat,
                                     analyze: ShortEvents.Event<P, W> -> Tracks<P, F, L>)
    requires Writable(done, analyze) && Writable(run, analyze) && k < |run|
    ensures Writable(done + run[..k], analyze) && Writable(done + run[..k + 1], analyze) && run[k].photonsBeg.Some?
    ensures EventBatches(done + run[..k + 1], analyze) == EventBatches(done + run[..k], analyze) + [EventBatch(run[k], analyze)]
  {
    EventBatchesSplit(done, run[..k], analyze);
    assert done + run[..k + 1] == (done + run[..k]) + [run[k]];
    EventBatchesSplit(done + run[..k], [run[k]], analyze);
  }

  /**
   * The loop body of `generate_events` for event k of the run: the event's
   * initial photon positions and its tracks written as one batch.
   */
  method WriteSimulatedEvent<P, W, F, L>(f: ReverseTrackFile<P, F, L>, ghost done: seq<ShortEvents.Event<P, W>>,
                                         run: seq<ShortEvents.Event<P, W>>, k: nat,
                                         analyze: ShortEvents.Event<P, W> -> Tracks<P, F, L>, first: bool)
    requires Writable(done, analyze) && Writable(run, analyze) && k < |run|
    requires f.Valid() && Writable(done + run[..k], analyze) && f.batches == EventBatches(done + run[..k], analyze)
    requires first == !f.created
    modifies f
    ensures f.Valid() && f.created
    ensures Writable(done + run[..k + 1], analyze) && f.batches == EventBatches(done + run[..k + 1], analyze)
  {
    EventBatchesStep(done, run, k, analyze);
    var ev := run[k];
    var vert := ev.photonsBeg.value.pos;
    var tracks := analyze(ev);
    var r := f.WriteEvent(vert, tracks, first);
  }

  /** The batches of two sequences of events, one after the other. */
  lemma EventBatchesSplit<P, W, F, L>(a: seq<ShortEvents.Event<P, W>>, b: seq<ShortEvents.Event<P, W>>,
                                      analyze: ShortEvents.Event<P, W> -> Tracks<P, F, L>)
    requires Writable(a, analyze) && Writable(b, analyze)
    ensures Writable(a + b, analyze)
    ensures EventBatches(a + b, analyze) == EventBatches(a, analyze) + EventBatches(b, analyze)
  {
    assert forall k :: 0 <= k < |a| + |b| ==> (a + b)[k] == if k < |a| then a[k] else b[k - |a|];
  }

  /** Each run's events are among the events of the whole simulation, so they can be written. */
  lemma RunWritable<P, W, F, L>(runs: seq<seq<ShortEvents.Event<P, W>>>, j: nat,
                                analyze: ShortEvents.Event<P, W> -> Tracks<P, F, L>)
    requires j < |runs| && Writable(Concat(runs), analyze)
    ensures Writable(runs[j], analyze) && Writable(Concat(runs[..j]), analyze)
  {
    ConcatPrefix(runs, j);
    PrefixWritable(Concat(runs[..j + 1]), Concat(runs), analyze);
    PartsWritable(Concat(runs[..j]), runs[j], analyze);
  }

  lemma PrefixWritable<P, W, F, L>(w: seq<ShortEvents.Event<P, W>>, all: seq<ShortEvents.Event<P, W>>,
                                   analyze: ShortEvents.Event<P, W> -> Tracks<P, F, L>)
    requires w <= all && Writable(all, analyze)
    ensures Writable(w, analyze)
  {
    assert forall k :: 0 <= k < |w| ==> w[k] == all[k];
  }

  lemma PartsWritable<P, W, F, L>(a: seq<ShortEvents.Event<P, W>>, b: seq<ShortEvents.Event<P, W>>,
                                  analyze: ShortEvents.Event<P, W> -> Tracks<P, F, L>)
    requires Writable(a + b, analyze)
    ensures Writable(a, analyze) && Writable(b, analyze)
  {
    assert forall k :: 0 <= k < |a| ==> a[k] == (a + b)[k];
    assert forall k :: 0 <= k < |b| ==> b[k] == (a + b)[|a| + k];
  }

  /**
   * What the file written by `generate_events` says about each event:
   * event k's deposits are `en_depo[idx_depo[k-1]:idx_depo[k]]`, its initial
   * photon positions, and its sigmas are `sigma[idx_tr[k-1]:idx_tr[k]]`.
   */
  lemma GeneratedEventRecoverable<P, W, F, L>(events: seq<ShortEvents.Event<P, W>>,
                                              analyze: ShortEvents.Event<P, W> -> Tracks<P, F, L>, k: nat)
    requires Writable(events, analyze) && k < |events|
    ensures var c := Contents(EventBatches(events, analyze));
      && BatchInRange(c.idxDepo, k, |c.enDepo|)
      && GetBatch(c.enDepo, c.idxDepo, k) == events[k].photonsBeg.value.pos
      && BatchInRange(c.idxTr, k, |c.sigma|)
      && GetBatch(c.sigma, c.idxTr, k) == analyze(events[k]).sigmas
  {
    BatchesRecoverable(EventBatches(events, analyze), k);
  }
}

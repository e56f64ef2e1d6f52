/**
 * The short event stream: one ROOT tree row (Event_short) per simulated
 * event, holding the event id and, for the photon snapshots at creation
 * (`photons_beg`) and at detection (`photons_end`), only the photon
 * positions and flags. The writer fills one scratch record per call and
 * appends a copy of it; a snapshot that is None is not filled, so that slot
 * of the scratch record keeps what the previous call put there. The reader
 * rebuilds a snapshot only when the stored slot is non-empty, so an empty
 * snapshot reads back as absent.
 */
module ShortEvents {
  import opened Wrappers
  import Cursor

  newtype uint32 = x: int | 0 <= x < 0x1_0000_0000
  newtype int32 = x: int | -0x8000_0000 <= x < 0x8000_0000

  /** chroma.event.Photons: parallel per-photon arrays (P a 3-vector, W a float). */
  datatype Photons<P, W> = Photons(
    pos: seq<P>,
    dir: seq<P>,
    pol: seq<P>,
    wavelengths: seq<W>,
    t: seq<W>,
    flags: seq<uint32>,
    lastHitTriangles: seq<int32>)

  /** Every per-photon array has one entry per photon. */
  predicate Parallel<P, W>(ph: Photons<P, W>)
  {
    var n := |ph.pos|;
    |ph.dir| == n && |ph.pol| == n && |ph.wavelengths| == n && |ph.t| == n
    && |ph.flags| == n && |ph.lastHitTriangles| == n
  }

  /** chroma.event.Event, as far as the short format is concerned. */
  datatype Event<P, W> = Event(id: int, photonsBeg: Option<Photons<P, W>>, photonsEnd: Option<Photons<P, W>>)

  /** Every snapshot the event carries has parallel arrays. */
  predicate WellFormed<P, W>(ev: Event<P, W>)
  {
    (ev.photonsBeg.Some? ==> Parallel(ev.photonsBeg.value))
    && (ev.photonsEnd.Some? ==> Parallel(ev.photonsEnd.value))
  }

  /** One photon of a stored snapshot: only its position and flag are kept. */
  datatype ShortPhoton<P> = ShortPhoton(pos: P, flag: uint32)

  /** A stored Event_short row. */
  datatype ShortEvent<P> = ShortEvent(id: int, photonsBeg: seq<ShortPhoton<P>>, photonsEnd: seq<ShortPhoton<P>>)

  /** The contents of a freshly constructed Event_short: no photons in either slot. */
  function EmptyRecord<P>(): (rec: ShortEvent<P>)
    ensures rec.photonsBeg == [] && rec.photonsEnd == []
  {
    ShortEvent(0, [], [])
  }

  /** `fill_photons(slot, len(pos), pos, flags)`: the slot holds the positions and flags of the snapshot. */
  function FillPhotons<P, W>(ph: Photons<P, W>): (slot: seq<ShortPhoton<P>>)
    requires Parallel(ph)
    ensures |slot| == |ph.pos|
    ensures forall k :: 0 <= k < |slot| ==> slot[k].pos == ph.pos[k] && slot[k].flag == ph.flags[k]
  {
    seq(|ph.pos|, k requires 0 <= k < |ph.pos| => ShortPhoton(ph.pos[k], ph.flags[k]))
  }

  /** The scratch record after `write_event(ev)`: id always set, each slot refilled only from a snapshot that is not None. */
  function FillEvent<P, W>(scratch: ShortEvent<P>, ev: Event<P, W>): (rec: ShortEvent<P>)
    requires WellFormed(ev)
    ensures rec.id == ev.id
    ensures ev.photonsBeg.None? ==> rec.photonsBeg == scratch.photonsBeg
    ensures ev.photonsEnd.None? ==> rec.photonsEnd == scratch.photonsEnd
    ensures ev.photonsBeg.Some? ==> |rec.photonsBeg| == |ev.photonsBeg.value.pos|
    ensures ev.photonsEnd.Some? ==> |rec.photonsEnd| == |ev.photonsEnd.value.pos|
    ensures ev.photonsBeg.Some? ==> forall k :: 0 <= k < |rec.photonsBeg| ==>
      rec.photonsBeg[k] == ShortPhoton(ev.photonsBeg.value.pos[k], ev.photonsBeg.value.flags[k])
    ensures ev.photonsEnd.Some? ==> forall k :: 0 <= k < |rec.photonsEnd| ==>
      rec.photonsEnd[k] == ShortPhoton(ev.photonsEnd.value.pos[k], ev.photonsEnd.value.flags[k])
  {
    ShortEvent(
      ev.id,
      if ev.photonsBeg.Some? then FillPhotons(ev.photonsBeg.value) else scratch.photonsBeg,
      if ev.photonsEnd.Some? then FillPhotons(ev.photonsEnd.value) else scratch.photonsEnd)
  }

  /** `ShortRootWriter`: the tree and the scratch record its rows are copied from. */
  class ShortWriter<P> {
    var scratch: ShortEvent<P>
    var rows: seq<ShortEvent<P>>

    /** A new tree holds no rows; the scratch record is freshly constructed. */
    constructor ()
      ensures scratch == EmptyRecord() && rows == []
    {
      scratch := EmptyRecord();
      rows := [];
    }

    /** `write_event`: refills the scratch record and appends exactly one row, a copy of it. */
    method WriteEvent<W>(ev: Event<P, W>)
      requires WellFormed(ev)
      modifies this
      ensures scratch == FillEvent(old(scratch), ev)
      ensures rows == old(rows) + [scratch]
    {
      scratch := scratch.(id := ev.id);
      if ev.photonsBeg.Some? {
        scratch := scratch.(photonsBeg := FillPhotons(ev.photonsBeg.value));
      }
      if ev.photonsEnd.Some? {
        scratch := scratch.(photonsEnd := FillPhotons(ev.photonsEnd.value));
      }
      rows := rows + [scratch];
    }
  }

  /** Stand-ins for the unspecified contents of `np.empty` arrays. */
  datatype Blank<P, W> = Blank(vector: P, scalar: W, flag: uint32, triangle: int32)

  /** `make_photon_with_arrays(size)`: a snapshot with every array of length `size`. */
  function MakePhotonWithArrays<P, W>(size: nat, blank: Blank<P, W>): (ph: Photons<P, W>)
    ensures Parallel(ph) && |ph.pos| == size
  {
    Photons(
      seq(size, _ => blank.vector),
      seq(size, _ => blank.vector),
      seq(size, _ => blank.vector),
      seq(size, _ => blank.scalar),
      seq(size, _ => blank.scalar),
      seq(size, _ => blank.flag),
      seq(size, _ => blank.triangle))
  }

  /** `get_photons(slot, ...)`: copies the stored positions and flags into a snapshot of the same size. */
  function GetPhotons<P, W>(slot: seq<ShortPhoton<P>>, ph: Photons<P, W>): (out: Photons<P, W>)
    requires Parallel(ph) && |ph.pos| == |slot|
    ensures Parallel(out) && |out.pos| == |slot|
    ensures forall k :: 0 <= k < |slot| ==> out.pos[k] == slot[k].pos && out.flags[k] == slot[k].flag
  {
    ph.(pos := seq(|slot|, k requires 0 <= k < |slot| => slot[k].pos),
        flags := seq(|slot|, k requires 0 <= k < |slot| => slot[k].flag))
  }

  /** One stored slot read back: absent when it holds no photons. */
  function DecodeSlot<P, W>(slot: seq<ShortPhoton<P>>, blank: Blank<P, W>): (r: Option<Photons<P, W>>)
    ensures r.Some? <==> |slot| > 0
    ensures r.Some? ==> Parallel(r.value) && |r.value.pos| == |slot|
    ensures r.Some? ==> forall k :: 0 <= k < |slot| ==> r.value.pos[k] == slot[k].pos && r.value.flags[k] == slot[k].flag
  {
    if |slot| > 0 then Some(GetPhotons(slot, MakePhotonWithArrays(|slot|, blank))) else None
  }

  /** `root_event_to_python_event`: the id, and each snapshot only where the stored slot is non-empty. */
  function RootEventToPythonEvent<P, W>(rec: ShortEvent<P>, blank: Blank<P, W>): (ev: Event<P, W>)
    ensures ev.id == rec.id && WellFormed(ev)
    ensures ev.photonsBeg.Some? <==> |rec.photonsBeg| > 0
    ensures ev.photonsEnd.Some? <==> |rec.photonsEnd| > 0
    ensures ev.photonsBeg.Some? ==> |ev.photonsBeg.value.pos| == |rec.photonsBeg|
    ensures ev.photonsEnd.Some? ==> |ev.photonsEnd.value.pos| == |rec.photonsEnd|
  {
    Event(rec.id, DecodeSlot(rec.photonsBeg, blank), DecodeSlot(rec.photonsEnd, blank))
  }

  /** The positions and flags of a snapshot agree with another's. */
  ghost predicate SamePositionsAndFlags<P, W>(a: Photons<P, W>, b: Photons<P, W>)
  {
    a.pos == b.pos && a.flags == b.flags
  }

  /**
   * Round trip of one present snapshot: a non-empty snapshot reads back with
   * the same positions and flags, an empty one reads back as absent.
   */
  lemma SnapshotRoundTrip<P, W>(ph: Photons<P, W>, blank: Blank<P, W>)
    requires Parallel(ph)
    ensures |ph.pos| == 0 ==> DecodeSlot(FillPhotons(ph), blank).None?
    ensures |ph.pos| > 0 ==>
      DecodeSlot(FillPhotons(ph), blank).Some? && SamePositionsAndFlags(DecodeSlot(FillPhotons(ph), blank).value, ph)
  {
    var slot := FillPhotons(ph);
    if |ph.pos| > 0 {
      var back := DecodeSlot(slot, blank).value;
      assert back.pos == ph.pos;
      assert back.flags == ph.flags;
    }
  }

  /** Round trip of a whole event through the scratch record: id always, each present snapshot as above. */
  lemma EventRoundTrip<P, W>(scratch: ShortEvent<P>, ev: Event<P, W>, blank: Blank<P, W>)
    requires WellFormed(ev)
    ensures var back := RootEventToPythonEvent(FillEvent(scratch, ev), blank);
      && back.id == ev.id
      && (ev.photonsBeg.Some? && |ev.photonsBeg.value.pos| == 0 ==> back.photonsBeg.None?)
      && (ev.photonsBeg.Some? && |ev.photonsBeg.value.pos| > 0 ==>
            back.photonsBeg.Some? && SamePositionsAndFlags(back.photonsBeg.value, ev.photonsBeg.value))
      && (ev.photonsEnd.Some? && |ev.photonsEnd.value.pos| == 0 ==> back.photonsEnd.None?)
      && (ev.photonsEnd.Some? && |ev.photonsEnd.value.pos| > 0 ==>
            back.photonsEnd.Some? && SamePositionsAndFlags(back.photonsEnd.value, ev.photonsEnd.value))
  {
    if ev.photonsBeg.Some? {
      SnapshotRoundTrip(ev.photonsBeg.value, blank);
    }
    if ev.photonsEnd.Some? {
      SnapshotRoundTrip(ev.photonsEnd.value, blank);
    }
  }

  /** An event with an empty begin snapshot and a 7-photon end snapshot reads back as (absent, 7 photons). */
  lemma SparseExample<P, W>(scratch: ShortEvent<P>, id: int, beg: Photons<P, W>, end: Photons<P, W>, blank: Blank<P, W>)
    requires Parallel(beg) && |beg.pos| == 0
    requires Parallel(end) && |end.pos| == 7
    ensures var back := RootEventToPythonEvent(FillEvent(scratch, Event(id, Some(beg), Some(end))), blank);
      back.id == id && back.photonsBeg.None? && back.photonsEnd.Some? && |back.photonsEnd.value.pos| == 7
      && SamePositionsAndFlags(back.photonsEnd.value, end)
  {
    EventRoundTrip(scratch, Event(id, Some(beg), Some(end)), blank);
  }

  /**
   * A snapshot that is None is not refilled: when the previous call stored a
   * non-empty end snapshot, the next row reads back with that same snapshot.
   */
  lemma AbsentSnapshotKeepsPrevious<P, W>(scratch: ShortEvent<P>, first: Event<P, W>, second: Event<P, W>, blank: Blank<P, W>)
    requires WellFormed(first) && WellFormed(second)
    requires first.photonsEnd.Some? && |first.photonsEnd.value.pos| > 0
    requires second.photonsEnd.None?
    ensures var back := RootEventToPythonEvent(FillEvent(FillEvent(scratch, first), second), blank);
      back.photonsEnd.Some? && SamePositionsAndFlags(back.photonsEnd.value, first.photonsEnd.value)
  {
    SnapshotRoundTrip(first.photonsEnd.value, blank);
  }

  /** `ShortRootReader`: a cursor over the event tree. */
  method OpenShortReader<P, W>(rows: seq<ShortEvent<P>>, blank: Blank<P, W>)
    returns (r: Cursor.Reader<ShortEvent<P>, Event<P, W>>)
    ensures fresh(r) && r.Valid() && r.i == -1 && r.entries == rows
    ensures forall rec :: r.decode(rec) == RootEventToPythonEvent(rec, blank)
  {
    r := new Cursor.Reader(rows, (rec: ShortEvent<P>) => RootEventToPythonEvent(rec, blank));
  }
}

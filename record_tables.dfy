/**
 * Detector-response tables: one ROOT tree row per PMT bin. Three kinds share
 * one pattern: a bin index, a flattened payload and what is needed to give
 * the payload its shape back on read.
 *   - PMT_pdf: a 3-d histogram, with its dimensions stored per row;
 *   - PMT_angles: one direction (3 values) per detector cell, nx*ny*nz cells;
 *   - Gauss_angle: one mean direction and a scalar sigma.
 * Writers validate leniently: a payload of the wrong shape is skipped with a
 * warning and no row is added. Reading a shape entry that does not exist
 * (`np.shape(a)[1]` of a 1-d array) raises IndexError in the caller.
 */
module RecordTables {
  import opened Wrappers
  import opened NdArrays
  import opened Seqs
  import Cursor

  /** A stored PMT_pdf row: bin index, the three dimensions and the counts in C order. */
  datatype PdfRow<V> = PdfRow(pmtBinInd: int, binsX: nat, binsY: nat, binsZ: nat, counts: seq<V>)

  /** A stored PMT_angles row: bin index, the detector bin counts and the flattened directions. */
  datatype AnglesRow<V> = AnglesRow(pmtBinInd: int, binsX: int, binsY: int, binsZ: int, angles: seq<V>)

  /** A stored Gauss_angle row: bin index, the mean direction and sigma. */
  datatype GaussRow<V, S> = GaussRow(pmtBinInd: int, mean: seq<V>, sigma: S)

  /** What a writer does with one payload. */
  datatype WriteOutcome<Row> = Written(row: Row) | Skipped | Raised

  /** A writer indexing past the end of the payload's shape tuple: numpy's IndexError. */
  datatype WriterError = ShapeIndexError

  /** Errors numpy raises while giving a stored payload its shape back. */
  datatype ReadError = ReshapeMismatch | NegativeDimensions

  /** The rows a write adds to the tree: one when written, none otherwise. */
  function Emitted<Row>(w: WriteOutcome<Row>): seq<Row>
  {
    if w.Written? then [w.row] else []
  }

  // ---- PMT_pdf ----

  /** `PDFRootWriter.write_event`: skip an empty 1-d array and any array that is not 3-d. */
  function EncodePdf<V>(pdf: NdArray<V>, pmtBinInd: int): (w: WriteOutcome<PdfRow<V>>)
    ensures !w.Raised?
    ensures w.Written? ==> w.row.pmtBinInd == pmtBinInd && w.row.counts == pdf.flat
    ensures w.Written? ==> pdf.shape == [w.row.binsX, w.row.binsY, w.row.binsZ]
  {
    if pdf.shape == [0] then Skipped
    else if |pdf.shape| != 3 then Skipped
    else Written(PdfRow(pmtBinInd, pdf.shape[0], pdf.shape[1], pdf.shape[2], pdf.flat))
  }

  /** `root_PMT_pdf_to_numpy_array`: reshape the counts to the stored dimensions. */
  function DecodePdf<V>(row: PdfRow<V>): (r: Result<(int, NdArray<V>), ReadError>)
    ensures r.Ok? <==> |row.counts| == row.binsX * row.binsY * row.binsZ
    ensures r.Err? ==> r.error == ReshapeMismatch
    ensures r.Ok? ==> r.value.0 == row.pmtBinInd && WellShaped(r.value.1)
    ensures r.Ok? ==> r.value.1.shape == [row.binsX, row.binsY, row.binsZ] && r.value.1.flat == row.counts
  {
    Product3(row.binsX, row.binsY, row.binsZ);
    if |row.counts| != row.binsX * row.binsY * row.binsZ then Err(ReshapeMismatch)
    else Ok((row.pmtBinInd, NdArray([row.binsX, row.binsY, row.binsZ], row.counts)))
  }

  /** A PDF is written exactly when it is 3-d; a 3-d array with a zero dimension is still written. */
  lemma PdfSkipRule<V>(pdf: NdArray<V>, pmtBinInd: int)
    ensures EncodePdf(pdf, pmtBinInd).Skipped? <==> |pdf.shape| != 3
    ensures !EncodePdf(pdf, pmtBinInd).Raised?
    ensures EncodePdf(pdf, pmtBinInd).Written? ==> EncodePdf(pdf, pmtBinInd).row.pmtBinInd == pmtBinInd
  {
  }

  /** Writing a well-shaped 3-d PDF and reading the row back gives the same bin and array. */
  lemma PdfRoundTrip<V>(pdf: NdArray<V>, pmtBinInd: int)
    requires WellShaped(pdf) && |pdf.shape| == 3
    ensures EncodePdf(pdf, pmtBinInd).Written?
    ensures DecodePdf(EncodePdf(pdf, pmtBinInd).row) == Ok((pmtBinInd, pdf))
  {
    Product3(pdf.shape[0], pdf.shape[1], pdf.shape[2]);
    assert [pdf.shape[0], pdf.shape[1], pdf.shape[2]] == pdf.shape;
  }

  /**
   * Flattening order: a nested x-by-y-by-z histogram flattened row-major
   * (`ravel`), written, read back and viewed as a box again is the same
   * histogram, element for element.
   */
  lemma PdfRoundTripNested<V>(a: seq<seq<seq<V>>>, x: nat, y: nat, z: nat, pmtBinInd: int)
    requires IsBox(a, x, y, z)
    ensures var pdf := NdArray([x, y, z], Ravel3(a));
      && EncodePdf(pdf, pmtBinInd).Written?
      && DecodePdf(EncodePdf(pdf, pmtBinInd).row).Ok?
      && var back := DecodePdf(EncodePdf(pdf, pmtBinInd).row).value.1;
      && back.shape == [x, y, z]
      && |back.flat| == x * y * z
      && Reshape3(back.flat, x, y, z) == a
  {
    ReshapeRavel(a, x, y, z);
  }

  /** A (4,) array is skipped; a (2,2,2) array is written and reads back unchanged. */
  lemma PdfExamples<V>(flat4: seq<V>, flat8: seq<V>, pmtBinInd: int)
    requires |flat4| == 4 && |flat8| == 8
    ensures EncodePdf(NdArray([4], flat4), pmtBinInd) == Skipped
    ensures EncodePdf(NdArray([0], flat4[..0]), pmtBinInd) == Skipped
    ensures EncodePdf(NdArray([2, 2, 2], flat8), pmtBinInd).Written?
    ensures DecodePdf(EncodePdf(NdArray([2, 2, 2], flat8), pmtBinInd).row) == Ok((pmtBinInd, NdArray([2, 2, 2], flat8)))
  {
  }

  /** The PDF tree. */
  class PdfWriter<V> {
    var rows: seq<PdfRow<V>>

    /** A new tree holds no rows. */
    constructor ()
      ensures rows == []
    {
      rows := [];
    }

    /** Adds one row for a 3-d payload; otherwise prints a warning and leaves the tree as it was. */
    method WriteEvent(pdf: NdArray<V>, pmtBinInd: int)
      modifies this
      ensures rows == old(rows) + Emitted(EncodePdf(pdf, pmtBinInd))
      ensures |pdf.shape| == 3 ==> |rows| == |old(rows)| + 1 && rows[|rows| - 1].pmtBinInd == pmtBinInd
      ensures |pdf.shape| != 3 ==> rows == old(rows)
    {
      if pdf.shape == [0] {
        return;
      }
      var shape := pdf.shape;
      if |shape| != 3 {
        return;
      }
      rows := rows + [PdfRow(pmtBinInd, shape[0], shape[1], shape[2], pdf.flat)];
    }
  }

  /** `PDFRootReader`: a cursor over the PDF tree. */
  method OpenPdfReader<V>(rows: seq<PdfRow<V>>) returns (r: Cursor.Reader<PdfRow<V>, Result<(int, NdArray<V>), ReadError>>)
    ensures fresh(r) && r.Valid() && r.i == -1 && r.entries == rows
    ensures forall row :: r.decode(row) == DecodePdf(row)
  {
    r := new Cursor.Reader(rows, (row: PdfRow<V>) => DecodePdf(row));
  }

  // ---- PMT_angles ----

  /**
   * `AngleRootWriter.write_PMT`: skip an empty 1-d array, a cell count other
   * than nx*ny*nz and a row width other than 3; indexing a shape entry the
   * array does not have raises.
   */
  function EncodeAngles<V>(angles: NdArray<V>, pmtBinInd: int, nx: int, ny: int, nz: int): (w: WriteOutcome<AnglesRow<V>>)
    ensures w.Written? ==> w.row.pmtBinInd == pmtBinInd && w.row.angles == angles.flat
    ensures w.Written? ==> w.row.binsX == nx && w.row.binsY == ny && w.row.binsZ == nz
  {
    if angles.shape == [0] then Skipped
    else if |angles.shape| == 0 then Raised
    else if angles.shape[0] != nx * ny * nz then Skipped
    else if |angles.shape| == 1 then Raised
    else if angles.shape[1] != 3 then Skipped
    else Written(AnglesRow(pmtBinInd, nx, ny, nz, angles.flat))
  }

  /**
   * A reader's `np.empty` buffer of `n` values after the ROOT helper has
   * copied the stored payload into it: the payload's values where it
   * reaches, and `blank`, standing for the uninitialised memory, beyond.
   */
  function Filled<V>(stored: seq<V>, n: nat, blank: V): (buf: seq<V>)
    ensures |buf| == n
    ensures forall k :: 0 <= k < n ==> buf[k] == if k < |stored| then stored[k] else blank
    ensures |stored| == n ==> buf == stored
  {
    seq(n, k requires 0 <= k < n => if k < |stored| then stored[k] else blank)
  }

  /**
   * `root_PMT_angles_to_numpy_array`: the payload copied into an
   * (nx*ny*nz) x 3 buffer, not reshaped to the cell grid; a negative cell
   * count is refused by `np.empty`.
   */
  function DecodeAngles<V>(row: AnglesRow<V>, blank: V): (r: Result<(int, NdArray<V>), ReadError>)
    ensures r.Ok? <==> row.binsX * row.binsY * row.binsZ >= 0
    ensures r.Err? ==> r.error == NegativeDimensions
    ensures r.Ok? ==> r.value.0 == row.pmtBinInd && WellShaped(r.value.1)
    ensures r.Ok? ==> r.value.1.shape == [row.binsX * row.binsY * row.binsZ, 3]
    ensures r.Ok? ==> forall k :: 0 <= k < |row.angles| && k < |r.value.1.flat| ==> r.value.1.flat[k] == row.angles[k]
  {
    var cells := row.binsX * row.binsY * row.binsZ;
    if cells < 0 then Err(NegativeDimensions)
    else
      Product2(cells, 3);
      Ok((row.pmtBinInd, NdArray([cells as nat, 3], Filled(row.angles, cells * 3, blank))))
  }

  /** When an angle list is written, skipped, or raises. */
  lemma AnglesWriteRule<V>(angles: NdArray<V>, pmtBinInd: int, nx: int, ny: int, nz: int)
    ensures EncodeAngles(angles, pmtBinInd, nx, ny, nz).Written? <==>
      (|angles.shape| >= 2 && angles.shape != [0] && angles.shape[0] == nx * ny * nz && angles.shape[1] == 3)
    ensures EncodeAngles(angles, pmtBinInd, nx, ny, nz).Raised? <==>
      (|angles.shape| == 0 || (|angles.shape| == 1 && angles.shape != [0] && angles.shape[0] == nx * ny * nz))
  {
  }

  /** Writing a well-shaped (nx*ny*nz) x 3 angle list and reading it back gives the same bin and array. */
  lemma AnglesRoundTrip<V>(angles: NdArray<V>, pmtBinInd: int, nx: int, ny: int, nz: int)
    requires WellShaped(angles) && |angles.shape| == 2
    requires angles.shape[0] == nx * ny * nz && angles.shape[1] == 3
    ensures EncodeAngles(angles, pmtBinInd, nx, ny, nz).Written?
    ensures forall blank :: DecodeAngles(EncodeAngles(angles, pmtBinInd, nx, ny, nz).row, blank) == Ok((pmtBinInd, angles))
    ensures |angles.flat| == 3 * (nx * ny * nz)
  {
    Product2(angles.shape[0], angles.shape[1]);
    assert angles.shape == [angles.shape[0], 3];
  }

  /** The angles tree. */
  class AnglesWriter<V> {
    var rows: seq<AnglesRow<V>>

    /** A new tree holds no rows. */
    constructor ()
      ensures rows == []
    {
      rows := [];
    }

    /** Adds one row, or skips with a warning, or raises IndexError with the tree unchanged. */
    method WritePMT(angles: NdArray<V>, pmtBinInd: int, nx: int, ny: int, nz: int) returns (r: Outcome<WriterError>)
      modifies this
      ensures rows == old(rows) + Emitted(EncodeAngles(angles, pmtBinInd, nx, ny, nz))
      ensures r.Fail? <==> EncodeAngles(angles, pmtBinInd, nx, ny, nz).Raised?
      ensures r.Fail? ==> r.error == ShapeIndexError
    {
      r := Pass;
      if angles.shape == [0] {
        return;
      }
      var shape := angles.shape;
      if |shape| == 0 {
        return Fail(ShapeIndexError);
      }
      if shape[0] != nx * ny * nz {
        return;
      }
      if |shape| == 1 {
        return Fail(ShapeIndexError);
      }
      if shape[1] != 3 {
        return;
      }
      rows := rows + [AnglesRow(pmtBinInd, nx, ny, nz, angles.flat)];
    }
  }

  /** `AngleRootReader`: a cursor over the angles tree. */
  method OpenAnglesReader<V>(rows: seq<AnglesRow<V>>, blank: V) returns (r: Cursor.Reader<AnglesRow<V>, Result<(int, NdArray<V>), ReadError>>)
    ensures fresh(r) && r.Valid() && r.i == -1 && r.entries == rows
    ensures forall row :: r.decode(row) == DecodeAngles(row, blank)
  {
    r := new Cursor.Reader(rows, (row: AnglesRow<V>) => DecodeAngles(row, blank));
  }

  // ---- Gauss_angle ----

  /** `GaussAngleRootWriter.write_PMT`: skip a mean whose first dimension is not 3. */
  function EncodeGauss<V, S>(mean: NdArray<V>, sigma: S, pmtBinInd: int): (w: WriteOutcome<GaussRow<V, S>>)
    ensures w.Written? ==> w.row.pmtBinInd == pmtBinInd && w.row.mean == mean.flat && w.row.sigma == sigma
  {
    if |mean.shape| == 0 then Raised
    else if mean.shape[0] != 3 then Skipped
    else Written(GaussRow(pmtBinInd, mean.flat, sigma))
  }

  /** `root_PMT_Gauss_angle_to_tuple`: the bin, the mean copied into a 1 x 3 buffer, and sigma. */
  function DecodeGauss<V, S>(row: GaussRow<V, S>, blank: V): (r: (int, NdArray<V>, S))
    ensures r.0 == row.pmtBinInd && r.2 == row.sigma
    ensures r.1.shape == [1, 3] && WellShaped(r.1)
    ensures forall k :: 0 <= k < |row.mean| && k < |r.1.flat| ==> r.1.flat[k] == row.mean[k]
  {
    Product2(1, 3);
    (row.pmtBinInd, NdArray([1, 3], Filled(row.mean, 3, blank)), row.sigma)
  }

  /** Writing a 3-vector mean and reading it back gives the bin, the same three values as a 1 x 3 array, and sigma. */
  lemma GaussRoundTrip<V, S>(mean: NdArray<V>, sigma: S, pmtBinInd: int)
    requires WellShaped(mean) && mean.shape == [3]
    ensures EncodeGauss(mean, sigma, pmtBinInd).Written?
    ensures |mean.flat| == 3
    ensures forall blank :: DecodeGauss(EncodeGauss(mean, sigma, pmtBinInd).row, blank) == (pmtBinInd, NdArray([1, 3], mean.flat), sigma)
  {
    Product2(1, 3);
    assert [3][..0] == [];
  }

  /** A mean is written exactly when its first dimension is 3, and only a scalar raises. */
  lemma GaussWriteRule<V, S>(mean: NdArray<V>, sigma: S, pmtBinInd: int)
    ensures EncodeGauss(mean, sigma, pmtBinInd).Written? <==> (|mean.shape| > 0 && mean.shape[0] == 3)
    ensures EncodeGauss(mean, sigma, pmtBinInd).Raised? <==> |mean.shape| == 0
  {
  }

  /**
   * The decoder returns the mean as a 1 x 3 array, whose first dimension is
   * 1, so the writer as written skips every mean it has read back.
   */
  lemma DecodedMeanSkipped<V, S>(row: GaussRow<V, S>, blank: V)
    ensures var (bin, mean, sigma) := DecodeGauss(row, blank);
      EncodeGauss(mean, sigma, bin) == Skipped
  {
  }

  /**
   * `write_PMT` as its description intends it: a mean given as a 1 x 3 array
   * is written too; every other shape is treated as the source treats it.
   */
  function EncodeGaussIntended<V, S>(mean: NdArray<V>, sigma: S, pmtBinInd: int): (w: WriteOutcome<GaussRow<V, S>>)
    ensures mean.shape != [1, 3] ==> w == EncodeGauss(mean, sigma, pmtBinInd)
  {
    if mean.shape == [1, 3] then Written(GaussRow(pmtBinInd, mean.flat, sigma))
    else EncodeGauss(mean, sigma, pmtBinInd)
  }

  /**
   * With the intended rule, a record read back and written again is the
   * record of the buffer the reader filled, which is the same record when it
   * holds the three values of a 3-vector or 1 x 3 mean.
   */
  lemma GaussRewriteRoundTrip<V, S>(row: GaussRow<V, S>, blank: V)
    ensures var (bin, mean, sigma) := DecodeGauss(row, blank);
      EncodeGaussIntended(mean, sigma, bin) == Written(row.(mean := Filled(row.mean, 3, blank)))
    ensures |row.mean| == 3 ==> var (bin, mean, sigma) := DecodeGauss(row, blank);
      EncodeGaussIntended(mean, sigma, bin) == Written(row)
  {
  }

  /** The Gaussian angle tree. */
  class GaussWriter<V, S> {
    var rows: seq<GaussRow<V, S>>

    /** A new tree holds no rows. */
    constructor ()
      ensures rows == []
    {
      rows := [];
    }

    /** Adds one row for a 3-coordinate or 1 x 3 mean, or skips with a warning, or raises IndexError for a scalar. */
    method WritePMT(mean: NdArray<V>, sigma: S, pmtBinInd: int) returns (r: Outcome<WriterError>)
      modifies this
      ensures rows == old(rows) + Emitted(EncodeGaussIntended(mean, sigma, pmtBinInd))
      ensures r.Fail? <==> |mean.shape| == 0
      ensures r.Fail? ==> r.error == ShapeIndexError
    {
      var shape := mean.shape;
      if |shape| == 0 {
        return Fail(ShapeIndexError);
      }
      r := Pass;
      if shape[0] != 3 && shape != [1, 3] {
        return;
      }
      rows := rows + [GaussRow(pmtBinInd, mean.flat, sigma)];
    }
  }

  /** `GaussAngleRootReader`: a cursor over the Gaussian angle tree. */
  method OpenGaussReader<V, S>(rows: seq<GaussRow<V, S>>, blank: V) returns (r: Cursor.Reader<GaussRow<V, S>, (int, NdArray<V>, S)>)
    ensures fresh(r) && r.Valid() && r.i == -1 && r.entries == rows
    ensures forall row :: r.decode(row) == DecodeGauss(row, blank)
  {
    r := new Cursor.Reader(rows, (row: GaussRow<V, S>) => DecodeGauss(row, blank));
  }
}

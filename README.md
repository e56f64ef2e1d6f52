# multilenssim event I/O and batch drivers in Dafny

This project models the bookkeeping core of the multilenssim lens-detector
simulation:

- **Short ROOT files** (`ShortIO/root_short.py`). Events are stored with
  only their photon positions and flags. PMT PDFs, PMT angle tables and
  Gaussian angle records are stored in trees. Cursor readers walk a tree
  forwards, backwards or by index.
- **Reverse-track HDF5 files** (`driver_utils.py`, `drivers/neutrons.py`).
  Each event appends its energy deposits, its (hit, mean) track coordinates
  and its sigmas to growing columns. It also pushes the new column lengths
  onto the offset arrays `idx_depo` and `idx_tr`, so event k can be cut back
  out as `column[idx[k-1]:idx[k]]`.
- **Batch drivers**. `fixed_dist_hist`/`bkg_dist_hist` (`nog4_sim.py`) and
  `gen_ev` (`drivers/g4_sim_muon.py`) write one batch per seed location.
  The model covers their first-iteration and `NameError` paths.
- **Output file names** and the **triangular lens lattice**
  (`kabamlandKW.py`).

## Modelling choices

- **Cursors.** A reader is a `Cursor.Reader` class. Its position `i` is
  updated in place, and its entries and decoder are fixed.
- **Writers.** A writer is a class whose `rows` field is the tree it fills
  row by row.
- **Reverse-track file.** `TrackStore.ReverseTrackFile` holds one
  `Datasets.Dataset` per HDF5 dataset. A ghost history `batches` ties all of
  them to the pure function `TrackStore.Contents`, which concatenates the
  columns and takes running totals for the offsets.
- **Loops.** The loops of `generate_events`, the dist-hist drivers, `gen_ev`
  and `triangular_indices` are `while`/`for` loops, proved against those
  specification functions.
- **Parameters.** The only inputs are:
  - the events the simulator delivers, one run per pass of the outer loop (a seed location; a sample in `generate_events`);
  - the track analyzer `analyze`;
  - the numpy fill values (`vecFill`, `scalarFill`).
- **Element types.** Element types are type parameters:
  - photon vectors, floats and lens radii are never computed on, so they
    stay abstract;
  - `flags` is `uint32` and `last_hit_triangles` is `int32`.
- **numpy arrays.** An array is its shape and its row-major flat contents,
  as `ravel` gives them (`NdArrays`).

## The source as written versus the intended behaviour

- **Empty batches.** The source appends a batch of k rows with
  `ds.resize(n+k)` followed by `ds[-k:] = b`. For k = 0 the slice `[-0:]`
  selects every row, so the write fails. The model states this
  (`Datasets.AppendAsWritten`). Everything else uses the intended tail
  write (`Datasets.Append`). See Findings.
- **Fixed extent.** `nog4_sim.py` creates its datasets without `maxshape`
  and later resizes them, which h5py rejects. The model gives its drivers
  growable datasets and states the as-written failure separately. See
  Findings.
- **Gauss means.** `GaussAngleRootWriter.write_PMT` writes only a mean
  whose first dimension is 3, though the reader hands the mean back as a
  1x3 array. The model's writer also accepts a 1x3 mean
  (`RecordTables.EncodeGaussIntended`). See Findings.

## Model

| member | source | states |
|---|---|---|
| Cursor.Reader.constructor | ShortIO/root_short.py:133-137 | a new reader holds the tree's entries and decoder and stands before the first entry (i == -1) |
| Cursor.NextMove | ShortIO/root_short.py:148-156 | next() reads an entry exactly when one follows position i; it then moves to i+1 and reads entry i+1, and otherwise stays at i |
| Cursor.PrevMove | ShortIO/root_short.py:158-167 | prev() reads an entry exactly when the position is after the first entry; it then moves to i-1 and reads it, and otherwise resets to -1 |
| Cursor.JumpMove | ShortIO/root_short.py:174-182 | jump_to(k) reads an entry exactly when 0 <= k < len; it then moves to k and reads entry k, and otherwise stays at i |
| Cursor.Reader.Len | ShortIO/root_short.py:139-141 | the length is the number of entries in the tree |
| Cursor.Reader.Index | ShortIO/root_short.py:184-186 | index() reports the current position |
| Cursor.Reader.Next | ShortIO/root_short.py:148-156 | next() at the last entry raises StopIteration and keeps the position; otherwise it advances by one and returns the decoded entry |
| Cursor.Reader.Prev | ShortIO/root_short.py:158-167 | prev() at position 0 or before raises StopIteration and leaves the position at -1; otherwise it steps back one and returns the decoded entry |
| Cursor.Reader.Current | ShortIO/root_short.py:169-172 | current() returns the decoded entry at the position |
| Cursor.Reader.JumpTo | ShortIO/root_short.py:174-182 | jump_to(k) outside [0, len) raises IndexError and keeps the position; inside, it moves to k and returns entry k decoded |
| Cursor.Reader.Scan | ShortIO/root_short.py:143-146 | iterating yields every entry decoded, in tree order |
| Cursor.NextRunForward | ShortIO/root_short.py:148-156 | k calls of next() from position i yield entries i+1 .. i+k and end at i+k |
| Cursor.Exhaustion | ShortIO/root_short.py:148-156 | n calls of next() on a fresh reader yield entries 0 .. n-1; one more raises and stays at n-1 |
| Cursor.PrevRunBackward | ShortIO/root_short.py:158-167 | p calls of prev() from position p yield p-1 .. 0; one more raises and leaves the reader at -1 |
| ShortEvents.FillPhotons | ShortIO/root_short.py:201-213 | the stored slot has one short photon per photon, holding that photon's position and flag |
| ShortEvents.FillEvent | ShortIO/root_short.py:197-213 | the stored event has the event's id; a present snapshot replaces its slot with one short photon per photon, holding that photon's position and flag; a missing snapshot leaves the slot as the previous write left it |
| ShortEvents.EmptyRecord | ShortIO/root_short.py:194 | a freshly constructed Event_short holds no photons in either slot |
| ShortEvents.ShortWriter.constructor | ShortIO/root_short.py:189-195 | a new writer has an empty scratch Event_short and an empty tree |
| ShortEvents.ShortWriter.WriteEvent | ShortIO/root_short.py:197-215 | the scratch record is filled from the event and one copy of it is appended to the tree |
| ShortEvents.MakePhotonWithArrays | ShortIO/root_short.py:36-45 | every per-photon array of the new snapshot has exactly `size` entries |
| ShortEvents.GetPhotons | ShortIO/root_short.py:64-71 | the decoded arrays stay parallel, and photon k gets slot k's position and flag |
| ShortEvents.DecodeSlot | ShortIO/root_short.py:62-72 | a snapshot is produced exactly when the slot is non-empty, one photon per stored photon, with its position and flag |
| ShortEvents.RootEventToPythonEvent | ShortIO/root_short.py:56-87 | the decoded event keeps the id; each snapshot is present exactly when its slot is non-empty, with the slot's photon count |
| ShortEvents.SnapshotRoundTrip | ShortIO/root_short.py:197-215 | writing a non-empty snapshot and reading it back gives the same positions and flags; an empty one reads back as absent |
| ShortEvents.EventRoundTrip | ShortIO/root_short.py:56-87 | writing, then reading, an event preserves its id and the positions and flags of each non-empty snapshot |
| ShortEvents.SparseExample | ShortIO/root_short.py:56-87 | an event with 0 begin photons and 7 end photons reads back with no begin snapshot and the same 7 end photons |
| ShortEvents.AbsentSnapshotKeepsPrevious | ShortIO/root_short.py:201-213 | an event written without an end snapshot reads back with the previous event's end photons |
| ShortEvents.OpenShortReader | ShortIO/root_short.py:133-137 | the event reader starts before the first row and decodes each row with root_event_to_python_event |
| NdArrays.Reshape3 | ShortIO/root_short.py:89-96 | reshaping x*y*z values gives an x-by-y-by-z box |
| NdArrays.RavelIndex | ShortIO/root_short.py:244-245 | ravel of a box puts element [i][j][k] at row-major position (i*y + j)*z + k |
| NdArrays.ReshapeRavel | ShortIO/root_short.py:89-96 | reshaping the raveled box gives back the box |
| NdArrays.RavelReshape | ShortIO/root_short.py:89-96 | raveling the reshaped values gives back the flat values |
| RecordTables.PdfSkipRule | ShortIO/root_short.py:231-246 | write_event skips exactly the arrays that are not 3-dimensional (shape (0,) included), never raises, and stores the given bin index |
| RecordTables.EncodePdf | ShortIO/root_short.py:231-246 | write_event never raises; a written row holds the bin index, the three extents of the PDF and its raveled counts |
| RecordTables.DecodePdf | ShortIO/root_short.py:89-96 | the reshape succeeds exactly when the stored counts number binsX*binsY*binsZ, and then gives a well-shaped binsX-by-binsY-by-binsZ array of those counts with the bin index; otherwise it fails as numpy's reshape does |
| RecordTables.PdfRoundTrip | ShortIO/root_short.py:89-96 | a written 3-dimensional PDF reads back as its bin index and the same shape and values |
| RecordTables.PdfRoundTripNested | ShortIO/root_short.py:231-246 | a nested x-by-y-by-z PDF box is stored and, once reshaped, reads back as the same box |
| RecordTables.PdfExamples | ShortIO/root_short.py:231-246 | shape (4,) and (0,) arrays are skipped; a 2x2x2 array round-trips |
| RecordTables.PdfWriter.constructor | ShortIO/root_short.py:223-229 | a new PDF writer has an empty tree |
| RecordTables.PdfWriter.WriteEvent | ShortIO/root_short.py:231-246 | a 3-dimensional PDF adds one row with its bin index; any other shape leaves the tree unchanged |
| RecordTables.OpenPdfReader | ShortIO/root_short.py:252-314 | the PDF reader starts before the first row and decodes with root_PMT_pdf_to_numpy_array |
| RecordTables.AnglesWriteRule | ShortIO/root_short.py:326-344 | write_PMT stores a row exactly when the table has nx*ny*nz rows of 3; it raises exactly on a scalar, or on a 1-dimensional array that passes the row-count check |
| RecordTables.EncodeAngles | ShortIO/root_short.py:326-344 | a written row holds the bin index, the grid dimensions nx, ny, nz and the raveled angle table |
| RecordTables.Filled | ShortIO/root_short.py:103-104 | the reader's buffer holds exactly n values: the stored payload's values where it reaches, the uninitialised value beyond |
| RecordTables.DecodeAngles | ShortIO/root_short.py:98-111 | np.empty refuses exactly a negative cell count; otherwise the result is the bin index and a well-shaped (binsX*binsY*binsZ)-by-3 array whose leading values are the stored angles |
| RecordTables.AnglesRoundTrip | ShortIO/root_short.py:98-111 | a written well-shaped (nx*ny*nz)-by-3 table fills the reader's buffer exactly and reads back as its bin index and the same table |
| RecordTables.AnglesWriter.constructor | ShortIO/root_short.py:318-324 | a new angles writer has an empty tree |
| RecordTables.AnglesWriter.WritePMT | ShortIO/root_short.py:326-344 | the tree gains the encoded row, or nothing; the call fails with IndexError on the shape exactly when numpy would raise |
| RecordTables.OpenAnglesReader | ShortIO/root_short.py:350-412 | the angles reader starts before the first row and decodes with root_PMT_angles_to_numpy_array, for a given uninitialised buffer value |
| RecordTables.GaussRoundTrip | ShortIO/root_short.py:113-120 | a written well-shaped 3-vector mean fills the reader's buffer exactly, and reads back with its sigma as the bin index, the same three values as a 1x3 array, and the sigma |
| RecordTables.GaussWriteRule | ShortIO/root_short.py:424-434 | write_PMT stores a row exactly when the mean's first extent is 3, and raises exactly on a scalar mean |
| RecordTables.EncodeGauss | ShortIO/root_short.py:424-434 | a written row holds the bin index, the raveled mean and the sigma |
| RecordTables.DecodeGauss | ShortIO/root_short.py:113-120 | the result is the bin index, a well-shaped 1x3 mean whose leading values are the stored mean, and the stored sigma |
| RecordTables.GaussWriter.constructor | ShortIO/root_short.py:416-422 | a new Gauss writer has an empty tree |
| RecordTables.GaussWriter.WritePMT | ShortIO/root_short.py:424-434 | the tree gains the row under the intended shape rule (a 1x3 mean accepted as well; see Findings), or nothing; the call fails with IndexError exactly on a scalar mean |
| RecordTables.DecodedMeanSkipped | ShortIO/root_short.py:113-120 | every mean the decoder returns is 1x3, so the writer as written skips it |
| RecordTables.EncodeGaussIntended | ShortIO/root_short.py:424-434 | the intended rule differs from the written one only in accepting a 1x3 mean |
| RecordTables.GaussRewriteRoundTrip | ShortIO/root_short.py:113-120 | under the intended rule, a record read back and written again is the record of the filled 1x3 buffer, which is the record itself when it holds three mean values |
| RecordTables.OpenGaussReader | ShortIO/root_short.py:440-502 | the Gauss reader starts before the first row and decodes with root_PMT_Gauss_angle_to_tuple, for a given uninitialised buffer value |
| Offsets.Cumulative | driver_utils.py:175-184 | the offset array has one entry per batch |
| Offsets.CumulativeAppend | driver_utils.py:175-184 | a new batch pushes the old total plus its size |
| Offsets.CumulativeAt | driver_utils.py:175-184 | entry k is the total size of batches 0..k |
| Offsets.CumulativeStep | driver_utils.py:175-184 | entry k is the previous entry (0 before the first) plus batch k's size |
| Offsets.CumulativeNonDecreasing | driver_utils.py:175-184 | the offsets never decrease |
| Offsets.CumulativeMonotone | driver_utils.py:175-184 | for j <= k, entry j is at most entry k |
| Offsets.CumulativeLast | driver_utils.py:175-184 | the last offset is the total size |
| Offsets.BatchRecovery | driver_utils.py:163-184 | in the concatenated column, batch k is the slice between offsets k-1 and k |
| Offsets.IndexMatchesColumn | driver_utils.py:175-184 | the last offset is the column length |
| Offsets.ExampleIndex | driver_utils.py:175-184 | batches of sizes 3, 0, 5, 2 give the offsets 3, 3, 8, 10 |
| Offsets.ExampleBatches | driver_utils.py:175-184 | with offsets 3, 3, 8, 10, batch 1 is empty and batch 2 is rows 3..8 |
| Datasets.CreateGrowable | driver_utils.py:155-158 | a dataset created with maxshape None holds the given rows and admits any row count |
| Datasets.CreateFixed | nog4_sim.py:68-72 | a dataset created without maxshape holds the given rows and admits no more rows than it has |
| Datasets.Resize | driver_utils.py:165-171 | resize fails exactly beyond maxshape; otherwise the rows below n are kept and the new rows hold the fill value |
| Datasets.AssignFrom | driver_utils.py:166-172 | a slice assignment succeeds exactly when the value matches the selection or is one broadcast row; the rows before the slice are kept |
| Datasets.NegativeStart | driver_utils.py:166 | Python's `[-k:]` starts at len-k for 0 < k <= len, and at 0 for k == 0 |
| Datasets.AppendAsWritten | driver_utils.py:165-172 | the as-written append fails exactly beyond the extent (ExtentExceeded) or for an empty batch on a non-empty dataset (BroadcastMismatch); on success the dataset has grown by the batch size |
| Datasets.Append | driver_utils.py:165-172 | the intended append fails exactly beyond the extent, with ExtentExceeded; on success the dataset has grown by the batch size and its new tail is the batch |
| Datasets.Push | driver_utils.py:175-184 | an offset push fails exactly beyond the extent; on success the old entries are kept and the value is the one new last entry |
| Datasets.AppendGrows | driver_utils.py:165-172 | within the extent, an append leaves the old rows intact and adds exactly the batch |
| Datasets.AppendExtentExceeded | driver_utils.py:165-172 | an append beyond the extent fails with ExtentExceeded |
| Datasets.PushGrows | driver_utils.py:175-184 | an offset push grows the array by exactly that one entry |
| Datasets.EmptyBatchRejected | driver_utils.py:165-172 | the as-written append of an empty batch to a non-empty dataset fails, while the intended one changes nothing |
| Datasets.AsWrittenAgrees | driver_utils.py:165-172 | for a non-empty batch, or an empty dataset, the as-written and intended appends agree |
| Datasets.FixedExtentRejectsGrowth | nog4_sim.py:68-78 | a dataset created without maxshape rejects every non-empty append |
| Datasets.GrowableAcceptsGrowth | driver_utils.py:154-162 | a dataset created with maxshape None accepts every append, which concatenates |
| TrackStore.Coords | driver_utils.py:157 | coord holds one (hit, mean) pair per track, from hit_pos and means |
| TrackStore.PartsAppend | driver_utils.py:163-172 | a new batch adds exactly its own part to each column's parts |
| TrackStore.ContentsAppend | driver_utils.py:163-184 | one more event appends its rows to every column and pushes the new column lengths onto both offset arrays; r_lens stays that of the first event |
| TrackStore.ContentsFirst | driver_utils.py:154-162 | the first event creates each column with its own rows and each offset array with its single length |
| TrackStore.BatchesRecoverable | driver_utils.py:153-184 | event k's deposits and sigmas are recovered exactly by slicing with idx_depo and idx_tr |
| TrackStore.CoordRecoverable | driver_utils.py:153-184 | with one sigma per track, idx_tr also slices coord into event k's (hit, mean) pairs |
| TrackStore.CoordMatchesSigma | driver_utils.py:157-170 | with one sigma per track, coord and sigma stay the same length |
| TrackStore.OffsetsTrackLengths | driver_utils.py:175-184 | each offset array has one entry per event, never decreases, and ends at its column's length |
| TrackStore.EmptyBatchRepeatsOffset | driver_utils.py:175-179 | an event with no tracks repeats the previous idx_tr entry |
| TrackStore.ReverseTrackFile.constructor | driver_utils.py:153 | a new file has no datasets and no history |
| TrackStore.ReverseTrackFile.CreateDatasets | driver_utils.py:154-162 | the first write creates the datasets from the event, and the file then holds that batch |
| TrackStore.ReverseTrackFile.AppendDatasets | driver_utils.py:163-184 | a later write appends the event, and the file holds the history plus that batch |
| TrackStore.ReverseTrackFile.WriteEvent | driver_utils.py:153-184 | first=True on an existing file and first=False on a missing one fail and change nothing; otherwise each column gains the event's rows, each offset array gains the new column length, and r_lens is set by the first event only |
| TrackStore.EventBatches | drivers/neutrons.py:121-142 | each simulated event becomes one batch: its initial photon positions and the analyzer's tracks |
| TrackStore.EventBatch | drivers/neutrons.py:132-134 | the batch of one simulated event holds its initial photon positions and the analyzer's tracks for it |
| TrackStore.GenerateEvents | drivers/neutrons.py:100-144 | fails with UnboundLocalError, nothing written, exactly when the first run yields no event (the progress line reads the unbound `tracks`); otherwise the file holds one batch per event, in order |
| TrackStore.WriteRun | drivers/neutrons.py:124-142 | one run's events are written in order; `first` stays true only while no dataset exists, i.e. exactly when it was true and the run was empty |
| TrackStore.WriteSimulatedEvent | drivers/neutrons.py:132-139 | one simulated event is written as the next batch, after which the datasets exist |
| TrackStore.EventBatchesStep | drivers/neutrons.py:121-142 | writing one more event adds exactly that event's batch |
| TrackStore.EventBatchesSplit | drivers/neutrons.py:121-142 | the batches of two event runs are those of the first run followed by those of the second |
| TrackStore.GeneratedEventRecoverable | drivers/neutrons.py:132-134 | in the generated file, event k's deposits are its initial photon positions and its sigmas are the analyzer's, both cut out by the offsets |
| BatchDrivers.TrackBatches | nog4_sim.py:58-80 | each dist-hist event becomes one batch holding only the analyzer's tracks |
| BatchDrivers.TrackBatchesSplit | nog4_sim.py:58-80 | the batches of two runs are those of the first followed by those of the second |
| BatchDrivers.TrackColumns.constructor | nog4_sim.py:58-66 | the dist-hist columns start empty |
| BatchDrivers.TrackColumns.Create | nog4_sim.py:68-72 | creating the columns stores the first batch |
| BatchDrivers.TrackColumns.Grow | nog4_sim.py:73-78 | growing the columns adds one more batch |
| BatchDrivers.LocationError | nog4_sim.py:66-79 | a location fails with AlreadyCreated exactly when the flag is still set and it yields two or more events, with UnboundName exactly when the flag is cleared, nothing is written yet and it yields an event, and otherwise not at all |
| BatchDrivers.DistLocation | nog4_sim.py:66-80 | one seed location either fails as the source does (a second create on a later event of the first location; an unbound name while nothing exists yet) or adds its events as batches |
| BatchDrivers.DistHist | nog4_sim.py:66-80 | the write loop's result is the success-or-error outcome defined over the seed locations (AlreadyCreated, UnboundName or the file), for an analyzer whose tracks are aligned; the setup failures before the loop are left out |
| BatchDrivers.DistHistResult | nog4_sim.py:58-80 | the write loop fails with AlreadyCreated exactly when the first location yields two or more events, with UnboundName exactly when it yields none and a later one yields some; on success idx has one entry per event |
| BatchDrivers.DistHistOneEventPerLocation | nog4_sim.py:58-80 | with one event per seed location, the driver succeeds and idx has one entry per location |
| BatchDrivers.DistHistOffsets | nog4_sim.py:73-80 | on success idx has one entry per event, never decreases, ends at len(sigma), and slices out event k's sigmas |
| BatchDrivers.Latest | drivers/g4_sim_muon.py:40-44 | the event in hand at location j is the last event of the last location up to j that simulated any |
| BatchDrivers.LatestWritable | drivers/g4_sim_muon.py:40-44 | the event in hand at each location (the last simulated, or the previous one when none was) keeps its initial photons and yields aligned tracks |
| BatchDrivers.LocationEvents | drivers/g4_sim_muon.py:40-59 | gen_ev writes exactly one event per location: the latest event in hand |
| BatchDrivers.LocationEventsWritable | drivers/g4_sim_muon.py:40-59 | those events are all writable |
| BatchDrivers.LocationBatches | drivers/g4_sim_muon.py:40-59 | one batch per location, all aligned |
| BatchDrivers.LocationBatchesStep | drivers/g4_sim_muon.py:45-59 | each location adds exactly the batch of its latest event |
| BatchDrivers.GenEvResult | drivers/g4_sim_muon.py:26-61 | gen_ev fails with the unbound name exactly when the first location simulates no event; on success both offset arrays have one entry per location |
| BatchDrivers.GenEv | drivers/g4_sim_muon.py:26-61 | the driver's result is exactly the outcome defined over the locations, for events that all keep their initial photons and written events whose tracks are aligned |
| BatchDrivers.GenEvOneBatchPerLocation | drivers/g4_sim_muon.py:45-61 | on success each offset array has one entry per location, and location j's slice is its latest event's deposits and sigmas |
| BatchDrivers.EmptyLocationRepeats | drivers/g4_sim_muon.py:40-59 | a location that simulated no event writes the previous location's event again |
| BatchDrivers.GenEvFirstLocationEmpty | drivers/g4_sim_muon.py:40-45 | if the first location simulates no event, the unbound name raises NameError |
| FileNames.SeedLocation | drivers/neutrons.py:102 | the tag is `r`, the inner radius in decimal, `-`, and the outer radius in decimal |
| FileNames.SeedLocationInjective | drivers/neutrons.py:102 | seed locations with non-negative radii have distinct tags |
| FileNames.SummaryFileName | drivers/neutrons.py:102-107 | the summary file lies under the data directory, its name starting with the seed tag's `r` and ending in `.h5` |
| FileNames.MuonFileName | drivers/g4_sim_muon.py:28-32 | gen_ev's file lies under the data directory, its name starting with the seed tag's `r` and ending in `.h5` |
| FileNames.DigitsRoundTrip | drivers/neutrons.py:102-107 | the decimal rendering of a number reads back as that number |
| FileNames.DigitsInjective | drivers/neutrons.py:102-107 | different numbers render differently |
| FileNames.SummaryExample | drivers/neutrons.py:102-107 | directory data/, seed location (0, 1), energy 50 and particle e- name the file data/r0-1_50_e-_sim.h5 |
| FileNames.MuonExample | drivers/g4_sim_muon.py:28-32 | directory data/, seed location (3, 4), energy 2 and particle neutron name the file data/r3-4_2neutron_sim.h5 |
| FileNames.SummaryNameInjective | drivers/neutrons.py:102-107 | with the same directory, seed location and particle, two summary names coincide exactly when the energies agree |
| FileNames.MuonNameInjective | drivers/g4_sim_muon.py:28-32 | the same holds of gen_ev's names, despite the missing separator |
| Lattice.TriangularNumber | kabamlandKW.py:183-184 | twice the triangular number is base*(base+1), so the integer division is exact |
| Lattice.RowX | kabamlandKW.py:176-180 | row y has base-y points, from y to 2*(base-1)-y |
| Lattice.Rows | kabamlandKW.py:174-181 | the lists for rows 0..n-1 have as many entries as those rows hold points |
| Lattice.TriangularIndices | kabamlandKW.py:174-181 | for base <= 0 linspace raises; otherwise the lists are the rows bottom-up and each has triangular_number(base) entries |
| Lattice.RowsCount | kabamlandKW.py:174-184 | rows 0..n-1 hold n*(2*base-n+1)/2 points, and all rows hold triangular_number(base) |
| Lattice.RowsInTriangle | kabamlandKW.py:174-181 | every (x, y) lies in the triangle: 0 <= y < base, y <= x <= 2(base-1)-y, x and y of one parity; the y values never decrease |
| Lattice.RowsAt | kabamlandKW.py:174-181 | point m of row y is at entry RowStart(y)+m, with x = y+2m |
| Lattice.FirstRow | kabamlandKW.py:175-176 | the lists start with the bottom row, x = 0, 2, ..., 2(base-1) at y = 0 |
| Lattice.SmallLattice | kabamlandKW.py:174-184 | base 3 gives x = [0,2,4,1,3,2], y = [0,0,0,1,1,2] and a triangular number of 6 |

## Left out

- File I/O: ROOT and HDF5 files, trees, branches, `close()` and deepdish are out of the model. A tree is a sequence of rows and an HDF5 file is a set of datasets.
- The C++ helpers: `fill_photons`, `get_photons`, `fill_pdf`, `get_angles` and the rest are called from `ShortIO/root_short.py`. Their source is not part of this model, so each is modelled by what its call site implies. The import-time compile of `root_short.C` and the library loading are not modelled either.
- Reader opening: the ROOT file is not opened or read. A reader is given the tree's rows, and the readers' `__init__` is modelled only as what it sets up.
- Laziness: `__iter__` is modelled as the whole decoded sequence (`Reader.Scan`), not as a lazy generator.
- Numeric widths: float32 precision is out of scope, and `np.empty`'s arbitrary contents are a `blank` value given to the decoders that expose them. Positions, directions, wavelengths, times and lens radii are element types the model never computes on, with the fill values as parameters.
- The simulator: Chroma, the Geant4 guns, `sph_scatter` and the other random sampling are out. So is the track analyzer (full reverse tracking). They appear only as the events and the `analyze` function given to each driver.
- `write_deep_dish_file`, called by `generate_events` for its second output, is left out. It writes a deepdish file whose format is not part of this model.
- `fire_g4_particles` and the other Geant4 drivers are left out because they are simulation, not bookkeeping.
- Concurrency and GPUs: CUDA contexts and multiprocessing are out of scope.
- Partial files: when a driver raises, the source leaves a partial file on disk. The model returns only the error.
- `config_stat.py` and `paths.py`: the configuration and directory constants, and the rest of `kabamlandKW.py`'s geometry (lens placement, rotations, STL output), are outside the core.
- Lattice.TriangularIndices: returns `int` indices where the source returns float arrays from `linspace`. Every value is an integer, which the module comments explain.
- Cursor.Reader.Current: requires a position at or after the first entry. At i == -1, `GetEntry(-1)` loads nothing and the branch keeps whatever entry was loaded last, which the model does not track.
- ShortEvents.EventRoundTrip: does not claim that an absent (None) snapshot round-trips. The writer then keeps the previous event's photons (`AbsentSnapshotKeepsPrevious`), so it would not.
- ShortEvents.SnapshotRoundTrip: states positions and flags only. Directions, polarizations, wavelengths, times and triangles are not stored in the short format, and read back as `np.empty` contents.
- RecordTables.AnglesRoundTrip: covers 2-dimensional tables only; the writer's rule for other ranks is stated by `AnglesWriteRule`.
- RecordTables.DecodeAngles and RecordTables.DecodeGauss: the reader's buffer has exactly the size `np.empty` gives it ((nx*ny*nz, 3) and (1, 3), root_short.py:103 and 117). What `get_angles` and `get_Gauss_angle` copy when the stored payload has another length, such as a (n, 3, 2) table or a (3, 2) mean that the writers accept, is not visible. `RecordTables.Filled` assumes that they copy the payload's leading values and leave the rest of the buffer as `np.empty` left it (a `blank` parameter).
- BatchDrivers.TrackBatches: the dist-hist drivers write no en_depo column. Their batches have empty deposits, and only `coord`, `sigma`, `r_lens` and `idx` are kept (`DistFile`).
- TrackStore.GenerateEvents and TrackStore.EventBatches: the analyzer is assumed to return aligned tracks for every event written (`Writable`); a misaligned result would make the `coord` assignment fail in the source.
- BatchDrivers.GenEv: the analyzer is assumed to return aligned tracks for the event written at each location (`RunsWritable`); a misaligned result would make the `coord` assignment fail in the source. Events that are simulated but then replaced before the write need only keep their initial photons, which drivers/g4_sim_muon.py:43 reads.
- `print` statements: the progress and error messages are omitted; the one evaluation they can fail on, the unbound `tracks` at drivers/neutrons.py:144, is modelled by `TrackStore.GenerateEvents`. Skipped writes are modelled as writing nothing.
- `nog4_sim.py`'s `i =+ 1`: this assigns +1 instead of adding 1 (lines 79 and 104). It sits after the inner loop, so `i` is 0 for every event of the first seed location and 1 at every later one. `i += 1` would count the locations instead, but it too leaves `i` at 0 only during the first location, so the `i == 0` test takes the same branch either way. `BatchDrivers.LocationError` follows this: a second event at the first location creates `coord` again (`AlreadyCreated`); a first location with no events leaves `coord` unbound for the next one (`UnboundName`).
- BatchDrivers.DistHist: models the write loop of `fixed_dist_hist` and `bkg_dist_hist` only, with growable datasets as the rest of the model has them (the as-written fixed extent is `Datasets.FixedExtentRejectsGrowth`). Three things before or around that loop are not modelled. (1) `fixed_dist_hist` calls `fixed_dist(sample, 5000, rads=dist)` (nog4_sim.py:61) without the `in_shell` and `out_shell` parameters that `fixed_dist` requires (nog4_sim.py:14), which raises TypeError. (2) Both drivers open `path+fname` (nog4_sim.py:63, 88), but `path` is bound nowhere (the script binds `data_file_dir`, nog4_sim.py:118), so both raise NameError before the first batch. (3) The analyzer is assumed to return tracks whose hit_pos and means line up (`AlignedAnalyzer`); a misaligned batch would make the `coord` assignment fail in the source.

## Findings

| source | as written | input that shows it | evidently intended | confidence | as-written member | corrected member |
|---|---|---|---|---|---|---|
| driver_utils.py:165-172 (likewise drivers/neutrons.py:78-85, nog4_sim.py:73-78 and 98-103, drivers/g4_sim_muon.py:50-56) | the new rows are written as `ds[-k:] = batch` after growing by k | an event with no tracks (k = 0) written after an earlier event: `[-0:]` selects every row, and the empty batch cannot fill them | write the batch into the rows from the old length on, so that an empty batch changes nothing | not executed | Datasets.EmptyBatchRejected | Datasets.AppendGrows |
| nog4_sim.py:68-78 (likewise 93-103) | `coord` and `sigma` are created with `create_dataset(data=...)` and no `maxshape`, then resized | any second batch with at least one track: resizing a dataset whose extent is fixed fails | create them with `maxshape=(None, ...)`, as driver_utils.py:155-158 does | not executed | Datasets.FixedExtentRejectsGrowth | Datasets.GrowableAcceptsGrowth |
| ShortIO/root_short.py:424-434 (with 113-120) | write_PMT writes only a mean whose `shape[0]` is 3 | the (1, 3) mean that root_PMT_Gauss_angle_to_tuple returns, or any 1x3 mean as write_PMT's own description asks for: `shape[0]` is 1, so the row is skipped | accept a 1x3 mean as well, so that a record read back can be written again | not executed | RecordTables.DecodedMeanSkipped | RecordTables.GaussRewriteRoundTrip |

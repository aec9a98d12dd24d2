# Verified model of the molecular-dynamics post-processing scripts

This project models the text-processing core of a set of post-processing
scripts for a LAMMPS tensile test on a Voronoi polycrystal, in Dafny. It
proves what that core guarantees.

- **Trajectory converter** (`scripts/convert_to_trajectory.py`) — module `Trajectory`:
  - `read_dump_voro` cuts a LAMMPS-style dump into snapshots of timestep,
    positions, box bounds and atom ids;
  - `write_trajectory` re-emits the snapshots in the fixed `id type x y z` layout;
  - `verify_output` compares the first lines of the two files.
- **Dislocation analysis** (`scripts/analyze_dislocations.py`):
  - module `Dislocations` models `read_lammps_dump`, a second, independent dump
    reader. It has fixed columns, a `reading_atoms` flag, a soft cutoff at the
    declared atom count and an optional timestep filter;
  - module `DislocationStats` models the numeric part of `analyze_time_evolution`
    (box volume, CSP count, density, sorted timesteps, strain matching),
    `identify_dislocations`, `calculate_dislocation_density`, the three phases
    of `main` and the `.xyz` export.
- **Thermo-log extraction**:
  - module `StressStrain` models `extract_stress_strain_data` and
    `write_stress_strain_data`;
  - module `StressCurve` models the header search, the data loop and the
    yield-point choice of `stress_strain_curve.py`.
- **Chunking** (`scripts/split_voro.py`) — module `SplitVoro`: the chunk count,
  the chunk contents read from the shared cursor, and the chunk names.
- **Report tables** (`scripts/generate_project_report.py`) — module `ReportTables`:
  - the table-grouping loop of `read_markdown_file`;
  - `process_markdown_table`, with the ReportLab table abstracted as its rows,
    its column widths and its list of style commands.

## How the model is built

**Shared modules**
- `Wrappers` holds `Option` and `Result`.
- `Text` holds the Python `str` operations the scripts use: `strip`,
  `strip('|')`, `split()`, `split(sep)`, `startswith`, `in`, `replace(c, '')`,
  `lower` and `list.index`.
- `Numbers` holds `int()` and `float()` as partial parsers returning `Option`,
  `int(x)` on a float as truncation toward zero, and `f"{n}"` for integers.
- `Geometry` holds the `Vec3` position.

**Scripts that change state step by step**
- Each becomes a `method` with a loop, proved equal to a functional
  specification.
- The specification is a one-line `Step` (or `Group`) and a `Run` that repeats
  it to the end of the input.
- A `next(f)` is a jump of the line index, so a line pulled by `next(f)` is
  never seen by the loop.
- An exception that escapes is a `Failure` of a `Result` carrying an error
  value. Some error values name the line, and some name a row or nothing.
- A per-line handler (`except ValueError: continue`) skips the line.
- A handler around the whole loop ends the run. The result is then `None`,
  an abort or an error value.
- The properties are lemmas about the specification.

**Float formats and the report regex**
- The float formats (`.6f`, `.6e`, numpy's `str`) are function parameters,
  since their digits are not modelled.
- The table-start regular expression of the report is the predicate
  parameter `isTableStart`.

**The two thermo-log readers differ.**
- `extract_stress_strain_data` works on the stripped line:
  - it takes the first `Step` line that names every required key as the header;
  - it reads only rows with as many tokens as the header;
  - it resets the reference lengths at every step-0 row;
  - it negates the pressure;
  - it skips rows that do not convert;
  - it turns a missing reference or a zero reference into `None` for the whole result.
- `stress_strain_curve.py` matches its skip prefixes against the unstripped line:
  - it reads any line with enough tokens;
  - it sets the reference Lz once, at the first step-0 row, and drops the rows before it;
  - it keeps the raw Pzz;
  - it aborts the whole loop on the first value that does not convert.

**What the converter does with its input**
- It reads the column names from the line after `ITEM: ATOMS`, not from the
  marker line itself (see Findings).
- It never uses the declared atom count.
- Data lines are read only after a TIMESTEP, and only when every token is a
  number and there are at least four. Every other line is skipped without
  error.
- A line of at least four numbers, after a TIMESTEP and before any ATOMS
  header, stops the scan (UnboundLocalError).
- After an ATOMS header, a line of at least four numbers that is shorter than
  a resolved column index stops the scan (IndexError).

## Model

| member | source | states |
|---|---|---|
| Text.StripCharsSpec | scripts/generate_project_report.py:82 | `strip(chars)` keeps one contiguous piece of the text that neither starts nor ends with a stripped character, and everything it drops is a stripped character |
| Text.StripIdempotent | scripts/generate_project_report.py:82-83 | stripping an already stripped cell again changes nothing |
| Text.TokensAreWords | scripts/convert_to_trajectory.py:49 | every token of `split()` is non-empty and free of whitespace |
| Text.TokensJoin | scripts/convert_to_trajectory.py:49 | `split()` gives back the words that were joined with single spaces |
| Text.JoinSplitOn | scripts/generate_project_report.py:43 | joining the pieces of `split(sep)` with `sep` gives back the text |
| Text.SplitOnKeeps | scripts/generate_project_report.py:82 | a character absent from the text is absent from every piece of `split(sep)` |
| Text.Remove | scripts/generate_project_report.py:40 | `replace(c, '')` leaves no `c`, never lengthens the text, and leaves a text without `c` as it is |
| Text.RemoveCounts | scripts/generate_project_report.py:40 | only the occurrences of `c` go: every other character keeps its count |
| Text.RemoveAppend | scripts/generate_project_report.py:40 | removal distributes over concatenation, so the characters other than `c` stay in their order |
| Text.RemoveAbsent | scripts/generate_project_report.py:40 | a text without `c` is returned unchanged |
| Text.RemoveSpacesStripped | scripts/generate_project_report.py:85 | removing the spaces from a stripped cell leaves it stripped |
| Text.IndexOrSpec | scripts/convert_to_trajectory.py:40-43 | `xs.index(x) if x in xs else d` is the first position of `x` when present and `d` otherwise |
| Numbers.ParseWord | scripts/convert_to_trajectory.py:49 | `float` and `int` read a whitespace-free token as it stands |
| Numbers.Truncate | scripts/convert_to_trajectory.py:51 | `int()` of a float truncates toward zero |
| Numbers.ParseIntText | scripts/convert_to_trajectory.py:67 | an integer written with `f"{n}"` reads back with `int()` as the same integer |
| Trajectory.ParseAllSpec | scripts/convert_to_trajectory.py:49 | `list(map(float, tokens))` succeeds exactly when every token is a number, and converts each one |
| Trajectory.ResolveColumnsSpec | scripts/convert_to_trajectory.py:40-43 | each column index is the first position of its name in the header list, or 0, 1, 2, 3 for id, x, y, z when the name is absent |
| Trajectory.ReadDumpVoro | scripts/convert_to_trajectory.py:5-60 | the loop, with its `next(f)` jumps and its final flush, computes the scanner's specification for every input |
| Trajectory.ReadDumpWellFormed | scripts/convert_to_trajectory.py:19-20 | every returned snapshot has at least one position, one atom id per position, and three box axes when it has a box |
| Trajectory.StepEmission | scripts/convert_to_trajectory.py:18-20 | a snapshot is closed only at a TIMESTEP marker, and only when it has a timestep and at least one position |
| Trajectory.RunExtends | scripts/convert_to_trajectory.py:19-20 | closed snapshots are only ever appended, so the result keeps file order |
| Trajectory.TimestepResets | scripts/convert_to_trajectory.py:18-24 | a TIMESTEP marker succeeds exactly when the next line is an integer, clears positions and ids, and keeps the box bounds and the columns |
| Trajectory.BoxOnlyFromBoundsSection | scripts/convert_to_trajectory.py:27-32 | only a BOX BOUNDS section changes the box bounds |
| Trajectory.BoundsFatal | scripts/convert_to_trajectory.py:27-31 | a BOX BOUNDS marker without three following fully numeric lines stops the whole scan with an error |
| Trajectory.OtherItemLinesIgnored | scripts/convert_to_trajectory.py:35-37 | an `ITEM:` line other than TIMESTEP, BOX BOUNDS and ATOMS changes nothing |
| Trajectory.DataLine | scripts/convert_to_trajectory.py:47-54 | a data line is recorded exactly when a timestep is open, every token is a number and there are at least four; then the id and position are appended; otherwise it is skipped; a recorded line fails only without columns or with a column past its end |
| Trajectory.SkipLine | scripts/convert_to_trajectory.py:47-54 | a skipped line can be dropped at the point where it is read: the scan from it equals the scan from the next line |
| Trajectory.DeclaredCountUnused | scripts/convert_to_trajectory.py:35-50 | the NUMBER OF ATOMS marker and its value line are both passed over: the declared count is never used |
| Trajectory.AtomsHeaderLine | scripts/convert_to_trajectory.py:38-44 | at an ATOMS marker the columns come from the next line and the scan resumes after that line |
| Trajectory.RunAhead | scripts/convert_to_trajectory.py:14-54 | the scan from a line on depends only on the lines from there on |
| Trajectory.LineAfterAtomsNotRecorded | scripts/convert_to_trajectory.py:38-44 | the line after an ATOMS marker is never recorded: replacing it by any line naming the same columns changes nothing |
| Trajectory.FirstAtomDropped | scripts/convert_to_trajectory.py:38-44 | as written, an all-numeric line after an ATOMS marker is dropped and the columns become 0, 1, 2, 3 |
| Trajectory.MarkerStep | scripts/convert_to_trajectory.py:38-44 | corrected: an ATOMS marker takes the column names after `ITEM: ATOMS` on its own line and moves to the next line |
| Trajectory.FirstAtomRecorded | scripts/convert_to_trajectory.py:38-54 | corrected: the first atom line after an ATOMS marker is recorded with the columns the marker names |
| Trajectory.StandardColumns | scripts/convert_to_trajectory.py:81 | example, one fixed input: the `id type x y z` layout puts id in column 0 and the coordinates in columns 2, 3 and 4 |
| Trajectory.WriteBox | scripts/convert_to_trajectory.py:72-79 | the box loop writes the box text: three default axes without a box, otherwise one line per axis, or IndexError on an axis with fewer than two values |
| Trajectory.WriteAtoms | scripts/convert_to_trajectory.py:81-83 | the atom loop writes one line per pair of `zip(atom_ids, positions)` |
| Trajectory.WriteTrajectory | scripts/convert_to_trajectory.py:62-83 | the writer's loop produces the trajectory text, or fails with the first unwritable snapshot |
| Trajectory.BoundLinesSpec | scripts/convert_to_trajectory.py:73-75 | the box lines exist exactly when every axis has two values, and line k shows the first two values of axis k |
| Trajectory.SnapshotTextDefined | scripts/convert_to_trajectory.py:72-79 | a snapshot can be written exactly when it has no box, an empty box, or two values on every axis |
| Trajectory.SnapshotHeader | scripts/convert_to_trajectory.py:66-70 | a written snapshot starts with TIMESTEP, the timestep, NUMBER OF ATOMS, the number of positions and the BOX BOUNDS header; both numbers read back with `int()` |
| Trajectory.SnapshotBody | scripts/convert_to_trajectory.py:72-83 | then come the box lines, which are the box section's text and are three `0.0 100.0` lines without a box, then the ATOMS header, and exactly one line per atom in order |
| Trajectory.SnapshotBox | scripts/convert_to_trajectory.py:72-79 | lines 5 onward of a snapshot's text are three `0.0 100.0` lines when the box is `None` or empty, and otherwise one line per axis showing that axis's first two values |
| Trajectory.TrajectoryTextSpec | scripts/convert_to_trajectory.py:64-65 | the writer fails exactly when some snapshot cannot be written, and otherwise writes the snapshots one after the other |
| Trajectory.TrajectoryStartsWithFirst | scripts/convert_to_trajectory.py:65-66 | the output opens with the first snapshot's text |
| Trajectory.WrittenSnapshotLength | scripts/convert_to_trajectory.py:66-83 | a snapshot from the scanner is written as 9 + its atom count lines, the first being the TIMESTEP header |
| Trajectory.ConversionCheck | scripts/convert_to_trajectory.py:85-100 | after converting a dump with a snapshot and ten lines, the check passes exactly when the dump's first line is the TIMESTEP header |
| Trajectory.EmptyConversionCheck | scripts/convert_to_trajectory.py:90-92 | a dump without snapshots gives an empty output, on which the check stops with an error |
| Dislocations.ReadLammpsDump | scripts/analyze_dislocations.py:9-82 | the loop, with its `next(f)` jumps and its final save, computes the reader's specification for every input |
| Dislocations.SaveSpec | scripts/analyze_dislocations.py:28-36 | closing a frame stores it exactly when it read an atom and its timestep is wanted, overwriting an earlier frame with that timestep, and leaves every other entry alone |
| Dislocations.RunConsistent | scripts/analyze_dislocations.py:26-70 | along the whole scan the three lists grow together with `atoms_read`, and every stored frame is well formed and wanted |
| Dislocations.ReadFramesWellFormed | scripts/analyze_dislocations.py:73-80 | every stored frame has an atom, as many types and CSP values as positions, a three-axis box if any, and a wanted timestep |
| Dislocations.TimestepLine | scripts/analyze_dislocations.py:27-44 | a TIMESTEP line succeeds exactly when the next line is an integer, saves the frame, starts fresh lists and counters, and keeps the box |
| Dislocations.AtomLine | scripts/analyze_dislocations.py:55-70 | while reading atoms, a line is added exactly when it has eleven tokens that convert (type, position and CSP appended), and reading stops at the declared count |
| Dislocations.IgnoredLine | scripts/analyze_dislocations.py:52-55 | a line without a marker while not reading atoms changes nothing |
| Dislocations.CapAtAtomsMarker | scripts/analyze_dislocations.py:52-54 | an ATOMS marker starts reading with the cutoff in force: at most max(read + 1, declared) atoms |
| Dislocations.CapKept | scripts/analyze_dislocations.py:55-68 | no line without a marker reads past the cutoff |
| Dislocations.CapStretch | scripts/analyze_dislocations.py:55-68 | over a whole stretch of lines without a marker the cutoff holds: the scan gets through it with the stored frames and timestep untouched and no atom read past the cap |
| DislocationStats.SortedKeysSpec | scripts/analyze_dislocations.py:134 | `sorted(data.keys())` holds exactly the stored timesteps, each once, in strictly ascending order |
| DislocationStats.VolumePositive | scripts/analyze_dislocations.py:146-150 | a box whose axes all have lo < hi has a positive volume |
| DislocationStats.BoxVolume | scripts/analyze_dislocations.py:146-150 | the volume loop computes the product of the axis widths times 1e-30 |
| DislocationStats.CountTrueBounds | scripts/analyze_dislocations.py:153-154 | the dislocation count is at most the number of atoms, and zero exactly when no CSP exceeds the threshold |
| DislocationStats.DislocationsMonotone | scripts/analyze_dislocations.py:117-123 | raising the CSP threshold never finds more dislocation atoms |
| DislocationStats.CalculateDislocationDensity | scripts/analyze_dislocations.py:125-130 | the density exists exactly for a non-zero volume, and then density × volume = count × 1e-10 |
| DislocationStats.DensitySign | scripts/analyze_dislocations.py:125-130 | in a box of positive volume the density is non-negative, and zero exactly when no atom is flagged |
| DislocationStats.GrainsBounds | scripts/analyze_dislocations.py:161 | a frame with atoms has between one and (number of atoms) grain types |
| DislocationStats.CollectSpec | scripts/analyze_dislocations.py:139-161 | the statistics have one entry per timestep each (density, count, grains of that frame), and fail exactly when a frame has no box |
| DislocationStats.FrameStatistics | scripts/analyze_dislocations.py:139-161 | the statistics loop computes those lists or the first error |
| DislocationStats.StrainMapSpec | scripts/analyze_dislocations.py:190 | `dict(zip(...))` holds exactly the timesteps of the strain rows, each with the strain of its last row |
| DislocationStats.MatchedSpec | scripts/analyze_dislocations.py:193-196 | a matched entry is exactly a timestep present in the strain data, with its strain and density, and the entries follow ascending timestep order |
| DislocationStats.MatchTimesteps | scripts/analyze_dislocations.py:191-196 | the matching loop produces the strains and densities of those entries |
| DislocationStats.EvolutionShape | scripts/analyze_dislocations.py:206-214 | the result's timesteps are the stored ones in ascending order, with one entry per timestep in each list, and matched pairs in that order |
| DislocationStats.AnalyzeTimeEvolution | scripts/analyze_dislocations.py:132-214 | the statistics loop and the matching loop together compute the evolution or its error |
| DislocationStats.PhaseOf | scripts/analyze_dislocations.py:272-281 | every timestep is in exactly one phase |
| DislocationStats.PhasesPartition | scripts/analyze_dislocations.py:272-281 | the three phase lists together have exactly as many densities as there are timesteps |
| DislocationStats.PhaseMembers | scripts/analyze_dislocations.py:272-281 | a density belongs to the list of its timestep's phase |
| DislocationStats.PhaseIndices | scripts/analyze_dislocations.py:272-281 | the positions of a phase's timesteps: ascending, and exactly those whose timestep is in the phase |
| DislocationStats.PhaseSelection | scripts/analyze_dislocations.py:272-281 | a phase list is exactly the densities at its phase's positions, each once and in their original order |
| DislocationStats.XyzHeader | scripts/analyze_dislocations.py:228-229 | the first line reads back as the atom count, the second as the caption followed by the timestep |
| DislocationStats.XyzBody | scripts/analyze_dislocations.py:230-231 | line k + 2 describes atom k (type, position, CSP), and a consistent frame has one line per atom |
| DislocationStats.XyzSpec | scripts/analyze_dislocations.py:216-232 | a file is written exactly for a stored timestep, with that header and body |
| DislocationStats.WriteXyzAtoms | scripts/analyze_dislocations.py:230-231 | the atom loop writes one line per atom, in order |
| DislocationStats.ExportFrameToXyz | scripts/analyze_dislocations.py:216-232 | the export writes the frame's text, or nothing for a missing timestep |
| StressStrain.ResolveSpec | scripts/extract_stress_strain_data.py:27-31 | each resolved index points at the first occurrence of its key in the header |
| StressStrain.EngineeringStrain | scripts/extract_stress_strain_data.py:54-60 | the strain s satisfies s × L0 = L − L0 |
| StressStrain.ExtractStressStrainData | scripts/extract_stress_strain_data.py:4-85 | the loop computes the extraction's specification, `None` for a missing file or a run that raises |
| StressStrain.BeforeHeader | scripts/extract_stress_strain_data.py:24-38 | before the header, a line becomes the header exactly when it starts with `Step` and names every required key; nothing else changes |
| StressStrain.AfterHeaderSkipped | scripts/extract_stress_strain_data.py:42-71 | after the header, a line of another width or with fields that do not convert changes nothing |
| StressStrain.AfterHeaderRow | scripts/extract_stress_strain_data.py:42-66 | a converting row records strain 0 at step 0 and resets the reference, otherwise the engineering strain, or fails without a reference or with a zero one; the stress is negated |
| StressStrain.LineExtends | scripts/extract_stress_strain_data.py:66 | one line never removes a record, and a found header stays found |
| StressStrain.RunExtends | scripts/extract_stress_strain_data.py:20-71 | records are kept in file order: the scan only appends |
| StressStrain.RunWithoutHeader | scripts/extract_stress_strain_data.py:20-38 | without a header line the scan changes nothing |
| StressStrain.NoHeaderNoData | scripts/extract_stress_strain_data.py:80-83 | a missing file or a log without a header line gives `None` |
| StressStrain.RecordLineHead | scripts/extract_stress_strain_data.py:102 | a record line starts with the step, as text that reads back as the step, then a comma |
| StressStrain.StressStrainTextSpec | scripts/extract_stress_strain_data.py:87-102 | a file is written exactly for a non-empty result: the header, then one line per record in order |
| StressStrain.WriteRecordLines | scripts/extract_stress_strain_data.py:101-102 | the record loop writes one line per record, in order |
| StressStrain.WriteStressStrainData | scripts/extract_stress_strain_data.py:87-105 | the writer produces that text, or nothing for `None` or empty data |
| StressCurve.FindSpec | scripts/stress_strain_curve.py:19 | `Find` returns the first occurrence of a word from a position on, or none exists |
| StressCurve.InOrderOccurs | scripts/stress_strain_curve.py:19 | every word of an ordered match occurs in the line |
| StressCurve.FirstHeaderSpec | scripts/stress_strain_curve.py:16-25 | the header is the first line that passes the test, or no line passes it |
| StressCurve.FirstHeaderBound | scripts/stress_strain_curve.py:16-25 | the header index is a line of the input |
| StressCurve.FindHeader | scripts/stress_strain_curve.py:16-25 | the search loop stops at the first header line |
| StressCurve.ArgMax | scripts/stress_strain_curve.py:84 | `np.argmax` is the first index of the largest stress |
| StressCurve.YieldIndex | scripts/stress_strain_curve.py:82-94 | the yield point is reported exactly for more than one point whose first maximum lies past timestep 0 |
| StressCurve.StressStrainCurve | scripts/stress_strain_curve.py:13-94 | the script computes its specification: the error message, or the curve and its yield point |
| StressCurve.CurveFromHeader | scripts/stress_strain_curve.py:30-94 | after the header: the columns, the rows, then the plotted data |
| StressCurve.ReadRows | scripts/stress_strain_curve.py:40-58 | the data loop computes the run of the row step over the lines after the header |
| StressCurve.CurveRow | scripts/stress_strain_curve.py:45-58 | rows before the first step-0 row are dropped, the reference Lz is set once and never reset, and a kept row appends its step, raw Pzz and strain, a zero reference aborting |
| StressCurve.CurveLineRead | scripts/stress_strain_curve.py:41-45 | a line that is not blank, not a summary line and long enough goes through the row step |
| StressCurve.CurveLineIgnored | scripts/stress_strain_curve.py:41-45 | a blank or summary line, or one too short, changes nothing |
| StressCurve.CurveRowAborts | scripts/stress_strain_curve.py:46-48 | a read line whose step, Pzz or Lz does not convert aborts the loop |
| StressCurve.CurveLineKeeps | scripts/stress_strain_curve.py:40-58 | one line keeps the lists parallel and the reference once set |
| StressCurve.CurveRunKeeps | scripts/stress_strain_curve.py:40-58 | over the loop the lists stay parallel, the reference once set is final, and rows keep file order |
| StressCurve.PlottedShape | scripts/stress_strain_curve.py:61-94 | a plotted curve has one stress and strain per timestep, and its yield point is the first maximum past timestep 0 |
| SplitVoro.ChunkBytes | scripts/split_voro.py:6 | the chunk size in bytes has the sign of the size in MiB |
| SplitVoro.ChunkCount | scripts/split_voro.py:10 | for a positive chunk size the count k is the ceiling: (k − 1) · chunk < size ≤ k · chunk, or no chunks for an empty file |
| SplitVoro.ConcatPieces | scripts/split_voro.py:19-24 | the first k chunks read from the cursor put together are the first k · chunk bytes of the file |
| SplitVoro.SplitSpecProperties | scripts/split_voro.py:6-24 | there are ceil(size / chunk) chunks, together they give back the file, all but the last are full, and none is empty |
| SplitVoro.NoChunks | scripts/split_voro.py:10-19 | an empty file, or a negative chunk size, gives no chunks |
| SplitVoro.ChunkNamesDistinct | scripts/split_voro.py:20 | two different chunks get different file names |
| SplitVoro.SplitVoroFile | scripts/split_voro.py:4-25 | the loop writes chunk i under `<stem>_part<i+1>.voro` with the i-th chunk's bytes, or fails on a zero chunk size |
| ReportTables.CellsSpec | scripts/generate_project_report.py:81-86 | every cell has no surrounding whitespace, no `*` and no pipe character; there is at least one; the second has no spaces |
| ReportTables.DataLines | scripts/generate_project_report.py:77 | no kept table line starts with a pipe followed by a dash |
| ReportTables.DataLinesAppend | scripts/generate_project_report.py:77 | the separator filter decides line by line |
| ReportTables.Rows | scripts/generate_project_report.py:80-86 | one row per kept line, the cells of that line |
| ReportTables.PhaseStylesOutcome | scripts/generate_project_report.py:130-131 | the phase colouring fails exactly when a data row lacks a third cell, naming the first such row |
| ReportTables.PhaseStylesSound | scripts/generate_project_report.py:130-137 | every phase style colours the phase cell of a data row (never row 0) with the colour of that row's phase |
| ReportTables.PhaseStylesComplete | scripts/generate_project_report.py:130-137 | every data row whose phase is initial, transition or final, in any case, gets that phase's colour |
| ReportTables.TableRows | scripts/generate_project_report.py:74-90 | a built table has one row of finished cells per non-separator line, the fixed widths, and a phase cell in every data row |
| ReportTables.TableStyles | scripts/generate_project_report.py:93-127 | the header row has the primary background, every data row the light one, and no added style touches the header row |
| ReportTables.BuildRows | scripts/generate_project_report.py:80-86 | the row loop builds one row per kept line |
| ReportTables.AddBackgrounds | scripts/generate_project_report.py:122-127 | the background loop appends the same light background for each data row, odd or even |
| ReportTables.AddPhaseStyles | scripts/generate_project_report.py:129-137 | the phase loop appends the phase colours, or raises at the first row without a phase cell |
| ReportTables.ProcessMarkdownTable | scripts/generate_project_report.py:74-140 | the table function builds the table's specification, or fails with the missing phase cell |
| ReportTables.ReadMarkdownFile | scripts/generate_project_report.py:40-70 | the grouping loop and the final flush compute the grouping specification |
| ReportTables.TextBlocks | scripts/generate_project_report.py:63-65 | the lines kept outside tables are non-blank text lines, no more than there were |
| ReportTables.TextStretch | scripts/generate_project_report.py:63-65 | a stretch of lines that open no table keeps its non-blank lines in order and drops the blank ones |
| ReportTables.TableStretch | scripts/generate_project_report.py:52-54 | inside a table, every following line with a pipe character joins it |
| ReportTables.TableSpan | scripts/generate_project_report.py:49-62 | an opened table closes at the first line without a pipe character, is emitted only with at least two lines, and the closing line is kept unless blank |
| ReportTables.TableAtEnd | scripts/generate_project_report.py:66-68 | a table still open at the end holds every line from its opening one |
| ReportTables.NoTables | scripts/generate_project_report.py:43-65 | a file without a pipe character has no tables: its content is its non-blank lines, in order |
| ReportTables.GroupInvariant | scripts/generate_project_report.py:47-65 | one pass keeps `in_table` in step with the held table lines, which all contain a pipe character, and only appends to the content |
| ReportTables.RunInvariant | scripts/generate_project_report.py:47-68 | the loop keeps that invariant and only appends |
| ReportTables.ReadMarkdownClean | scripts/generate_project_report.py:40-68 | every line kept outside tables is non-blank and free of `*` |

## Findings

| source | as written | input that shows it | evidently intended | confidence | as-written member | corrected member |
|---|---|---|---|---|---|---|
| scripts/convert_to_trajectory.py:38-43 | at `ITEM: ATOMS` the column names are read with `next(f)` from the following line, which in a dump is the first atom line | lines `ITEM: TIMESTEP`, `0`, `ITEM: ATOMS id type x y z`, `1 1 2.0 3.0 4.0`, `2 1 5.0 6.0 7.0`: atom 1 is never recorded, and atom 2 is read with the default columns, so its x is 1.0 (its type) | the column names are taken from the marker line after `ITEM: ATOMS`, as in the dump format, and every atom line is recorded | high (not executed; follows from the proved lemmas) | Trajectory.FirstAtomDropped | Trajectory.FirstAtomRecorded |

- The header source is a parameter of the scanner: `NextLine` as written, `MarkerLine` corrected.
- `ReadDumpVoro`, the well-formedness lemma and the conversion check are proved for both header sources.

## Left out

- File I/O (`open`, `os.path.getsize`, missing files), `tqdm`, printing and the `__main__` blocks. Each model takes the file's lines (or bytes, or text) as a parameter. A missing file in `extract_stress_strain_data` is an `Option` input.
- Plotting with matplotlib, and the ReportLab document building outside the table rules (scripts/generate_project_report.py:142-465). The table is modelled as its rows, widths and style commands, without ReportLab's rendering.
- ReportTables.ProcessMarkdownTable: does not model the checks ReportLab's `Table(data, colWidths=col_widths)` makes at scripts/generate_project_report.py:90, before the phase loop at :130-131. Examples are rows of unequal length, a column count that does not match the three widths, or no rows at all when every line is a separator. For a table ReportLab rejects, `read_markdown_file` returns its error text, while the model builds the table or reports `MissingPhaseCell`.
- `identify_grain_boundaries`: it depends on scipy's `Voronoi` and float distance thresholds.
- The OVITO wrappers, the Voronoi generator and the other scripts outside these six files.
- IEEE floating point: values are exact reals.
  - Overflow, rounding, `inf` and `nan` are not modelled, except that a zero box volume gives no density (`None`) instead of `inf`/`nan`.
  - `float()` accepts finite decimal literals only: no `inf`, `nan` or underscores.
  - `int()` accepts ASCII digits only.
  - `split_voro.py`'s float ceiling is exact here; it differs only for files beyond 2^53 bytes.
- Number formatting (`.6f`, `.6e`, numpy's `str` of a float) is a function parameter. So the model says which value each field shows, but not its digits.
- `lower()` is modelled on ASCII letters only.
- The regular expressions at scripts/generate_project_report.py:34 and :37 (removal of Next-Steps sections and rewriting of headings). The model starts from the text after them.
- The table-start regular expression at scripts/generate_project_report.py:49 is the parameter `isTableStart`.
- The loading direction is the datatype `Axis`, so the KeyError for an unknown direction cannot arise.
- The header pattern of scripts/stress_strain_curve.py:19 is matched as leftmost occurrences in order. That is equivalent to the regex for literal words.
- `os.path.dirname`, `basename`, `splitext` and `join` are modelled for '/' separators only.
- A non-integer `chunk_size_mb` is not modelled.
- Dislocations.IgnoredLine: proves that each line without a marker is ignored one line at a time. It does not prove the run-level statement that such lines can be skipped until the next marker.
- The pandas `read_csv` of the strain file in `main` of scripts/analyze_dislocations.py. `AnalyzeTimeEvolution` takes the strain rows as an `Option` of (timestep, strain) pairs.

/**
 * scripts/extract_stress_strain_data.py: the thermo log of a tensile run is
 * scanned line by line for the header row (a line starting with `Step` that
 * names the step, the stress component of the loading axis and the three box
 * lengths), then every later line with as many tokens as the header becomes a
 * record (timestep, engineering strain, negated pressure). The writer prints one
 * header line and one line per record.
 *
 * The scan is specified by `ExtractLine` (one line) and `ExtractRun`, and
 * `ExtractStressStrainData` is the script's loop, proved to compute
 * `ExtractSpec`.
 */
module StressStrain {
  import opened Wrappers
  import opened Text
  import opened Numbers

  /** The loading direction; the script looks it up in a dict keyed by 'x', 'y' and 'z'. */
  datatype Axis = X | Y | Z

  /** The pressure column of the loading axis. */
  function StressKey(axis: Axis): string
  {
    match axis
    case X => "Pxx"
    case Y => "Pyy"
    case Z => "Pzz"
  }

  const StepKey := "Step"

  /** `required_keys`. */
  function RequiredKeys(axis: Axis): seq<string>
  {
    [StepKey, StressKey(axis), "Lx", "Ly", "Lz"]
  }

  /** The header's token count and the indices `header.index(key)` of the required keys. */
  datatype Columns = Columns(width: nat, step: nat, stress: nat, lx: nat, ly: nat, lz: nat)

  /** One entry of `stress_strain_data`: `(step, strain, -stress_value)`. */
  datatype Record = Record(step: int, strain: real, stress: real)

  /** The script's variables between two lines: the header indices once found, `initial_Lx/Ly/Lz` and the records. */
  datatype Extractor = Extractor(columns: Option<Columns>, reference: Option<(real, real, real)>, records: seq<Record>)

  /** The exceptions that reach `except Exception` and make the result `None`. */
  datatype Escape =
    | NoReference    // a strain computed from `initial_L = None`: TypeError
    | ZeroReference  // a strain divided by `initial_L = 0.0`: ZeroDivisionError

  const Fresh := Extractor(None, None, [])

  predicate HasKeys(header: seq<string>, axis: Axis)
  {
    forall k :: 0 <= k < |RequiredKeys(axis)| ==> RequiredKeys(axis)[k] in header
  }

  /** The header's width and the first index of each required key. */
  function Resolve(header: seq<string>, axis: Axis): Columns
  {
    Columns(|header|, IndexOr(header, StepKey, 0), IndexOr(header, StressKey(axis), 0),
            IndexOr(header, "Lx", 0), IndexOr(header, "Ly", 0), IndexOr(header, "Lz", 0))
  }

  /** Each resolved index points at the first occurrence of its key in the header. */
  lemma ResolveSpec(header: seq<string>, axis: Axis)
    requires HasKeys(header, axis)
    ensures var c := Resolve(header, axis);
      c.width == |header| &&
      c.step < |header| && header[c.step] == StepKey && StepKey !in header[..c.step] &&
      c.stress < |header| && header[c.stress] == StressKey(axis) && StressKey(axis) !in header[..c.stress] &&
      c.lx < |header| && header[c.lx] == "Lx" && "Lx" !in header[..c.lx] &&
      c.ly < |header| && header[c.ly] == "Ly" && "Ly" !in header[..c.ly] &&
      c.lz < |header| && header[c.lz] == "Lz" && "Lz" !in header[..c.lz]
  {
    var keys := RequiredKeys(axis);
    assert keys[0] in header && keys[1] in header && keys[2] in header && keys[3] in header && keys[4] in header;
    IndexOrSpec(header, StepKey, 0);
    IndexOrSpec(header, StressKey(axis), 0);
    IndexOrSpec(header, "Lx", 0);
    IndexOrSpec(header, "Ly", 0);
    IndexOrSpec(header, "Lz", 0);
  }

  /** A header row: it starts with `Step` and its tokens hold every required key. */
  predicate IsHeader(line: string, axis: Axis)
  {
    StartsWith(line, StepKey) && HasKeys(Tokens(line), axis)
  }

  /** The reference and current box length along the loading axis. */
  function Along(axis: Axis, l: (real, real, real)): real
  {
    match axis
    case X => l.0
    case Y => l.1
    case Z => l.2
  }

  /** The converted fields of a row, or `None` where an index or a conversion raises (both are caught). */
  function RowFields(values: seq<string>, c: Columns): Option<(int, real, (real, real, real))>
  {
    if c.step >= |values| || c.stress >= |values| || c.lx >= |values| || c.ly >= |values| || c.lz >= |values| then None
    else
      match (ParseInteger(values[c.step]), ParseDecimal(values[c.stress]),
             ParseDecimal(values[c.lx]), ParseDecimal(values[c.ly]), ParseDecimal(values[c.lz]))
      case (Some(step), Some(p), Some(lx), Some(ly), Some(lz)) => Some((step, p, (lx, ly, lz)))
      case _ => None
  }

  /** `(L - initial_L) / initial_L`: the strain `s` with `L == L0 + s * L0`. */
  function EngineeringStrain(l: real, l0: real): (s: real)
    requires l0 != 0.0
    ensures s * l0 == l - l0
  {
    (l - l0) / l0
  }

  /** A row of the header's width: record it, resetting the reference at step 0. */
  function AtRow(values: seq<string>, c: Columns, axis: Axis, st: Extractor): Result<Extractor, Escape>
  {
    match RowFields(values, c)
    case None => Success(st)
    case Some((step, p, lengths)) =>
      if step == 0 then
        Success(st.(reference := Some(lengths), records := st.records + [Record(0, 0.0, -p)]))
      else if st.reference.None? then Failure(NoReference)
      else
        var l0 := Along(axis, st.reference.value);
        if l0 == 0.0 then Failure(ZeroReference)
        else Success(st.(records := st.records + [Record(step, EngineeringStrain(Along(axis, lengths), l0), -p)]))
  }

  /** One turn of the loop, on the stripped line. */
  function ExtractLine(raw: string, axis: Axis, st: Extractor): Result<Extractor, Escape>
  {
    var line := Strip(raw);
    match st.columns
    case None =>
      if IsHeader(line, axis) then Success(st.(columns := Some(Resolve(Tokens(line), axis)))) else Success(st)
    case Some(c) =>
      var values := Tokens(line);
      if |values| != c.width then Success(st) else AtRow(values, c, axis, st)
  }

  function ExtractRun(lines: seq<string>, i: nat, axis: Axis, st: Extractor): Result<Extractor, Escape>
    requires i <= |lines|
    decreases |lines| - i
  {
    if i == |lines| then Success(st)
    else
      match ExtractLine(lines[i], axis, st)
      case Failure(e) => Failure(e)
      case Success(st') => ExtractRun(lines, i + 1, axis, st')
  }

  /** What `extract_stress_strain_data` returns for the log's lines, `None` standing for a missing file. */
  function ExtractSpec(file: Option<seq<string>>, axis: Axis): Option<seq<Record>>
  {
    match file
    case None => None
    case Some(lines) =>
      match ExtractRun(lines, 0, axis, Fresh)
      case Failure(_) => None
      case Success(st) => if st.columns.None? then None else Some(st.records)
  }

  /** `extract_stress_strain_data`. */
  method ExtractStressStrainData(file: Option<seq<string>>, axis: Axis) returns (r: Option<seq<Record>>)
    ensures r == ExtractSpec(file, axis)
  {
    if file.None? {
      return None;
    }
    var lines := file.value;
    var st := Fresh;
    var i := 0;
    while i < |lines|
      invariant i <= |lines|
      invariant ExtractRun(lines, i, axis, st) == ExtractRun(lines, 0, axis, Fresh)
      decreases |lines| - i
    {
      var next := ExtractLine(lines[i], axis, st);
      if next.Failure? {
        return None;
      }
      st, i := next.value, i + 1;
    }
    if st.columns.None? {
      return None;
    }
    r := Some(st.records);
  }

  // ---------------------------------------------------------------------------
  // Properties of the extraction
  // ---------------------------------------------------------------------------

  /**
   * Before the header is found, a line becomes the header exactly when it
   * starts with `Step` and names every required key; nothing else changes.
   */
  lemma BeforeHeader(raw: string, axis: Axis, st: Extractor)
    requires st.columns.None?
    ensures ExtractLine(raw, axis, st).Success?
    ensures var st' := ExtractLine(raw, axis, st).value;
      (st'.columns.Some? <==> IsHeader(Strip(raw), axis)) &&
      (st'.columns.Some? ==> st'.columns.value == Resolve(Tokens(Strip(raw)), axis)) &&
      st'.reference == st.reference && st'.records == st.records
  {
  }

  /**
   * After the header, a line of another width, or one whose fields do not
   * convert, changes nothing; in particular the indices stay as resolved.
   */
  lemma AfterHeaderSkipped(raw: string, axis: Axis, st: Extractor)
    requires st.columns.Some?
    requires var values := Tokens(Strip(raw));
      |values| != st.columns.value.width || RowFields(values, st.columns.value).None?
    ensures ExtractLine(raw, axis, st) == Success(st)
  {
  }

  /**
   * After the header, a row of the header's width whose fields convert: at
   * step 0 it records strain 0 and makes its lengths the reference; any other
   * step fails without a reference or with a zero one, and otherwise records
   * the engineering strain along the loading axis. The recorded stress is the
   * negated pressure, and the indices stay as resolved.
   */
  lemma AfterHeaderRow(raw: string, axis: Axis, st: Extractor)
    requires st.columns.Some?
    requires var values := Tokens(Strip(raw));
      |values| == st.columns.value.width && RowFields(values, st.columns.value).Some?
    ensures var (step, p, lengths) := RowFields(Tokens(Strip(raw)), st.columns.value).value;
      var r := ExtractLine(raw, axis, st);
      (step == 0 ==> r == Success(st.(reference := Some(lengths), records := st.records + [Record(0, 0.0, -p)]))) &&
      (step != 0 && st.reference.None? ==> r == Failure(NoReference)) &&
      (step != 0 && st.reference.Some? && Along(axis, st.reference.value) == 0.0 ==> r == Failure(ZeroReference)) &&
      (step != 0 && st.reference.Some? && Along(axis, st.reference.value) != 0.0 ==>
        r == Success(st.(records := st.records + [Record(step, EngineeringStrain(Along(axis, lengths), Along(axis, st.reference.value)), -p)])))
  {
    var values := Tokens(Strip(raw));
    assert ExtractLine(raw, axis, st) == AtRow(values, st.columns.value, axis, st);
  }

  /** One line never removes a record, and a found header stays found. */
  lemma LineExtends(raw: string, axis: Axis, st: Extractor)
    ensures ExtractLine(raw, axis, st).Success? ==>
      var st' := ExtractLine(raw, axis, st).value;
      st.records <= st'.records && (st.columns.Some? ==> st'.columns == st.columns)
  {
    if st.columns.Some? {
      var values := Tokens(Strip(raw));
      if |values| == st.columns.value.width {
        assert ExtractLine(raw, axis, st) == AtRow(values, st.columns.value, axis, st);
      }
    }
  }

  /** Records are kept in file order: the scan only appends. */
  lemma {:induction false} RunExtends(lines: seq<string>, i: nat, axis: Axis, st: Extractor)
    requires i <= |lines|
    ensures ExtractRun(lines, i, axis, st).Success? ==>
      st.records <= ExtractRun(lines, i, axis, st).value.records &&
      (st.columns.Some? ==> ExtractRun(lines, i, axis, st).value.columns == st.columns)
    decreases |lines| - i
  {
    if i < |lines| {
      LineExtends(lines[i], axis, st);
      match ExtractLine(lines[i], axis, st)
      case Failure(_) =>
      case Success(st') => RunExtends(lines, i + 1, axis, st');
    }
  }

  /** Without a header line the scan ends where it began. */
  lemma {:induction false} RunWithoutHeader(lines: seq<string>, i: nat, axis: Axis, st: Extractor)
    requires i <= |lines| && st.columns.None?
    requires forall k :: i <= k < |lines| ==> !IsHeader(Strip(lines[k]), axis)
    ensures ExtractRun(lines, i, axis, st) == Success(st)
    decreases |lines| - i
  {
    if i < |lines| {
      BeforeHeader(lines[i], axis, st);
      assert ExtractLine(lines[i], axis, st) == Success(st);
      RunWithoutHeader(lines, i + 1, axis, st);
    }
  }

  /** A missing file, or a log without a header line, gives `None`. */
  lemma NoHeaderNoData(file: Option<seq<string>>, axis: Axis)
    requires file.Some? ==> forall k :: 0 <= k < |file.value| ==> !IsHeader(Strip(file.value[k]), axis)
    ensures ExtractSpec(file, axis) == None
  {
    if file.Some? {
      RunWithoutHeader(file.value, 0, axis, Fresh);
    }
  }

  // ---------------------------------------------------------------------------
  // The writer
  // ---------------------------------------------------------------------------

  function HeaderText(axis: Axis): string
  {
    "# Timestep, Strain, Stress (" + StressKey(axis) + ")"
  }

  /** `f"{step}, {strain:.6e}, {stress:.6e}"`, with `sci` standing for the `.6e` format. */
  function RecordLine(r: Record, sci: real -> string): string
  {
    IntText(r.step) + ", " + sci(r.strain) + ", " + sci(r.stress)
  }

  /** One line per record, in order. */
  function RecordLines(records: seq<Record>, sci: real -> string): (lines: seq<string>)
    ensures |lines| == |records|
  {
    seq(|records|, k requires 0 <= k < |records| => RecordLine(records[k], sci))
  }

  /** A record line starts with the step, as text that reads back as the step, and a comma. */
  lemma RecordLineHead(r: Record, sci: real -> string)
    ensures var head := IntText(r.step);
      StartsWith(RecordLine(r, sci), head + ", ") && ParseInt(RecordLine(r, sci)[..|head|]) == Some(r.step)
  {
    var head := IntText(r.step);
    assert RecordLine(r, sci) == (head + ", ") + (sci(r.strain) + ", " + sci(r.stress));
    assert RecordLine(r, sci)[..|head|] == head;
    ParseIntText(r.step);
  }

  /** The lines `write_stress_strain_data` writes, or `None` when it writes no file. */
  function StressStrainText(data: Option<seq<Record>>, axis: Axis, sci: real -> string): Option<seq<string>>
  {
    if data.None? || data.value == [] then None
    else Some([HeaderText(axis)] + RecordLines(data.value, sci))
  }

  /**
   * A file is written exactly for a non-empty result: the header, then one line
   * per record in order, each starting with the step as text that reads back as
   * the step.
   */
  lemma StressStrainTextSpec(data: Option<seq<Record>>, axis: Axis, sci: real -> string)
    ensures StressStrainText(data, axis, sci).Some? <==> data.Some? && data.value != []
    ensures StressStrainText(data, axis, sci).Some? ==>
      var lines := StressStrainText(data, axis, sci).value;
      |lines| == 1 + |data.value| && lines[0] == HeaderText(axis) &&
      forall k :: 0 <= k < |data.value| ==>
        var head := IntText(data.value[k].step);
        lines[k + 1] == RecordLine(data.value[k], sci) &&
        StartsWith(lines[k + 1], head + ", ") && ParseInt(lines[k + 1][..|head|]) == Some(data.value[k].step)
  {
    if data.Some? && data.value != [] {
      var lines := StressStrainText(data, axis, sci).value;
      forall k | 0 <= k < |data.value|
        ensures lines[k + 1] == RecordLine(data.value[k], sci)
        ensures StartsWith(lines[k + 1], IntText(data.value[k].step) + ", ")
        ensures ParseInt(lines[k + 1][..|IntText(data.value[k].step)|]) == Some(data.value[k].step)
      {
        RecordLineHead(data.value[k], sci);
      }
    }
  }

  /** The record loop of `write_stress_strain_data`. */
  method WriteRecordLines(records: seq<Record>, sci: real -> string) returns (body: seq<string>)
    ensures body == RecordLines(records, sci)
  {
    body := [];
    for k := 0 to |records|
      invariant |body| == k
      invariant forall j :: 0 <= j < k ==> body[j] == RecordLine(records[j], sci)
    {
      body := body + [RecordLine(records[k], sci)];
    }
  }

  /** `write_stress_strain_data`: the header, then a line per record. */
  method WriteStressStrainData(data: Option<seq<Record>>, axis: Axis, sci: real -> string) returns (r: Option<seq<string>>)
    ensures r == StressStrainText(data, axis, sci)
  {
    if data.None? || data.value == [] {
      return None;
    }
    var lines := [HeaderText(axis)];
    var body := WriteRecordLines(data.value, sci);
    lines := lines + body;
    r := Some(lines);
  }
}

/**
 * The parsing half of scripts/stress_strain_curve.py: find the first thermo
 * header line, resolve the Step, Pzz and Lz columns, read every later line that
 * is not blank, not a LAMMPS summary line and long enough, take the reference
 * length from the first row at step 0, and pick the approximate yield point as
 * the first maximum of the stress.
 *
 * Unlike scripts/extract_stress_strain_data.py (module `StressStrain`), the
 * reference length is set once and never reset, rows before it are dropped
 * instead of failing, a value that does not convert aborts the whole reading
 * instead of being skipped, and the stress is the raw Pzz value.
 */
module StressCurve {
  import opened Wrappers
  import opened Text
  import opened Numbers
  import StressStrain

  // ---------------------------------------------------------------------------
  // The header line
  // ---------------------------------------------------------------------------

  /** The column names the header regex asks for, in this order. */
  const Pattern: seq<string> :=
    ["Step", "Temp", "PotEng", "KinEng", "TotEng", "Press", "Pxx", "Pyy", "Pzz", "Pxy", "Pxz", "Pyz", "Lx", "Ly", "Lz"]

  /** `w` occurs in `s` at position `j`. */
  predicate OccursAt(s: string, w: string, j: nat)
  {
    j + |w| <= |s| && s[j..j + |w|] == w
  }

  /** The first position from `i` on at which `w` occurs in `s`. */
  function Find(s: string, w: string, i: nat): Option<nat>
    decreases |s| - i
  {
    if i + |w| > |s| then None
    else if s[i..i + |w|] == w then Some(i)
    else Find(s, w, i + 1)
  }

  lemma {:induction false} FindSpec(s: string, w: string, i: nat)
    ensures Find(s, w, i).Some? ==>
      var k := Find(s, w, i).value;
      i <= k && OccursAt(s, w, k) && forall j :: i <= j < k ==> !OccursAt(s, w, j)
    ensures Find(s, w, i).None? ==> forall j :: i <= j ==> !OccursAt(s, w, j)
    decreases |s| - i
  {
    if i + |w| <= |s| && s[i..i + |w|] != w {
      FindSpec(s, w, i + 1);
    }
  }

  /**
   * `re.search` of `w0.*w1.*...` within one line: each word occurs after the
   * end of the previous one, from position `i` on. Taking the leftmost
   * occurrence each time leaves the most room for the rest.
   */
  predicate InOrder(s: string, ws: seq<string>, i: nat)
    decreases |ws|
  {
    ws == [] ||
    match Find(s, ws[0], i)
    case None => false
    case Some(k) => InOrder(s, ws[1..], k + |ws[0]|)
  }

  /** The words of an ordered match all occur in the line, each at or after `i`. */
  lemma {:induction false} InOrderOccurs(s: string, ws: seq<string>, i: nat)
    requires InOrder(s, ws, i)
    ensures forall k :: 0 <= k < |ws| ==> Find(s, ws[k], i).Some?
    decreases |ws|
  {
    if ws != [] {
      var e := Find(s, ws[0], i).value + |ws[0]|;
      FindSpec(s, ws[0], i);
      InOrderOccurs(s, ws[1..], e);
      forall k | 1 <= k < |ws|
        ensures Find(s, ws[k], i).Some?
      {
        var w := ws[1..][k - 1];
        FindSpec(s, w, e);
        FindSpec(s, w, i);
        var j := Find(s, w, e).value;
        assert OccursAt(s, w, j);
      }
    }
  }

  /** The test of the header search: the three substrings, then the ordered pattern. */
  predicate IsHeaderLine(line: string)
  {
    Contains(line, "Step") && Contains(line, "Temp") && Contains(line, "Press") && InOrder(line, Pattern, 0)
  }

  /** The index of the first line at or after `i` that passes `isHeader`. */
  function FirstHeader(lines: seq<string>, i: nat, isHeader: string -> bool): Option<nat>
    requires i <= |lines|
    decreases |lines| - i
  {
    if i == |lines| then None
    else if isHeader(lines[i]) then Some(i)
    else FirstHeader(lines, i + 1, isHeader)
  }

  lemma {:induction false} FirstHeaderSpec(lines: seq<string>, i: nat, isHeader: string -> bool)
    requires i <= |lines|
    ensures FirstHeader(lines, i, isHeader).Some? ==>
      var h := FirstHeader(lines, i, isHeader).value;
      i <= h < |lines| && isHeader(lines[h]) && forall k :: i <= k < h ==> !isHeader(lines[k])
    ensures FirstHeader(lines, i, isHeader).None? ==> forall k :: i <= k < |lines| ==> !isHeader(lines[k])
    decreases |lines| - i
  {
    if i < |lines| && !isHeader(lines[i]) {
      FirstHeaderSpec(lines, i + 1, isHeader);
    }
  }

  /** The header index is a line of the input. */
  lemma {:induction false} FirstHeaderBound(lines: seq<string>, i: nat, isHeader: string -> bool)
    requires i <= |lines|
    ensures FirstHeader(lines, i, isHeader).Some? ==> i <= FirstHeader(lines, i, isHeader).value < |lines|
    decreases |lines| - i
  {
    if i < |lines| && !isHeader(lines[i]) {
      FirstHeaderBound(lines, i + 1, isHeader);
    }
  }

  /** The search loop, which stops at the first header line. */
  method FindHeader(lines: seq<string>) returns (h: Option<nat>)
    ensures h == FirstHeader(lines, 0, IsHeaderLine)
  {
    h := None;
    var i := 0;
    while i < |lines|
      invariant i <= |lines|
      invariant FirstHeader(lines, 0, IsHeaderLine) == FirstHeader(lines, i, IsHeaderLine)
      decreases |lines| - i
    {
      if IsHeaderLine(lines[i]) {
        return Some(i);
      }
      i := i + 1;
    }
  }

  // ---------------------------------------------------------------------------
  // The data loop
  // ---------------------------------------------------------------------------

  /** The LAMMPS summary lines the loop skips, matched against the line as read. */
  const SkipPrefixes: seq<string> :=
    ["Loop", "elapsed", "Total", "cpu", "MPI", "Section", "Neigh", "Histogram", "Nlocal", "Nghost", "Neighs", "FullNghs"]

  predicate Skipped(line: string)
  {
    Strip(line) == [] || exists k :: 0 <= k < |SkipPrefixes| && StartsWith(line, SkipPrefixes[k])
  }

  /** `step_col`, `pzz_col` and `lz_col`. */
  datatype CurveColumns = CurveColumns(step: nat, pzz: nat, lz: nat)

  /** `header_parts.index(...)` for the three names; `None` when one is missing, which raises ValueError. */
  function ResolveCurve(header: seq<string>): Option<CurveColumns>
  {
    if "Step" in header && "Pzz" in header && "Lz" in header then
      Some(CurveColumns(IndexOr(header, "Step", 0), IndexOr(header, "Pzz", 0), IndexOr(header, "Lz", 0)))
    else None
  }

  function MaxColumn(c: CurveColumns): nat
  {
    if c.step >= c.pzz && c.step >= c.lz then c.step else if c.pzz >= c.lz then c.pzz else c.lz
  }

  /** The script's lists and `initial_Lz`. */
  datatype Curve = Curve(reference: Option<real>, timesteps: seq<int>, stresses: seq<real>, strains: seq<real>)

  /** What ends the reading early: ValueError from a conversion or a missing column, ZeroDivisionError from a zero `initial_Lz`. */
  datatype Abort = BadValue | ZeroLength

  const Empty := Curve(None, [], [], [])

  /** A line that is read: convert the three columns, then keep the row once the reference is known. */
  function AtCurveRow(parts: seq<string>, c: CurveColumns, st: Curve): Result<Curve, Abort>
    requires |parts| > MaxColumn(c)
  {
    match (ParseInteger(parts[c.step]), ParseDecimal(parts[c.pzz]), ParseDecimal(parts[c.lz]))
    case (Some(t), Some(p), Some(lz)) =>
      var reference := if st.reference.None? && t == 0 then Some(lz) else st.reference;
      if reference.None? then Success(st)
      else if reference.value == 0.0 then Failure(ZeroLength)
      else Success(Curve(reference, st.timesteps + [t], st.stresses + [p],
                         st.strains + [StressStrain.EngineeringStrain(lz, reference.value)]))
    case _ => Failure(BadValue)
  }

  /** One line of `lines[start_idx:]`. */
  function CurveLine(line: string, c: CurveColumns, st: Curve): Result<Curve, Abort>
  {
    if Skipped(line) then Success(st)
    else
      var parts := Tokens(line);
      if |parts| <= MaxColumn(c) then Success(st) else AtCurveRow(parts, c, st)
  }

  function CurveRun(lines: seq<string>, i: nat, c: CurveColumns, st: Curve): Result<Curve, Abort>
    requires i <= |lines|
    decreases |lines| - i
  {
    if i == |lines| then Success(st)
    else
      match CurveLine(lines[i], c, st)
      case Failure(e) => Failure(e)
      case Success(st') => CurveRun(lines, i + 1, c, st')
  }

  // ---------------------------------------------------------------------------
  // The yield point
  // ---------------------------------------------------------------------------

  /** `np.argmax`: the first index of the largest value. */
  function ArgMax(xs: seq<real>): (k: nat)
    requires xs != []
    ensures k < |xs|
    ensures forall j :: 0 <= j < |xs| ==> xs[j] <= xs[k]
    ensures forall j :: 0 <= j < k ==> xs[j] < xs[k]
  {
    if |xs| == 1 then 0
    else
      var n := |xs| - 1;
      var m := ArgMax(xs[..n]);
      assert forall j :: 0 <= j < n ==> xs[..n][j] == xs[j];
      if xs[n] > xs[m] then n else m
  }

  /** The yield point is reported only for more than one point and a maximum past timestep 0. */
  function YieldIndex(timesteps: seq<int>, stresses: seq<real>): (y: Option<nat>)
    requires |timesteps| == |stresses|
    ensures y.Some? <==> |stresses| > 1 && timesteps[ArgMax(stresses)] > 0
    ensures y.Some? ==>
      && y.value < |stresses| && timesteps[y.value] > 0
      && (forall j :: 0 <= j < |stresses| ==> stresses[j] <= stresses[y.value])
      && (forall j :: 0 <= j < y.value ==> stresses[j] < stresses[y.value])
  {
    if |stresses| > 1 && timesteps[ArgMax(stresses)] > 0 then Some(ArgMax(stresses)) else None
  }

  // ---------------------------------------------------------------------------
  // The whole script
  // ---------------------------------------------------------------------------

  /** What the script ends with: its error messages, or the curve it plots with the yield point if any. */
  datatype Outcome =
    | NoHeader
    | Aborted(reason: Abort)
    | NoData
    | Plotted(timesteps: seq<int>, stresses: seq<real>, strains: seq<real>, yieldAt: Option<nat>)

  function CurveSpec(lines: seq<string>): Outcome
  {
    FirstHeaderBound(lines, 0, IsHeaderLine);
    match FirstHeader(lines, 0, IsHeaderLine)
    case None => NoHeader
    case Some(h) => CurveAfter(lines, h)
  }

  /** The outcome once the header is line `h`. */
  function CurveAfter(lines: seq<string>, h: nat): Outcome
    requires h < |lines|
  {
    match ResolveCurve(Tokens(lines[h]))
    case None => Aborted(BadValue)
    case Some(c) =>
      CurveRunKeeps(lines, h + 1, c, Empty);
      match CurveRun(lines, h + 1, c, Empty)
      case Failure(e) => Aborted(e)
      case Success(st) =>
        if st.timesteps == [] then NoData
        else Plotted(st.timesteps, st.stresses, st.strains, YieldIndex(st.timesteps, st.stresses))
  }


  /** The script from the header search to the yield point. */
  method StressStrainCurve(lines: seq<string>) returns (r: Outcome)
    ensures r == CurveSpec(lines)
  {
    FirstHeaderBound(lines, 0, IsHeaderLine);
    var header := FindHeader(lines);
    if header.None? {
      return NoHeader;
    }
    r := CurveFromHeader(lines, header.value);
  }

  /** The part of `stress_strain_curve` after the header is found: columns, rows, then the plot data. */
  method CurveFromHeader(lines: seq<string>, h: nat) returns (r: Outcome)
    requires h < |lines|
    ensures r == CurveAfter(lines, h)
  {
    var start := h + 1;
    var columns := ResolveCurve(Tokens(lines[h]));
    if columns.None? {
      return Aborted(BadValue);
    }
    var rows := ReadRows(lines, start, columns.value);
    if rows.Failure? {
      return Aborted(rows.error);
    }
    CurveRunKeeps(lines, start, columns.value, Empty);
    var st := rows.value;
    if st.timesteps == [] {
      return NoData;
    }
    r := Plotted(st.timesteps, st.stresses, st.strains, YieldIndex(st.timesteps, st.stresses));
  }


  /** The data loop over `lines[start_idx:]`. */
  method ReadRows(lines: seq<string>, start: nat, c: CurveColumns) returns (r: Result<Curve, Abort>)
    requires start <= |lines|
    ensures r == CurveRun(lines, start, c, Empty)
  {
    var st := Empty;
    var i := start;
    while i < |lines|
      invariant start <= i <= |lines|
      invariant CurveRun(lines, i, c, st) == CurveRun(lines, start, c, Empty)
      decreases |lines| - i
    {
      var next := CurveLine(lines[i], c, st);
      if next.Failure? {
        return Failure(next.error);
      }
      st, i := next.value, i + 1;
    }
    r := Success(st);
  }

  // ---------------------------------------------------------------------------
  // Properties of the data loop
  // ---------------------------------------------------------------------------

  /** The three lists grow together. */
  predicate Parallel(st: Curve)
  {
    |st.stresses| == |st.timesteps| && |st.strains| == |st.timesteps|
  }

  /**
   * A line that is read and converts: before the reference is known, a row at
   * a step other than 0 is dropped and a row at step 0 sets the reference to its
   * Lz. Once known, the reference never changes (a later step-0 row does not
   * reset it). A kept row appends its step, its raw Pzz and its strain against
   * the reference; a zero reference aborts.
   */
  lemma CurveRow(parts: seq<string>, c: CurveColumns, st: Curve)
    requires |parts| > MaxColumn(c)
    requires ParseInteger(parts[c.step]).Some? && ParseDecimal(parts[c.pzz]).Some? && ParseDecimal(parts[c.lz]).Some?
    ensures var t := ParseInteger(parts[c.step]).value;
      var p := ParseDecimal(parts[c.pzz]).value;
      var lz := ParseDecimal(parts[c.lz]).value;
      var r := AtCurveRow(parts, c, st);
      (st.reference.None? && t != 0 ==> r == Success(st)) &&
      (st.reference.None? && t == 0 && lz == 0.0 ==> r == Failure(ZeroLength)) &&
      (st.reference.None? && t == 0 && lz != 0.0 ==>
        r == Success(Curve(Some(lz), st.timesteps + [0], st.stresses + [p], st.strains + [0.0]))) &&
      (st.reference.Some? && st.reference.value == 0.0 ==> r == Failure(ZeroLength)) &&
      (st.reference.Some? && st.reference.value != 0.0 ==>
        r == Success(Curve(st.reference, st.timesteps + [t], st.stresses + [p],
                           st.strains + [StressStrain.EngineeringStrain(lz, st.reference.value)])))
  {
    var lz := ParseDecimal(parts[c.lz]).value;
    if st.reference.None? && lz != 0.0 {
      var s := StressStrain.EngineeringStrain(lz, lz);
      assert s * lz == 0.0;
    }
  }

  /** A line that is not blank, not a summary line and long enough goes through the row step. */
  lemma CurveLineRead(line: string, c: CurveColumns, st: Curve)
    requires !Skipped(line) && |Tokens(line)| > MaxColumn(c)
    ensures CurveLine(line, c, st) == AtCurveRow(Tokens(line), c, st)
  {
  }

  /** A blank or summary line, or one too short for the columns, changes nothing. */
  lemma CurveLineIgnored(line: string, c: CurveColumns, st: Curve)
    requires Skipped(line) || |Tokens(line)| <= MaxColumn(c)
    ensures CurveLine(line, c, st) == Success(st)
  {
  }

  /** A line that is read but whose step, Pzz or Lz does not convert aborts the reading. */
  lemma CurveRowAborts(parts: seq<string>, c: CurveColumns, st: Curve)
    requires |parts| > MaxColumn(c)
    requires ParseInteger(parts[c.step]).None? || ParseDecimal(parts[c.pzz]).None? || ParseDecimal(parts[c.lz]).None?
    ensures AtCurveRow(parts, c, st) == Failure(BadValue)
  {
  }

  lemma CurveLineKeeps(line: string, c: CurveColumns, st: Curve)
    ensures CurveLine(line, c, st).Success? ==>
      var st' := CurveLine(line, c, st).value;
      (Parallel(st) ==> Parallel(st')) && (st.reference.Some? ==> st'.reference == st.reference) &&
      st.timesteps <= st'.timesteps
  {
  }

  /**
   * Over the whole loop the lists stay parallel, the reference once set is the
   * one the run ends with, and rows are kept in file order.
   */
  lemma {:induction false} CurveRunKeeps(lines: seq<string>, i: nat, c: CurveColumns, st: Curve)
    requires i <= |lines|
    ensures CurveRun(lines, i, c, st).Success? ==>
      var st' := CurveRun(lines, i, c, st).value;
      (Parallel(st) ==> Parallel(st')) && (st.reference.Some? ==> st'.reference == st.reference) &&
      st.timesteps <= st'.timesteps
    decreases |lines| - i
  {
    if i < |lines| {
      CurveLineKeeps(lines[i], c, st);
      match CurveLine(lines[i], c, st)
      case Failure(_) =>
      case Success(st') => CurveRunKeeps(lines, i + 1, c, st');
    }
  }

  /**
   * A plotted curve has one stress and one strain per timestep, and its yield
   * point, if any, is the first maximum of the stress at a timestep past 0.
   */
  lemma PlottedShape(lines: seq<string>)
    ensures CurveSpec(lines).Plotted? ==>
      var o := CurveSpec(lines);
      o.timesteps != [] && |o.stresses| == |o.timesteps| && |o.strains| == |o.timesteps| &&
      (o.yieldAt.Some? ==>
        && o.yieldAt.value < |o.stresses| && o.timesteps[o.yieldAt.value] > 0
        && forall j :: 0 <= j < |o.stresses| ==> o.stresses[j] <= o.stresses[o.yieldAt.value])
  {
    FirstHeaderBound(lines, 0, IsHeaderLine);
    if FirstHeader(lines, 0, IsHeaderLine).Some? {
      var h := FirstHeader(lines, 0, IsHeaderLine).value;
      if ResolveCurve(Tokens(lines[h])).Some? {
        CurveRunKeeps(lines, h + 1, ResolveCurve(Tokens(lines[h])).value, Empty);
      }
    }
  }
}

/**
 * The trajectory converter of scripts/convert_to_trajectory.py: a scanner that
 * cuts a LAMMPS-style dump (a sequence of lines) into snapshots, a writer that
 * re-emits them in the fixed `id type x y z` layout, and the first-line check
 * that compares input and output.
 *
 * The scanner is specified by `Step`, which consumes one line (or, where the
 * script calls `next(f)`, that line and the ones it pulls), and `Run`, which
 * repeats it to the end of the input; `ReadDumpVoro` is the script's loop and is
 * proved to compute `ReadDump`.
 */
module Trajectory {
  import opened Wrappers
  import opened Text
  import opened Numbers
  import opened Geometry

  /**
   * One element of the scanner's result: the timestep, the positions, the box
   * bounds in force when the snapshot was closed (`None` before any BOX BOUNDS
   * section) and the atom ids, parallel to the positions.
   */
  datatype Snapshot = Snapshot(timestep: int, positions: seq<Vec3>, box: Option<seq<seq<real>>>, ids: seq<int>)

  /** The column indices `id_idx`, `x_idx`, `y_idx`, `z_idx`. */
  datatype Columns = Columns(id: nat, x: nat, y: nat, z: nat)

  /** The exceptions that escape the scanner, with the line they arise at. */
  datatype DumpError =
    | MissingLine(at: nat)       // `next(f)` past the last line: StopIteration
    | BadTimestep(at: nat)       // `int(next(f))` raises ValueError
    | BadBounds(at: nat)         // `float(...)` on a bounds token raises ValueError
    | ColumnsUnbound(at: nat)    // a data line before any ATOMS header: UnboundLocalError
    | ColumnOutOfRange(at: nat)  // `values[idx]` past the end of the line: IndexError

  /**
   * Where the scanner takes the column names of an `ITEM: ATOMS` section from:
   * the script reads them from the line after the marker (`NextLine`); `MarkerLine`
   * takes them from the marker line itself, after `ITEM: ATOMS`.
   */
  datatype HeaderSource = NextLine | MarkerLine

  /** The scanner's variables between two lines. */
  datatype Reader = Reader(
    data: seq<Snapshot>,
    timestep: Option<int>,
    current: seq<Vec3>,
    ids: seq<int>,
    box: Option<seq<seq<real>>>,
    columns: Option<Columns>)

  const TimestepMarker := "ITEM: TIMESTEP"
  const BoxBoundsMarker := "ITEM: BOX BOUNDS"
  const AtomsMarker := "ITEM: ATOMS"
  const ItemPrefix := "ITEM:"

  const Start := Reader([], None, [], [], None, None)

  /** `list(map(float, tokens))`: every token converted, or `None` when one is not a number. */
  function ParseAll(tokens: seq<string>): (r: Option<seq<real>>)
    ensures r.Some? ==> |r.value| == |tokens|
  {
    if tokens == [] then Some([])
    else
      var head := ParseDecimal(tokens[0]);
      var tail := ParseAll(tokens[1..]);
      if head.Some? && tail.Some? then Some([head.value] + tail.value) else None
  }

  /** `ParseAll` succeeds exactly when every token is a number, and then converts each one. */
  lemma {:induction false} ParseAllSpec(tokens: seq<string>)
    ensures ParseAll(tokens).Some? <==> forall k :: 0 <= k < |tokens| ==> ParseDecimal(tokens[k]).Some?
    ensures ParseAll(tokens).Some? ==> forall k :: 0 <= k < |tokens| ==> Some(ParseAll(tokens).value[k]) == ParseDecimal(tokens[k])
  {
    if tokens != [] {
      ParseAllSpec(tokens[1..]);
      assert forall k :: 1 <= k < |tokens| ==> tokens[k] == tokens[1..][k - 1];
    }
  }

  /** The column indices named by a header list, with the defaults 0, 1, 2, 3. */
  function ResolveColumns(headers: seq<string>): Columns
  {
    Columns(IndexOr(headers, "id", 0), IndexOr(headers, "x", 1), IndexOr(headers, "y", 2), IndexOr(headers, "z", 3))
  }

  /**
   * Each column index is the first position of its name among the headers, or
   * its default when the name is absent.
   */
  lemma ResolveColumnsSpec(headers: seq<string>)
    ensures var c := ResolveColumns(headers);
      ("id" in headers ==> c.id < |headers| && headers[c.id] == "id" && "id" !in headers[..c.id]) &&
      ("id" !in headers ==> c.id == 0) &&
      ("x" in headers ==> c.x < |headers| && headers[c.x] == "x" && "x" !in headers[..c.x]) &&
      ("x" !in headers ==> c.x == 1) &&
      ("y" in headers ==> c.y < |headers| && headers[c.y] == "y" && "y" !in headers[..c.y]) &&
      ("y" !in headers ==> c.y == 2) &&
      ("z" in headers ==> c.z < |headers| && headers[c.z] == "z" && "z" !in headers[..c.z]) &&
      ("z" !in headers ==> c.z == 3)
  {
    IndexOrSpec(headers, "id", 0);
    IndexOrSpec(headers, "x", 1);
    IndexOrSpec(headers, "y", 2);
    IndexOrSpec(headers, "z", 3);
  }

  /** Prepends `p` to a successful result. */
  function Prefixed<T>(p: seq<T>, r: Result<seq<T>, DumpError>): Result<seq<T>, DumpError>
  {
    match r
    case Success(xs) => Success(p + xs)
    case Failure(e) => Failure(e)
  }

  /** The `n` bound lines pulled with `next(f)` from line `j` on, each fully converted to floats. */
  function ReadBounds(lines: seq<string>, j: nat, n: nat): (r: Result<seq<seq<real>>, DumpError>)
    requires j <= |lines|
    ensures r.Success? ==> |r.value| == n && j + n <= |lines|
    decreases n
  {
    if n == 0 then Success([])
    else if j == |lines| then Failure(MissingLine(j))
    else match ParseAll(Tokens(lines[j]))
      case None => Failure(BadBounds(j))
      case Some(b) => Prefixed([b], ReadBounds(lines, j + 1, n - 1))
  }

  /** Closes the snapshot being accumulated, if it has a timestep and at least one position. */
  function Flush(st: Reader): Reader
  {
    if st.timestep.Some? && st.current != [] then
      st.(data := st.data + [Snapshot(st.timestep.value, st.current, st.box, st.ids)])
    else st
  }

  /** A line of the dump that the scanner treats as a data line and skips. */
  predicate Skippable(line: string)
  {
    var s := Strip(line);
    !StartsWith(s, ItemPrefix) &&
    (ParseAll(Tokens(s)).None? || |Tokens(s)| < 4)
  }

  /**
   * One turn of the scanner's loop at line `i`: the new variables and the index
   * of the next line the `for` loop hands out.
   */
  function Step(lines: seq<string>, i: nat, st: Reader, src: HeaderSource): (r: Result<(Reader, nat), DumpError>)
    requires i < |lines|
    ensures r.Success? ==> i < r.value.1 <= |lines|
  {
    var line := Strip(lines[i]);
    if StartsWith(line, TimestepMarker) then AtTimestep(lines, i, st)
    else if StartsWith(line, BoxBoundsMarker) then AtBoxBounds(lines, i, st)
    else if StartsWith(line, ItemPrefix) then AtItem(lines, i, st, src)
    else AtData(lines, i, st)
  }

  /** `ITEM: TIMESTEP`: close the snapshot, clear the particles, read the new timestep. */
  function AtTimestep(lines: seq<string>, i: nat, st: Reader): (r: Result<(Reader, nat), DumpError>)
    requires i < |lines|
    ensures r.Success? ==> r.value.1 == i + 2 <= |lines|
  {
    var closed := Flush(st).(current := [], ids := []);
    if i + 1 == |lines| then Failure(MissingLine(i + 1))
    else match ParseInt(lines[i + 1])
      case None => Failure(BadTimestep(i + 1))
      case Some(t) => Success((closed.(timestep := Some(t)), i + 2))
  }

  /** `ITEM: BOX BOUNDS`: the next three lines become the box. */
  function AtBoxBounds(lines: seq<string>, i: nat, st: Reader): (r: Result<(Reader, nat), DumpError>)
    requires i < |lines|
    ensures r.Success? ==> r.value.1 == i + 4 <= |lines|
  {
    match ReadBounds(lines, i + 1, 3)
    case Failure(e) => Failure(e)
    case Success(b) => Success((st.(box := Some(b)), i + 4))
  }

  /** Any other `ITEM:` line: skipped, except `ITEM: ATOMS`, whose next line names the columns. */
  function AtItem(lines: seq<string>, i: nat, st: Reader, src: HeaderSource): (r: Result<(Reader, nat), DumpError>)
    requires i < |lines|
    ensures r.Success? ==> i < r.value.1 <= i + 2 && r.value.1 <= |lines|
  {
    if !StartsWith(Strip(lines[i]), AtomsMarker) then Success((st, i + 1))
    else if src == MarkerLine then
      var names := Tokens(Strip(lines[i]));
      Success((st.(columns := Some(ResolveColumns(if |names| >= 2 then names[2..] else []))), i + 1))
    else if i + 1 == |lines| then Failure(MissingLine(i + 1))
    else Success((st.(columns := Some(ResolveColumns(Tokens(Strip(lines[i + 1]))))), i + 2))
  }

  /** A data line: one more particle when a timestep is open and the line holds at least four numbers. */
  function AtData(lines: seq<string>, i: nat, st: Reader): (r: Result<(Reader, nat), DumpError>)
    requires i < |lines|
    ensures r.Success? ==> r.value.1 == i + 1
  {
    if st.timestep.None? then Success((st, i + 1))
    else match ParseAll(Tokens(Strip(lines[i])))
      case None => Success((st, i + 1))
      case Some(values) =>
        if |values| < 4 then Success((st, i + 1))
        else if st.columns.None? then Failure(ColumnsUnbound(i))
        else
          var c := st.columns.value;
          if c.id >= |values| || c.x >= |values| || c.y >= |values| || c.z >= |values| then
            Failure(ColumnOutOfRange(i))
          else
            Success((st.(ids := st.ids + [Truncate(values[c.id])],
                         current := st.current + [Vec3(values[c.x], values[c.y], values[c.z])]), i + 1))
  }

  /** The scanner from line `i` with variables `st` to the end of the input. */
  function Run(lines: seq<string>, i: nat, st: Reader, src: HeaderSource): Result<seq<Snapshot>, DumpError>
    requires i <= |lines|
    decreases |lines| - i
  {
    if i == |lines| then Success(Flush(st).data)
    else match Step(lines, i, st, src)
      case Failure(e) => Failure(e)
      case Success((st', j)) => Run(lines, j, st', src)
  }

  /**
   * `read_dump_voro` of a whole file, taking the column names from `src`: the
   * script as written is `ReadDump(lines, NextLine)`.
   */
  function ReadDump(lines: seq<string>, src: HeaderSource): Result<seq<Snapshot>, DumpError>
  {
    Run(lines, 0, Start, src)
  }

  /** `read_dump_voro`: scan every line, then close the last snapshot. */
  method ReadDumpVoro(lines: seq<string>, src: HeaderSource) returns (r: Result<seq<Snapshot>, DumpError>)
    ensures r == ReadDump(lines, src)
  {
    var st := Start;
    var i := 0;
    while i < |lines|
      invariant i <= |lines|
      invariant Run(lines, i, st, src) == ReadDump(lines, src)
      decreases |lines| - i
    {
      var next := Step(lines, i, st, src);
      if next.Failure? {
        return Failure(next.error);
      }
      st, i := next.value.0, next.value.1;
    }
    r := Success(Flush(st).data);
  }

  // ---------------------------------------------------------------------------
  // Properties of the scanner
  // ---------------------------------------------------------------------------

  const NumberOfAtomsMarker := "ITEM: NUMBER OF ATOMS"

  /** The markers the scanner tests for are `ITEM:` lines. */
  lemma ItemMarkers()
    ensures StartsWith(TimestepMarker, ItemPrefix) && StartsWith(BoxBoundsMarker, ItemPrefix)
    ensures StartsWith(AtomsMarker, ItemPrefix) && StartsWith(NumberOfAtomsMarker, ItemPrefix)
  {
    assert TimestepMarker[..5] == ItemPrefix;
    assert BoxBoundsMarker[..5] == ItemPrefix;
    assert AtomsMarker[..5] == ItemPrefix;
    assert NumberOfAtomsMarker[..5] == ItemPrefix;
  }

  /** No marker is a prefix of another: they differ at their seventh character. */
  lemma MarkersDiffer()
    ensures !StartsWith(TimestepMarker, AtomsMarker) && !StartsWith(BoxBoundsMarker, AtomsMarker)
    ensures !StartsWith(BoxBoundsMarker, TimestepMarker) && !StartsWith(TimestepMarker, BoxBoundsMarker)
    ensures !StartsWith(NumberOfAtomsMarker, TimestepMarker) && !StartsWith(NumberOfAtomsMarker, BoxBoundsMarker)
    ensures !StartsWith(NumberOfAtomsMarker, AtomsMarker)
  {
    assert TimestepMarker[6] != AtomsMarker[6];
    assert BoxBoundsMarker[6] != AtomsMarker[6];
    assert BoxBoundsMarker[6] != TimestepMarker[6];
    assert NumberOfAtomsMarker[6] != TimestepMarker[6];
    assert NumberOfAtomsMarker[6] != BoxBoundsMarker[6];
    assert NumberOfAtomsMarker[6] != AtomsMarker[6];
  }

  /** Two markers that a line starts with are prefixes of one another. */
  lemma CommonPrefix(s: string, p: string, q: string)
    requires StartsWith(s, p) && StartsWith(s, q) && |p| <= |q|
    ensures StartsWith(q, p)
  {
    assert q[..|p|] == s[..|q|][..|p|];
  }

  /** The snapshot shape the scanner guarantees: particles, ids in step, and a three-axis box if any. */
  predicate WellFormed(s: Snapshot)
  {
    s.positions != [] && |s.ids| == |s.positions| && (s.box.Some? ==> |s.box.value| == 3)
  }

  /** The scanner's invariant: closed snapshots are well formed, ids and positions in step. */
  predicate Consistent(st: Reader)
  {
    (forall k :: 0 <= k < |st.data| ==> WellFormed(st.data[k])) &&
    |st.ids| == |st.current| &&
    (st.box.Some? ==> |st.box.value| == 3)
  }

  lemma FlushConsistent(st: Reader)
    requires Consistent(st)
    ensures Consistent(Flush(st))
  {
  }

  lemma AtTimestepConsistent(lines: seq<string>, i: nat, st: Reader)
    requires i < |lines| && Consistent(st)
    ensures AtTimestep(lines, i, st).Success? ==> Consistent(AtTimestep(lines, i, st).value.0)
  {
    FlushConsistent(st);
  }

  lemma AtDataConsistent(lines: seq<string>, i: nat, st: Reader)
    requires i < |lines| && Consistent(st)
    ensures AtData(lines, i, st).Success? ==> Consistent(AtData(lines, i, st).value.0)
  {
  }

  lemma StepConsistent(lines: seq<string>, i: nat, st: Reader, src: HeaderSource)
    requires i < |lines| && Consistent(st)
    ensures Step(lines, i, st, src).Success? ==> Consistent(Step(lines, i, st, src).value.0)
  {
    var line := Strip(lines[i]);
    if StartsWith(line, TimestepMarker) {
      AtTimestepConsistent(lines, i, st);
      assert Step(lines, i, st, src) == AtTimestep(lines, i, st);
    } else if StartsWith(line, BoxBoundsMarker) {
      assert Step(lines, i, st, src) == AtBoxBounds(lines, i, st);
    } else if StartsWith(line, ItemPrefix) {
      assert Step(lines, i, st, src) == AtItem(lines, i, st, src);
    } else {
      AtDataConsistent(lines, i, st);
      assert Step(lines, i, st, src) == AtData(lines, i, st);
    }
  }

  lemma {:induction false} RunWellFormed(lines: seq<string>, i: nat, st: Reader, src: HeaderSource)
    requires i <= |lines| && Consistent(st)
    ensures Run(lines, i, st, src).Success? ==>
      forall k :: 0 <= k < |Run(lines, i, st, src).value| ==> WellFormed(Run(lines, i, st, src).value[k])
    decreases |lines| - i
  {
    if i < |lines| {
      StepConsistent(lines, i, st, src);
      match Step(lines, i, st, src)
      case Failure(_) =>
      case Success((st', j)) => RunWellFormed(lines, j, st', src);
    }
  }

  /**
   * Every snapshot `read_dump_voro` returns has at least one position, exactly
   * one atom id per position, and a box of three axes when it has one.
   */
  lemma ReadDumpWellFormed(lines: seq<string>, src: HeaderSource)
    ensures ReadDump(lines, src).Success? ==>
      forall k :: 0 <= k < |ReadDump(lines, src).value| ==> WellFormed(ReadDump(lines, src).value[k])
  {
    RunWellFormed(lines, 0, Start, src);
  }

  /**
   * Closed snapshots are only ever appended to: at a TIMESTEP marker the
   * snapshot being accumulated is closed when it has a timestep and a position,
   * and no other line closes one.
   */
  lemma StepEmission(lines: seq<string>, i: nat, st: Reader, src: HeaderSource)
    requires i < |lines| && Step(lines, i, st, src).Success?
    ensures Step(lines, i, st, src).value.0.data ==
      if StartsWith(Strip(lines[i]), TimestepMarker) && st.timestep.Some? && st.current != [] then
        st.data + [Snapshot(st.timestep.value, st.current, st.box, st.ids)]
      else st.data
  {
    var line := Strip(lines[i]);
    if StartsWith(line, TimestepMarker) {
      assert Step(lines, i, st, src) == AtTimestep(lines, i, st);
    } else if StartsWith(line, BoxBoundsMarker) {
      assert Step(lines, i, st, src) == AtBoxBounds(lines, i, st);
    } else if StartsWith(line, ItemPrefix) {
      assert Step(lines, i, st, src) == AtItem(lines, i, st, src);
    } else {
      assert Step(lines, i, st, src) == AtData(lines, i, st);
    }
  }

  /** What has been closed at any point of the scan is a prefix of the result: file order is kept. */
  lemma {:induction false} RunExtends(lines: seq<string>, i: nat, st: Reader, src: HeaderSource)
    requires i <= |lines|
    ensures Run(lines, i, st, src).Success? ==> st.data <= Run(lines, i, st, src).value
    decreases |lines| - i
  {
    if i < |lines| {
      match Step(lines, i, st, src)
      case Failure(_) =>
      case Success((st', j)) =>
        StepEmission(lines, i, st, src);
        RunExtends(lines, j, st', src);
    }
  }

  /**
   * At a TIMESTEP marker the particles and ids are cleared and the timestep is
   * the integer on the next line, while the box bounds and the column indices
   * carry over to the new snapshot.
   */
  lemma TimestepResets(lines: seq<string>, i: nat, st: Reader, src: HeaderSource)
    requires i < |lines| && StartsWith(Strip(lines[i]), TimestepMarker)
    ensures Step(lines, i, st, src).Success? <==> i + 1 < |lines| && ParseInt(lines[i + 1]).Some?
    ensures Step(lines, i, st, src).Success? ==>
      var (st', j) := Step(lines, i, st, src).value;
      j == i + 2 && st'.timestep == ParseInt(lines[i + 1]) &&
      st'.current == [] && st'.ids == [] && st'.box == st.box && st'.columns == st.columns
  {
  }

  /** Only a BOX BOUNDS section changes the box bounds. */
  lemma BoxOnlyFromBoundsSection(lines: seq<string>, i: nat, st: Reader, src: HeaderSource)
    requires i < |lines| && Step(lines, i, st, src).Success?
    requires Step(lines, i, st, src).value.0.box != st.box
    ensures StartsWith(Strip(lines[i]), BoxBoundsMarker)
  {
  }

  lemma {:induction false} ReadBoundsFails(lines: seq<string>, j: nat, n: nat)
    requires j <= |lines|
    requires j + n > |lines| || exists k :: j <= k < j + n && ParseAll(Tokens(lines[k])).None?
    ensures ReadBounds(lines, j, n).Failure?
    decreases n
  {
    if n > 0 && j < |lines| && ParseAll(Tokens(lines[j])).Some? {
      ReadBoundsFails(lines, j + 1, n - 1);
    }
  }

  /**
   * A BOX BOUNDS marker whose next three lines are not all present and fully
   * numeric stops the whole scan with an error.
   */
  lemma BoundsFatal(lines: seq<string>, i: nat, st: Reader, src: HeaderSource)
    requires i < |lines| && StartsWith(Strip(lines[i]), BoxBoundsMarker)
    requires i + 3 >= |lines| || exists k :: i < k <= i + 3 && ParseAll(Tokens(lines[k])).None?
    ensures Run(lines, i, st, src).Failure?
  {
    ItemMarkers();
    MarkersDiffer();
    if StartsWith(Strip(lines[i]), TimestepMarker) {
      CommonPrefix(Strip(lines[i]), TimestepMarker, BoxBoundsMarker);
    }
    ReadBoundsFails(lines, i + 1, 3);
  }

  /**
   * An `ITEM:` line other than TIMESTEP, BOX BOUNDS and ATOMS changes nothing;
   * in particular it is never read as a data line.
   */
  lemma OtherItemLinesIgnored(lines: seq<string>, i: nat, st: Reader, src: HeaderSource)
    requires i < |lines|
    requires StartsWith(Strip(lines[i]), ItemPrefix)
    requires !StartsWith(Strip(lines[i]), TimestepMarker) && !StartsWith(Strip(lines[i]), BoxBoundsMarker)
    requires !StartsWith(Strip(lines[i]), AtomsMarker)
    ensures Step(lines, i, st, src) == Success((st, i + 1))
  {
  }

  /**
   * A line that is not an `ITEM:` line is recorded exactly when a timestep has
   * been seen, every token is a number and there are at least four tokens; the
   * id and position then go at the end of the snapshot and nothing else changes.
   * Any other such line is skipped without error. A recorded line is fatal only
   * when no ATOMS header has set the columns or a column lies past its end.
   */
  lemma DataLine(lines: seq<string>, i: nat, st: Reader, src: HeaderSource)
    requires i < |lines| && !StartsWith(Strip(lines[i]), ItemPrefix)
    ensures
      var values := ParseAll(Tokens(Strip(lines[i])));
      var recorded := st.timestep.Some? && values.Some? && |values.value| >= 4;
      (!recorded ==> Step(lines, i, st, src) == Success((st, i + 1))) &&
      (recorded ==>
        var v := values.value;
        var c := st.columns;
        (Step(lines, i, st, src).Success? <==>
          c.Some? && c.value.id < |v| && c.value.x < |v| && c.value.y < |v| && c.value.z < |v|) &&
        (Step(lines, i, st, src).Success? ==>
          Step(lines, i, st, src) == Success((st.(ids := st.ids + [Truncate(v[c.value.id])],
            current := st.current + [Vec3(v[c.value.x], v[c.value.y], v[c.value.z])]), i + 1))))
  {
    ItemMarkers();
    MarkersDiffer();
    var line := Strip(lines[i]);
    if StartsWith(line, TimestepMarker) {
      StartsWithTrans(line, TimestepMarker, ItemPrefix);
    }
    if StartsWith(line, BoxBoundsMarker) {
      StartsWithTrans(line, BoxBoundsMarker, ItemPrefix);
    }
  }

  /** A line the scanner skips can be dropped from the input at the point where it is read. */
  lemma SkipLine(lines: seq<string>, i: nat, st: Reader, src: HeaderSource)
    requires i < |lines| && Skippable(lines[i])
    ensures Run(lines, i, st, src) == Run(lines, i + 1, st, src)
  {
    DataLine(lines, i, st, src);
  }

  /**
   * The value line after `ITEM: NUMBER OF ATOMS` (a lone integer) is read as a
   * data line and dropped as too short: the declared count is never used.
   */
  lemma DeclaredCountUnused(lines: seq<string>, i: nat, st: Reader, src: HeaderSource)
    requires i + 1 < |lines|
    requires StartsWith(Strip(lines[i]), NumberOfAtomsMarker)
    requires !StartsWith(Strip(lines[i + 1]), ItemPrefix) && |Tokens(Strip(lines[i + 1]))| < 4
    ensures Run(lines, i, st, src) == Run(lines, i + 2, st, src)
  {
    ItemMarkers();
    MarkersDiffer();
    var line := Strip(lines[i]);
    StartsWithTrans(line, NumberOfAtomsMarker, ItemPrefix);
    if StartsWith(line, TimestepMarker) {
      CommonPrefix(line, TimestepMarker, NumberOfAtomsMarker);
    }
    if StartsWith(line, BoxBoundsMarker) {
      CommonPrefix(line, BoxBoundsMarker, NumberOfAtomsMarker);
    }
    if StartsWith(line, AtomsMarker) {
      CommonPrefix(line, AtomsMarker, NumberOfAtomsMarker);
    }
    OtherItemLinesIgnored(lines, i, st, src);
    SkipLine(lines, i + 1, st, src);
  }

  /**
   * At an ATOMS marker the script reads the column names from the next line and
   * moves past it: that line (the first atom line of a standard dump) only sets
   * the column indices and is not recorded.
   */
  lemma AtomsHeaderLine(lines: seq<string>, i: nat, st: Reader)
    requires i + 1 < |lines| && StartsWith(Strip(lines[i]), AtomsMarker)
    ensures Step(lines, i, st, NextLine) ==
      Success((st.(columns := Some(ResolveColumns(Tokens(Strip(lines[i + 1]))))), i + 2))
  {
    ItemMarkers();
    MarkersDiffer();
    var line := Strip(lines[i]);
    StartsWithTrans(line, AtomsMarker, ItemPrefix);
    if StartsWith(line, TimestepMarker) {
      CommonPrefix(line, AtomsMarker, TimestepMarker);
    }
    if StartsWith(line, BoxBoundsMarker) {
      CommonPrefix(line, AtomsMarker, BoxBoundsMarker);
    }
  }

  lemma {:induction false} ReadBoundsAhead(lines: seq<string>, lines': seq<string>, j: nat, n: nat)
    requires j <= |lines| == |lines'|
    requires forall k :: j <= k < |lines| ==> lines[k] == lines'[k]
    ensures ReadBounds(lines, j, n) == ReadBounds(lines', j, n)
    decreases n
  {
    if n > 0 && j < |lines| {
      ReadBoundsAhead(lines, lines', j + 1, n - 1);
    }
  }

  lemma AtItemAhead(lines: seq<string>, lines': seq<string>, j: nat, st: Reader, src: HeaderSource)
    requires j < |lines| == |lines'| && lines[j] == lines'[j]
    requires j + 1 < |lines| ==> lines[j + 1] == lines'[j + 1]
    ensures AtItem(lines, j, st, src) == AtItem(lines', j, st, src)
  {
  }

  lemma AtTimestepAhead(lines: seq<string>, lines': seq<string>, j: nat, st: Reader)
    requires j < |lines| == |lines'|
    requires j + 1 < |lines| ==> lines[j + 1] == lines'[j + 1]
    ensures AtTimestep(lines, j, st) == AtTimestep(lines', j, st)
  {
  }

  lemma StepAhead(lines: seq<string>, lines': seq<string>, j: nat, st: Reader, src: HeaderSource)
    requires j < |lines| == |lines'|
    requires forall k :: j <= k < |lines| ==> lines[k] == lines'[k]
    ensures Step(lines, j, st, src) == Step(lines', j, st, src)
  {
    var line := Strip(lines[j]);
    assert lines[j] == lines'[j];
    assert Strip(lines'[j]) == line;
    if j + 1 < |lines| {
      assert lines[j + 1] == lines'[j + 1];
    }
    if StartsWith(line, TimestepMarker) {
      AtTimestepAhead(lines, lines', j, st);
      assert Step(lines, j, st, src) == AtTimestep(lines, j, st);
      assert Step(lines', j, st, src) == AtTimestep(lines', j, st);
    } else if StartsWith(line, BoxBoundsMarker) {
      ReadBoundsAhead(lines, lines', j + 1, 3);
      assert Step(lines, j, st, src) == AtBoxBounds(lines, j, st);
      assert Step(lines', j, st, src) == AtBoxBounds(lines', j, st);
    } else if StartsWith(line, ItemPrefix) {
      AtItemAhead(lines, lines', j, st, src);
      assert Step(lines, j, st, src) == AtItem(lines, j, st, src);
      assert Step(lines', j, st, src) == AtItem(lines', j, st, src);
    } else {
      assert Step(lines, j, st, src) == AtData(lines, j, st);
      assert Step(lines', j, st, src) == AtData(lines', j, st);
    }
  }

  /** The scanner at line `j` never looks back: only the lines from `j` on matter. */
  lemma {:induction false} RunAhead(lines: seq<string>, lines': seq<string>, j: nat, st: Reader, src: HeaderSource)
    requires j <= |lines| == |lines'|
    requires forall k :: j <= k < |lines| ==> lines[k] == lines'[k]
    ensures Run(lines, j, st, src) == Run(lines', j, st, src)
    decreases |lines| - j
  {
    if j < |lines| {
      StepAhead(lines, lines', j, st, src);
      match Step(lines, j, st, src)
      case Failure(_) =>
      case Success((st', k)) => RunAhead(lines, lines', k, st', src);
    }
  }

  /**
   * The line after an ATOMS marker is never recorded as a particle: replacing it
   * by any line naming the same columns (for instance any line without the
   * tokens `id`, `x`, `y`, `z`) does not change the result.
   */
  lemma LineAfterAtomsNotRecorded(lines: seq<string>, i: nat, st: Reader, other: string)
    requires i + 1 < |lines| && StartsWith(Strip(lines[i]), AtomsMarker)
    requires ResolveColumns(Tokens(Strip(other))) == ResolveColumns(Tokens(Strip(lines[i + 1])))
    ensures Run(lines, i, st, NextLine) == Run(lines[i + 1 := other], i, st, NextLine)
  {
    var lines' := lines[i + 1 := other];
    AtomsHeaderLine(lines, i, st);
    AtomsHeaderLine(lines', i, st);
    RunAhead(lines, lines', i + 2, st.(columns := Some(ResolveColumns(Tokens(Strip(lines[i + 1]))))), NextLine);
  }

  // ---------------------------------------------------------------------------
  // The writer
  // ---------------------------------------------------------------------------

  /** A line whose every token is a number names none of the columns `id`, `x`, `y`, `z`. */
  lemma NumbersAreNotNames(tokens: seq<string>)
    requires ParseAll(tokens).Some?
    ensures "id" !in tokens && "x" !in tokens && "y" !in tokens && "z" !in tokens
  {
    ParseAllSpec(tokens);
    assert ParseDecimal("id").None? && ParseDecimal("x").None? && ParseDecimal("y").None? && ParseDecimal("z").None?;
  }

  /**
   * As written: when the line after an ATOMS marker is an atom line (all
   * numbers), that atom is dropped and the columns fall back to the defaults
   * 0, 1, 2, 3, so in an `id type x y z` layout x is read from the type column.
   */
  lemma FirstAtomDropped(lines: seq<string>, i: nat, st: Reader)
    requires i + 1 < |lines| && StartsWith(Strip(lines[i]), AtomsMarker)
    requires ParseAll(Tokens(Strip(lines[i + 1]))).Some?
    ensures Run(lines, i, st, NextLine) == Run(lines, i + 2, st.(columns := Some(Columns(0, 1, 2, 3))), NextLine)
  {
    var tokens := Tokens(Strip(lines[i + 1]));
    AtomsHeaderLine(lines, i, st);
    NumbersAreNotNames(tokens);
    ResolveColumnsSpec(tokens);
  }

  /** Corrected: an ATOMS marker takes its column names from its own line, after `ITEM: ATOMS`. */
  lemma MarkerStep(lines: seq<string>, i: nat, st: Reader, names: seq<string>)
    requires i < |lines| && StartsWith(Strip(lines[i]), AtomsMarker)
    requires Tokens(Strip(lines[i])) == ["ITEM:", "ATOMS"] + names
    ensures Step(lines, i, st, MarkerLine) == Success((st.(columns := Some(ResolveColumns(names))), i + 1))
  {
    ItemMarkers();
    MarkersDiffer();
    var line := Strip(lines[i]);
    StartsWithTrans(line, AtomsMarker, ItemPrefix);
    if StartsWith(line, TimestepMarker) {
      CommonPrefix(line, AtomsMarker, TimestepMarker);
    }
    if StartsWith(line, BoxBoundsMarker) {
      CommonPrefix(line, AtomsMarker, BoxBoundsMarker);
    }
    assert (["ITEM:", "ATOMS"] + names)[2..] == names;
  }

  /**
   * Corrected: the first atom line after an ATOMS marker is recorded with the
   * columns the marker names, like every later atom line.
   */
  lemma FirstAtomRecorded(lines: seq<string>, i: nat, st: Reader, names: seq<string>, v: seq<real>)
    requires i + 1 < |lines| && StartsWith(Strip(lines[i]), AtomsMarker)
    requires Tokens(Strip(lines[i])) == ["ITEM:", "ATOMS"] + names
    requires st.timestep.Some? && !StartsWith(Strip(lines[i + 1]), ItemPrefix)
    requires ParseAll(Tokens(Strip(lines[i + 1]))) == Some(v) && |v| >= 4
    requires var c := ResolveColumns(names); c.id < |v| && c.x < |v| && c.y < |v| && c.z < |v|
    ensures var c := ResolveColumns(names);
      Run(lines, i, st, MarkerLine) ==
      Run(lines, i + 2, st.(columns := Some(c), ids := st.ids + [Truncate(v[c.id])],
        current := st.current + [Vec3(v[c.x], v[c.y], v[c.z])]), MarkerLine)
  {
    var st' := st.(columns := Some(ResolveColumns(names)));
    MarkerStep(lines, i, st, names);
    DataLine(lines, i + 1, st', MarkerLine);
  }

  /** The standard `id type x y z` layout puts the coordinates in columns 2, 3 and 4. */
  lemma StandardColumns()
    ensures ResolveColumns(["id", "type", "x", "y", "z"]) == Columns(0, 2, 3, 4)
  {
  }

  const BoxHeader := "ITEM: BOX BOUNDS pp pp pp"
  const AtomsHeader := "ITEM: ATOMS id type x y z"
  const DefaultBound := "0.0 100.0"

  /**
   * One axis of the box, its first two values in the fixed-point format `fixed`
   * (`f"{v:.6f}"`); `None` where `bounds[0]` or `bounds[1]` raises IndexError.
   */
  function BoundLine(b: seq<real>, fixed: real -> string): Option<string>
  {
    if |b| < 2 then None else Some(fixed(b[0]) + " " + fixed(b[1]))
  }

  /** The lines of the box section, axis by axis; `None` when an axis has fewer than two values. */
  function BoundLines(box: seq<seq<real>>, fixed: real -> string): (r: Option<seq<string>>)
    ensures r.Some? ==> |r.value| == |box|
  {
    if box == [] then Some([])
    else match (BoundLines(box[..|box| - 1], fixed), BoundLine(box[|box| - 1], fixed))
      case (Some(ls), Some(l)) => Some(ls + [l])
      case _ => None
  }

  /** The box section: the bounds when the snapshot has a non-empty box, three default axes otherwise. */
  function BoxText(box: Option<seq<seq<real>>>, fixed: real -> string): Option<seq<string>>
  {
    if box.None? || box.value == [] then Some([DefaultBound, DefaultBound, DefaultBound])
    else BoundLines(box.value, fixed)
  }

  function AtomLine(id: int, p: Vec3, fixed: real -> string): string
  {
    IntText(id) + " 1 " + fixed(p.x) + " " + fixed(p.y) + " " + fixed(p.z)
  }

  function Min(a: nat, b: nat): nat { if a <= b then a else b }

  /** One line per pair of `zip(atom_ids, positions)`, numbered from 1 in the script but not by number. */
  function AtomLines(ids: seq<int>, positions: seq<Vec3>, fixed: real -> string): (r: seq<string>)
    ensures |r| == Min(|ids|, |positions|)
  {
    seq(Min(|ids|, |positions|), k requires 0 <= k < Min(|ids|, |positions|) => AtomLine(ids[k], positions[k], fixed))
  }

  /** The text `write_trajectory` writes for one snapshot; `None` where it raises IndexError. */
  function SnapshotText(s: Snapshot, fixed: real -> string): Option<seq<string>>
  {
    match BoxText(s.box, fixed)
    case None => None
    case Some(bounds) =>
      Some([TimestepMarker, IntText(s.timestep), NumberOfAtomsMarker, IntText(|s.positions|), BoxHeader]
        + bounds + [AtomsHeader] + AtomLines(s.ids, s.positions, fixed))
  }

  /** The whole output of `write_trajectory`, snapshot after snapshot. */
  function TrajectoryText(data: seq<Snapshot>, fixed: real -> string): Option<seq<string>>
  {
    if data == [] then Some([])
    else match (TrajectoryText(data[..|data| - 1], fixed), SnapshotText(data[|data| - 1], fixed))
      case (Some(before), Some(last)) => Some(before + last)
      case _ => None
  }

  lemma {:induction false} BoundLinesShort(box: seq<seq<real>>, j: nat, fixed: real -> string)
    requires j < |box| && |box[j]| < 2
    ensures BoundLines(box, fixed).None?
  {
    if j < |box| - 1 {
      BoundLinesShort(box[..|box| - 1], j, fixed);
    }
  }

  lemma {:induction false} TrajectoryTextFails(data: seq<Snapshot>, k: nat, fixed: real -> string)
    requires k < |data| && SnapshotText(data[k], fixed).None?
    ensures TrajectoryText(data, fixed).None?
  {
    if k < |data| - 1 {
      TrajectoryTextFails(data[..|data| - 1], k, fixed);
    }
  }

  /** The box section of one snapshot, as the script's `if box_bounds:` writes it. */
  method WriteBox(box: Option<seq<seq<real>>>, fixed: real -> string) returns (lines: Option<seq<string>>)
    ensures lines == BoxText(box, fixed)
  {
    if box.None? || box.value == [] {
      return Some([DefaultBound, DefaultBound, DefaultBound]);
    }
    var axes := box.value;
    var written: seq<string> := [];
    var j := 0;
    while j < |axes|
      invariant j <= |axes|
      invariant BoundLines(axes[..j], fixed) == Some(written)
    {
      assert axes[..j + 1][..j] == axes[..j];
      if |axes[j]| < 2 {
        BoundLinesShort(axes, j, fixed);
        return None;
      }
      written := written + [fixed(axes[j][0]) + " " + fixed(axes[j][1])];
      j := j + 1;
    }
    assert axes[..j] == axes;
    lines := Some(written);
  }

  /** The atom section of one snapshot: one line per pair of `zip(atom_ids, positions)`. */
  method WriteAtoms(ids: seq<int>, positions: seq<Vec3>, fixed: real -> string) returns (lines: seq<string>)
    ensures lines == AtomLines(ids, positions, fixed)
  {
    ghost var atoms := AtomLines(ids, positions, fixed);
    lines := [];
    var i := 0;
    while i < |ids| && i < |positions|
      invariant i <= |atoms|
      invariant lines == atoms[..i]
    {
      assert atoms[..i + 1] == atoms[..i] + [atoms[i]];
      lines := lines + [AtomLine(ids[i], positions[i], fixed)];
      i := i + 1;
    }
    assert atoms[..i] == atoms;
  }

  /**
   * `write_trajectory`: the lines written to the output file, or `None` when a
   * box axis has fewer than two values and the script stops with IndexError.
   */
  method WriteTrajectory(data: seq<Snapshot>, fixed: real -> string) returns (out: Option<seq<string>>)
    ensures out == TrajectoryText(data, fixed)
  {
    var file: seq<string> := [];
    var k := 0;
    while k < |data|
      invariant k <= |data|
      invariant TrajectoryText(data[..k], fixed) == Some(file)
    {
      var s := data[k];
      var bounds := WriteBox(s.box, fixed);
      if bounds.None? {
        TrajectoryTextFails(data, k, fixed);
        return None;
      }
      var atoms := WriteAtoms(s.ids, s.positions, fixed);
      var lines := [TimestepMarker, IntText(s.timestep), NumberOfAtomsMarker, IntText(|s.positions|), BoxHeader]
        + bounds.value + [AtomsHeader] + atoms;
      assert SnapshotText(s, fixed) == Some(lines);
      assert data[..k + 1][..k] == data[..k] && data[..k + 1][k] == s;
      file := file + lines;
      k := k + 1;
    }
    assert data[..k] == data;
    out := Some(file);
  }


  /** The box lines exist exactly when every axis has two values, and line `k` shows axis `k`. */
  lemma {:induction false} BoundLinesSpec(box: seq<seq<real>>, fixed: real -> string)
    ensures BoundLines(box, fixed).Some? <==> forall k :: 0 <= k < |box| ==> |box[k]| >= 2
    ensures BoundLines(box, fixed).Some? ==>
      forall k :: 0 <= k < |box| ==> BoundLines(box, fixed).value[k] == fixed(box[k][0]) + " " + fixed(box[k][1])
  {
    if box != [] {
      var front := box[..|box| - 1];
      BoundLinesSpec(front, fixed);
      assert forall k :: 0 <= k < |front| ==> front[k] == box[k];
    }
  }

  /** A snapshot can be written exactly when it has no box, an empty one, or two values on every axis. */
  lemma SnapshotTextDefined(s: Snapshot, fixed: real -> string)
    ensures SnapshotText(s, fixed).Some? <==>
      s.box.None? || s.box.value == [] || forall k :: 0 <= k < |s.box.value| ==> |s.box.value[k]| >= 2
  {
    if s.box.Some? && s.box.value != [] {
      BoundLinesSpec(s.box.value, fixed);
    }
  }

  /**
   * A snapshot's text opens with the TIMESTEP header and the timestep, then the
   * atom count (the number of positions) and the BOX BOUNDS header; both numbers
   * read back with `int()` as written.
   */
  lemma SnapshotHeader(s: Snapshot, fixed: real -> string)
    requires SnapshotText(s, fixed).Some?
    ensures
      var t := SnapshotText(s, fixed).value;
      |t| >= 5 && t[0] == TimestepMarker && ParseInt(t[1]) == Some(s.timestep) &&
      t[2] == NumberOfAtomsMarker && ParseInt(t[3]) == Some(|s.positions|) && t[4] == BoxHeader
  {
    var t := SnapshotText(s, fixed).value;
    var head := [TimestepMarker, IntText(s.timestep), NumberOfAtomsMarker, IntText(|s.positions|), BoxHeader];
    assert t[..5] == head;
    assert t[1] == head[1] && t[3] == head[3];
    ParseIntText(s.timestep);
    ParseIntText(|s.positions|);
  }

  /**
   * After the header come the box section (three default axes when the
   * snapshot has no box), the ATOMS header, and one line per atom id and
   * position, as many as the shorter of the two lists.
   */
  lemma SnapshotBody(s: Snapshot, fixed: real -> string)
    requires SnapshotText(s, fixed).Some?
    ensures
      var t := SnapshotText(s, fixed).value;
      var axes := if s.box.None? || s.box.value == [] then 3 else |s.box.value|;
      |t| == 6 + axes + Min(|s.ids|, |s.positions|) &&
      t[5..5 + axes] == BoxText(s.box, fixed).value &&
      ((s.box.None? || s.box.value == []) ==> t[5..8] == [DefaultBound, DefaultBound, DefaultBound]) &&
      (forall k :: 0 <= k < axes && s.box.Some? && s.box.value != [] ==>
         |s.box.value[k]| >= 2 && t[5 + k] == fixed(s.box.value[k][0]) + " " + fixed(s.box.value[k][1])) &&
      t[5 + axes] == AtomsHeader &&
      forall k :: 0 <= k < Min(|s.ids|, |s.positions|) ==> t[6 + axes + k] == AtomLine(s.ids[k], s.positions[k], fixed)
  {
    var t := SnapshotText(s, fixed).value;
    var bounds := BoxText(s.box, fixed).value;
    var atoms := AtomLines(s.ids, s.positions, fixed);
    var head := [TimestepMarker, IntText(s.timestep), NumberOfAtomsMarker, IntText(|s.positions|), BoxHeader];
    assert t == head + bounds + [AtomsHeader] + atoms;
    assert |bounds| == if s.box.None? || s.box.value == [] then 3 else |s.box.value|;
    Layout(head, bounds, atoms);
    SnapshotBox(s, fixed);
    forall k | 0 <= k < |atoms|
      ensures t[6 + |bounds| + k] == AtomLine(s.ids[k], s.positions[k], fixed)
    {
      AtomLinesAt(s.ids, s.positions, fixed, k);
    }
  }

  /** The box section of a snapshot's text: three default axes without a box, else each axis's first two values. */
  lemma SnapshotBox(s: Snapshot, fixed: real -> string)
    requires SnapshotText(s, fixed).Some?
    ensures
      var t := SnapshotText(s, fixed).value;
      var axes := if s.box.None? || s.box.value == [] then 3 else |s.box.value|;
      |t| >= 5 + axes && t[5..5 + axes] == BoxText(s.box, fixed).value &&
      ((s.box.None? || s.box.value == []) ==> t[5..8] == [DefaultBound, DefaultBound, DefaultBound]) &&
      (forall k :: 0 <= k < axes && s.box.Some? && s.box.value != [] ==>
         |s.box.value[k]| >= 2 && t[5 + k] == fixed(s.box.value[k][0]) + " " + fixed(s.box.value[k][1]))
  {
    var t := SnapshotText(s, fixed).value;
    var bounds := BoxText(s.box, fixed).value;
    var head := [TimestepMarker, IntText(s.timestep), NumberOfAtomsMarker, IntText(|s.positions|), BoxHeader];
    var atoms := AtomLines(s.ids, s.positions, fixed);
    assert t == head + bounds + [AtomsHeader] + atoms;
    Layout(head, bounds, atoms);
    if s.box.Some? && s.box.value != [] {
      BoundLinesSpec(s.box.value, fixed);
      forall k | 0 <= k < |bounds|
        ensures t[5 + k] == bounds[k]
      {
        assert t[5..5 + |bounds|][k] == bounds[k];
      }
    }
  }

  lemma AtomLinesAt(ids: seq<int>, positions: seq<Vec3>, fixed: real -> string, k: nat)
    requires k < Min(|ids|, |positions|)
    ensures AtomLines(ids, positions, fixed)[k] == AtomLine(ids[k], positions[k], fixed)
  {
  }

  /** Where the box lines, the ATOMS header and the atom lines sit in a snapshot's text. */
  lemma Layout(head: seq<string>, bounds: seq<string>, atoms: seq<string>)
    ensures var t := head + bounds + [AtomsHeader] + atoms;
      |t| == |head| + |bounds| + 1 + |atoms| && t[|head|..|head| + |bounds|] == bounds &&
      t[|head| + |bounds|] == AtomsHeader &&
      forall k :: 0 <= k < |atoms| ==> t[|head| + |bounds| + 1 + k] == atoms[k]
  {
  }

  /** `write_trajectory` fails exactly when one snapshot does, and otherwise writes the snapshots in order. */
  lemma {:induction false} TrajectoryTextSpec(data: seq<Snapshot>, fixed: real -> string)
    ensures TrajectoryText(data, fixed).Some? <==> forall k :: 0 <= k < |data| ==> SnapshotText(data[k], fixed).Some?
    ensures data != [] && TrajectoryText(data, fixed).Some? ==>
      TrajectoryText(data, fixed).value == TrajectoryText(data[..|data| - 1], fixed).value + SnapshotText(data[|data| - 1], fixed).value
  {
    if data != [] {
      var front := data[..|data| - 1];
      TrajectoryTextSpec(front, fixed);
      assert forall k :: 0 <= k < |front| ==> front[k] == data[k];
    }
  }


  lemma {:induction false} TrajectoryStartsWithFirst(data: seq<Snapshot>, fixed: real -> string)
    requires data != [] && TrajectoryText(data, fixed).Some?
    ensures SnapshotText(data[0], fixed).Some?
    ensures SnapshotText(data[0], fixed).value <= TrajectoryText(data, fixed).value
  {
    TrajectoryTextSpec(data, fixed);
    if |data| > 1 {
      TrajectoryStartsWithFirst(data[..|data| - 1], fixed);
    }
  }

  /** A snapshot the scanner produces is written as at least ten lines, the first the TIMESTEP header. */
  lemma WrittenSnapshotLength(s: Snapshot, fixed: real -> string)
    requires WellFormed(s) && SnapshotText(s, fixed).Some?
    ensures |SnapshotText(s, fixed).value| == 9 + |s.positions| >= 10
    ensures SnapshotText(s, fixed).value[0] == TimestepMarker
  {
    SnapshotHeader(s, fixed);
    SnapshotBody(s, fixed);
  }

  // ---------------------------------------------------------------------------
  // The output check
  // ---------------------------------------------------------------------------

  /**
   * `verify_output`: takes ten lines from each file and compares the first ones
   * after `strip()`; `None` where a file has fewer than ten lines and `next`
   * raises StopIteration.
   */
  function VerifyOutput(input: seq<string>, output: seq<string>): Option<bool>
  {
    if |input| < 10 || |output| < 10 then None
    else Some(Strip(input[0]) == Strip(output[0]))
  }

  /**
   * On a successful conversion of a dump with at least one snapshot and ten
   * lines, the check passes exactly when the dump's first line is the TIMESTEP
   * header: the output always starts with one.
   */
  lemma ConversionCheck(input: seq<string>, src: HeaderSource, fixed: real -> string)
    requires |input| >= 10 && ReadDump(input, src).Success? && ReadDump(input, src).value != []
    requires TrajectoryText(ReadDump(input, src).value, fixed).Some?
    ensures VerifyOutput(input, TrajectoryText(ReadDump(input, src).value, fixed).value) ==
      Some(Strip(input[0]) == TimestepMarker)
  {
    var data := ReadDump(input, src).value;
    ReadDumpWellFormed(input, src);
    TrajectoryStartsWithFirst(data, fixed);
    WrittenSnapshotLength(data[0], fixed);
    var t := SnapshotText(data[0], fixed).value;
    var out := TrajectoryText(data, fixed).value;
    assert out[0] == t[0] && |out| >= |t|;
    StripUnchanged(TimestepMarker);
  }

  /** A dump in which no snapshot is found is written as an empty file, and the check then stops with an error. */
  lemma EmptyConversionCheck(input: seq<string>, src: HeaderSource, fixed: real -> string)
    requires ReadDump(input, src) == Success([])
    ensures TrajectoryText(ReadDump(input, src).value, fixed) == Some([])
    ensures VerifyOutput(input, TrajectoryText(ReadDump(input, src).value, fixed).value).None?
  {
  }

}

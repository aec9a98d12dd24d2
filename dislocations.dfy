/**
 * The dislocation analysis of scripts/analyze_dislocations.py: a second dump
 * reader with fixed columns, a `reading_atoms` flag and a soft atom-count
 * cutoff, which keeps one frame per timestep (optionally only target
 * timesteps); then the per-frame statistics (box volume, atoms whose
 * centro-symmetry parameter exceeds 2.0, dislocation density, grain count), the
 * matching of timesteps against strain data, the three phases of the report and
 * the `.xyz` export of one frame.
 *
 * As in the trajectory converter, the reader is specified by `Step` (one line,
 * or the lines it pulls with `next(f)`) and `Run`, and `ReadLammpsDump` is the
 * script's loop, proved to compute `ReadDumpSpec`.
 */
module Dislocations {
  import opened Wrappers
  import opened Text
  import opened Numbers
  import opened Geometry

  /** One axis of the box: `[float(bounds[0]), float(bounds[1])]`. */
  datatype Bound = Bound(lo: real, hi: real)

  /** What the reader stores for a timestep: parallel lists of positions, types and CSP values, and the box. */
  datatype Frame = Frame(positions: seq<Vec3>, types: seq<int>, csp: seq<real>, box: Option<seq<Bound>>)

  /** The exceptions that escape `read_lammps_dump`, with the line they arise at. */
  datatype ReadError =
    | MissingLine(at: nat)   // `next(f)` past the last line: StopIteration
    | BadInteger(at: nat)    // `int(next(f))` raises ValueError
    | BadBounds(at: nat)     // a bounds line with fewer than two tokens or a non-number

  /** The reader's variables between two lines. */
  datatype Scanner = Scanner(
    data: map<int, Frame>,
    timestep: Option<int>,
    positions: seq<Vec3>,
    types: seq<int>,
    csp: seq<real>,
    box: Option<seq<Bound>>,
    reading: bool,
    expected: Option<int>,
    read: nat)

  const TimestepMarker := "ITEM: TIMESTEP"
  const NumberOfAtomsMarker := "ITEM: NUMBER OF ATOMS"
  const BoxBoundsMarker := "ITEM: BOX BOUNDS"
  const AtomsMarker := "ITEM: ATOMS"

  /** The number of tokens an atom line needs: the CSP value is token 10. */
  const AtomFieldCount := 11

  const Start := Scanner(map[], None, [], [], [], None, false, None, 0)

  /** The frame being accumulated, as the script stores it. */
  function Current(st: Scanner): Frame
  {
    Frame(st.positions, st.types, st.csp, st.box)
  }

  /** True when a timestep passes the optional filter `target_timesteps`. */
  predicate Wanted(t: int, targets: Option<set<int>>)
  {
    targets.None? || t in targets.value
  }

  /** The stored frames after closing the current one: kept when it read an atom and its timestep is wanted. */
  function Save(st: Scanner, targets: Option<set<int>>): map<int, Frame>
  {
    if st.timestep.Some? && st.read > 0 && Wanted(st.timestep.value, targets) then
      st.data[st.timestep.value := Current(st)]
    else st.data
  }

  /** The three bounds lines pulled with `next(f)` from line `j` on. */
  function ReadBox(lines: seq<string>, j: nat, n: nat): (r: Result<seq<Bound>, ReadError>)
    requires j <= |lines|
    ensures r.Success? ==> |r.value| == n && j + n <= |lines|
    decreases n
  {
    if n == 0 then Success([])
    else if j == |lines| then Failure(MissingLine(j))
    else
      var parts := Tokens(lines[j]);
      if |parts| < 2 then Failure(BadBounds(j))
      else match (ParseDecimal(parts[0]), ParseDecimal(parts[1]))
        case (Some(lo), Some(hi)) =>
          (match ReadBox(lines, j + 1, n - 1)
           case Success(rest) => Success([Bound(lo, hi)] + rest)
           case Failure(e) => Failure(e))
        case _ => Failure(BadBounds(j))
  }

  /**
   * The fields of an atom line: the id (parsed, then unused), the type, the
   * position and the CSP value; `None` where a conversion raises ValueError.
   */
  function AtomFields(parts: seq<string>): Option<(int, Vec3, real)>
    requires |parts| >= AtomFieldCount
  {
    match (ParseInteger(parts[0]), ParseInteger(parts[1]), ParseDecimal(parts[2]), ParseDecimal(parts[3]),
           ParseDecimal(parts[4]), ParseDecimal(parts[10]))
    case (Some(_), Some(t), Some(x), Some(y), Some(z), Some(c)) => Some((t, Vec3(x, y, z), c))
    case _ => None
  }

  /** An atom line while `reading_atoms` holds: one more atom, or nothing when the line does not parse. */
  function AtAtom(line: string, st: Scanner): Scanner
  {
    var parts := Tokens(line);
    if |parts| < AtomFieldCount then st
    else match AtomFields(parts)
      case None => st
      case Some((t, p, c)) =>
        var read := st.read + 1;
        st.(positions := st.positions + [p], types := st.types + [t], csp := st.csp + [c], read := read,
            reading := !(st.expected.Some? && read >= st.expected.value))
  }

  /** `ITEM: TIMESTEP`: close the frame, read the new timestep and start afresh, keeping the box. */
  function AtTimestep(lines: seq<string>, i: nat, st: Scanner, targets: Option<set<int>>): (r: Result<(Scanner, nat), ReadError>)
    requires i < |lines|
    ensures r.Success? ==> r.value.1 == i + 2 <= |lines|
  {
    if i + 1 == |lines| then Failure(MissingLine(i + 1))
    else match ParseInt(lines[i + 1])
      case None => Failure(BadInteger(i + 1))
      case Some(t) =>
        Success((Scanner(Save(st, targets), Some(t), [], [], [], st.box, false, None, 0), i + 2))
  }

  /** `ITEM: NUMBER OF ATOMS`: the declared count, from the next line. */
  function AtCount(lines: seq<string>, i: nat, st: Scanner): (r: Result<(Scanner, nat), ReadError>)
    requires i < |lines|
    ensures r.Success? ==> r.value.1 == i + 2 <= |lines|
  {
    if i + 1 == |lines| then Failure(MissingLine(i + 1))
    else match ParseInt(lines[i + 1])
      case None => Failure(BadInteger(i + 1))
      case Some(n) => Success((st.(expected := Some(n)), i + 2))
  }

  /** `ITEM: BOX BOUNDS`: the next three lines become the box. */
  function AtBox(lines: seq<string>, i: nat, st: Scanner): (r: Result<(Scanner, nat), ReadError>)
    requires i < |lines|
    ensures r.Success? ==> r.value.1 == i + 4 <= |lines|
  {
    match ReadBox(lines, i + 1, 3)
    case Failure(e) => Failure(e)
    case Success(b) => Success((st.(box := Some(b)), i + 4))
  }

  /** One turn of the loop at line `i`; the markers are substring tests on the raw line, in this order. */
  function Step(lines: seq<string>, i: nat, st: Scanner, targets: Option<set<int>>): (r: Result<(Scanner, nat), ReadError>)
    requires i < |lines|
    ensures r.Success? ==> i < r.value.1 <= |lines|
  {
    var line := lines[i];
    if Contains(line, TimestepMarker) then AtTimestep(lines, i, st, targets)
    else if Contains(line, NumberOfAtomsMarker) then AtCount(lines, i, st)
    else if Contains(line, BoxBoundsMarker) then AtBox(lines, i, st)
    else if Contains(line, AtomsMarker) then Success((st.(reading := true), i + 1))
    else if st.reading then Success((AtAtom(line, st), i + 1))
    else Success((st, i + 1))
  }

  /** The reader from line `i` with variables `st` to the end of the input, where the last frame is closed. */
  function Run(lines: seq<string>, i: nat, st: Scanner, targets: Option<set<int>>): Result<map<int, Frame>, ReadError>
    requires i <= |lines|
    decreases |lines| - i
  {
    if i == |lines| then Success(Save(st, targets))
    else match Step(lines, i, st, targets)
      case Failure(e) => Failure(e)
      case Success((st', j)) => Run(lines, j, st', targets)
  }

  function ReadDumpSpec(lines: seq<string>, targets: Option<set<int>>): Result<map<int, Frame>, ReadError>
  {
    Run(lines, 0, Start, targets)
  }

  /** `read_lammps_dump`: scan every line, then close the last frame. */
  method ReadLammpsDump(lines: seq<string>, targets: Option<set<int>>) returns (r: Result<map<int, Frame>, ReadError>)
    ensures r == ReadDumpSpec(lines, targets)
  {
    var st := Start;
    var i := 0;
    while i < |lines|
      invariant i <= |lines|
      invariant Run(lines, i, st, targets) == ReadDumpSpec(lines, targets)
      decreases |lines| - i
    {
      var next := Step(lines, i, st, targets);
      if next.Failure? {
        return Failure(next.error);
      }
      st, i := next.value.0, next.value.1;
    }
    r := Success(Save(st, targets));
  }

  // ---------------------------------------------------------------------------
  // Properties of the reader
  // ---------------------------------------------------------------------------

  /** A stored frame: at least one atom, one type and one CSP value per position, and a three-axis box if any. */
  predicate FrameOk(f: Frame)
  {
    |f.positions| >= 1 && |f.types| == |f.positions| && |f.csp| == |f.positions| &&
    (f.box.Some? ==> |f.box.value| == 3)
  }

  /** The reader's invariant: the lists grow together with `atoms_read`, and what is stored is well formed and wanted. */
  predicate Consistent(st: Scanner, targets: Option<set<int>>)
  {
    |st.positions| == st.read && |st.types| == st.read && |st.csp| == st.read &&
    (st.box.Some? ==> |st.box.value| == 3) &&
    (forall t :: t in st.data ==> FrameOk(st.data[t]) && Wanted(t, targets))
  }

  /**
   * Closing a frame stores it under its timestep when it read an atom and the
   * timestep is wanted, replacing a frame stored earlier under the same
   * timestep; every other entry is left alone.
   */
  lemma SaveSpec(st: Scanner, targets: Option<set<int>>)
    ensures var stored := st.timestep.Some? && st.read > 0 && Wanted(st.timestep.value, targets);
      (stored ==> Save(st, targets).Keys == st.data.Keys + {st.timestep.value} &&
                  Save(st, targets)[st.timestep.value] == Current(st)) &&
      (!stored ==> Save(st, targets) == st.data) &&
      (forall t :: t in st.data && (!stored || t != st.timestep.value) ==> t in Save(st, targets) && Save(st, targets)[t] == st.data[t])
  {
  }

  lemma SaveConsistent(st: Scanner, targets: Option<set<int>>)
    requires Consistent(st, targets)
    ensures forall t :: t in Save(st, targets) ==> FrameOk(Save(st, targets)[t]) && Wanted(t, targets)
  {
    ReadBoxShape(st);
  }

  lemma ReadBoxShape(st: Scanner)
    requires st.box.Some? ==> |st.box.value| == 3
    ensures FrameOk(Current(st)) <==> |st.positions| >= 1 && |st.types| == |st.positions| && |st.csp| == |st.positions|
  {
  }

  lemma AtAtomConsistent(line: string, st: Scanner, targets: Option<set<int>>)
    requires Consistent(st, targets)
    ensures Consistent(AtAtom(line, st), targets)
  {
  }

  lemma StepConsistent(lines: seq<string>, i: nat, st: Scanner, targets: Option<set<int>>)
    requires i < |lines| && Consistent(st, targets)
    ensures Step(lines, i, st, targets).Success? ==> Consistent(Step(lines, i, st, targets).value.0, targets)
  {
    var line := lines[i];
    if Contains(line, TimestepMarker) {
      SaveConsistent(st, targets);
      assert Step(lines, i, st, targets) == AtTimestep(lines, i, st, targets);
    } else if Contains(line, NumberOfAtomsMarker) {
      assert Step(lines, i, st, targets) == AtCount(lines, i, st);
    } else if Contains(line, BoxBoundsMarker) {
      assert Step(lines, i, st, targets) == AtBox(lines, i, st);
    } else if Contains(line, AtomsMarker) {
    } else if st.reading {
      AtAtomConsistent(line, st, targets);
    }
  }

  lemma {:induction false} RunConsistent(lines: seq<string>, i: nat, st: Scanner, targets: Option<set<int>>)
    requires i <= |lines| && Consistent(st, targets)
    ensures Run(lines, i, st, targets).Success? ==>
      forall t :: t in Run(lines, i, st, targets).value ==> FrameOk(Run(lines, i, st, targets).value[t]) && Wanted(t, targets)
    decreases |lines| - i
  {
    if i == |lines| {
      SaveConsistent(st, targets);
    } else {
      StepConsistent(lines, i, st, targets);
      match Step(lines, i, st, targets)
      case Failure(_) =>
      case Success((st', j)) => RunConsistent(lines, j, st', targets);
    }
  }

  /**
   * Every frame `read_lammps_dump` returns has at least one atom, as many types
   * and CSP values as positions, and a three-axis box when it has one; and its
   * timestep is one of the targets when targets are given.
   */
  lemma ReadFramesWellFormed(lines: seq<string>, targets: Option<set<int>>)
    ensures ReadDumpSpec(lines, targets).Success? ==>
      forall t :: t in ReadDumpSpec(lines, targets).value ==>
        FrameOk(ReadDumpSpec(lines, targets).value[t]) && Wanted(t, targets)
  {
    RunConsistent(lines, 0, Start, targets);
  }

  /**
   * At a TIMESTEP marker the current frame is closed as `Save` says, the new
   * timestep is the integer on the next line, the lists, the flag, the declared
   * count and `atoms_read` start afresh, and the box carries over.
   */
  lemma TimestepLine(lines: seq<string>, i: nat, st: Scanner, targets: Option<set<int>>)
    requires i < |lines| && Contains(lines[i], TimestepMarker)
    ensures Step(lines, i, st, targets).Success? <==> i + 1 < |lines| && ParseInt(lines[i + 1]).Some?
    ensures Step(lines, i, st, targets).Success? ==>
      var (st', j) := Step(lines, i, st, targets).value;
      j == i + 2 && st'.data == Save(st, targets) && st'.timestep == ParseInt(lines[i + 1]) &&
      st'.positions == [] && st'.types == [] && st'.csp == [] && st'.read == 0 &&
      !st'.reading && st'.expected.None? && st'.box == st.box
  {
  }

  /**
   * A line with no marker while `reading_atoms` holds adds one atom exactly when
   * it has at least eleven tokens that convert: type from token 1, position from
   * tokens 2 to 4, CSP from token 10, each at the end of its list. Reading stops
   * once `atoms_read` reaches the declared count. Any other such line changes
   * nothing.
   */
  lemma AtomLine(lines: seq<string>, i: nat, st: Scanner, targets: Option<set<int>>)
    requires i < |lines| && st.reading && Plain(lines[i])
    ensures
      var parts := Tokens(lines[i]);
      var recorded := |parts| >= AtomFieldCount && AtomFields(parts).Some?;
      (!recorded ==> Step(lines, i, st, targets) == Success((st, i + 1))) &&
      (recorded ==>
        var (t, p, c) := AtomFields(parts).value;
        ParseInteger(parts[1]) == Some(t) && ParseDecimal(parts[10]) == Some(c) &&
        Some(p.x) == ParseDecimal(parts[2]) && Some(p.y) == ParseDecimal(parts[3]) && Some(p.z) == ParseDecimal(parts[4]) &&
        Step(lines, i, st, targets) == Success((st.(
          positions := st.positions + [p], types := st.types + [t], csp := st.csp + [c], read := st.read + 1,
          reading := !(st.expected.Some? && st.read + 1 >= st.expected.value)), i + 1)))
  {
  }

  /** A line holding none of the four markers. */
  predicate Plain(line: string)
  {
    !Contains(line, TimestepMarker) && !Contains(line, NumberOfAtomsMarker) &&
    !Contains(line, BoxBoundsMarker) && !Contains(line, AtomsMarker)
  }

  /** A line with no marker while `reading_atoms` is off is ignored. */
  lemma IgnoredLine(lines: seq<string>, i: nat, st: Scanner, targets: Option<set<int>>)
    requires i < |lines| && !st.reading && Plain(lines[i])
    ensures Step(lines, i, st, targets) == Success((st, i + 1))
    ensures Run(lines, i, st, targets) == Run(lines, i + 1, st, targets)
  {
  }


  /**
   * The soft cutoff: `atoms_read` stays within `cap`, and while atoms are being
   * read it is still below `cap`, where `cap` is at least the declared count.
   */
  predicate Capped(st: Scanner, cap: int)
  {
    st.expected.Some? && st.expected.value <= cap && st.read <= cap && (st.reading ==> st.read < cap)
  }

  /**
   * After `ITEM: ATOMS` with a declared count `n` and `r` atoms already read,
   * the cutoff holds with `cap = max(r + 1, n)`; right after a TIMESTEP,
   * `r = 0` and the cap is `max(1, n)`.
   */
  lemma CapAtAtomsMarker(lines: seq<string>, i: nat, st: Scanner, targets: Option<set<int>>)
    requires i < |lines| && st.expected.Some?
    requires !Contains(lines[i], TimestepMarker) && !Contains(lines[i], NumberOfAtomsMarker)
    requires !Contains(lines[i], BoxBoundsMarker) && Contains(lines[i], AtomsMarker)
    ensures Step(lines, i, st, targets).Success?
    ensures var cap := if st.read + 1 < st.expected.value then st.expected.value else st.read + 1;
      Capped(Step(lines, i, st, targets).value.0, cap) && Step(lines, i, st, targets).value.0.reading
  {
  }

  /** A line with no marker keeps the cutoff: no atom is read past the cap. */
  lemma CapKept(lines: seq<string>, i: nat, st: Scanner, targets: Option<set<int>>, cap: int)
    requires i < |lines| && Plain(lines[i]) && Capped(st, cap)
    ensures Step(lines, i, st, targets).Success? && Capped(Step(lines, i, st, targets).value.0, cap)
  {
    if st.reading {
      assert Step(lines, i, st, targets) == Success((AtAtom(lines[i], st), i + 1));
    } else {
      assert Step(lines, i, st, targets) == Success((st, i + 1));
    }
  }

  /**
   * Over a stretch of marker-free lines the cutoff holds throughout: the scan
   * reaches the end of the stretch without failing, with the stored frames and
   * the timestep untouched and no atom read past the cap.
   */
  lemma {:induction false} CapStretch(lines: seq<string>, i: nat, j: nat, st: Scanner, targets: Option<set<int>>, cap: int)
    requires i <= j <= |lines| && Capped(st, cap)
    requires forall k :: i <= k < j ==> Plain(lines[k])
    ensures exists st' :: (Capped(st', cap) && st'.data == st.data && st'.timestep == st.timestep &&
                           Run(lines, i, st, targets) == Run(lines, j, st', targets))
    decreases j - i
  {
    if i == j {
      assert Capped(st, cap) && Run(lines, i, st, targets) == Run(lines, j, st, targets);
    } else {
      CapKept(lines, i, st, targets, cap);
      var st2 := Step(lines, i, st, targets).value.0;
      assert Step(lines, i, st, targets).value.1 == i + 1;
      assert st2.data == st.data && st2.timestep == st.timestep;
      assert Run(lines, i, st, targets) == Run(lines, i + 1, st2, targets);
      CapStretch(lines, i + 1, j, st2, targets, cap);
    }
  }
}

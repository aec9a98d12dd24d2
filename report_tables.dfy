/**
 * scripts/generate_project_report.py, the part that turns a results markdown
 * file into report content: `read_markdown_file` groups its lines into kept
 * lines and tables, and `process_markdown_table` turns the lines of one table
 * into rows of cells and a list of ReportLab style commands. A ReportLab
 * `Table` is modelled by its data, its column widths and its style list;
 * the checks its constructor makes on that data are not modelled. The
 * regular expression that recognises the first line of a table is the
 * parameter `isTableStart`.
 */
module ReportTables {
  import opened Wrappers
  import opened Text

  // The colours of the report's palette that tables use.
  const PrimaryHex := "#1e40af"
  const SecondaryHex := "#3b82f6"
  const WarningHex := "#d97706"
  const SuccessHex := "#059669"
  const LightHex := "#f8fafc"

  /** The argument of a style command. */
  datatype Arg = Hex(code: string) | White | Keyword(name: string) | Points(size: int) | Rule(width: int, code: string)

  /** A cell position (column, row); -1 stands for the last column or row. */
  type Position = (int, int)

  /** One style command: its name, the two corners of its cell range and its argument. */
  datatype Style = Style(command: string, first: Position, last: Position, arg: Arg)

  datatype Table = Table(data: seq<seq<string>>, widths: seq<int>, styles: seq<Style>)

  /** An item of the processed content: a kept line, or a finished table. */
  datatype Block = TextLine(text: string) | TableBlock(table: Table)

  /**
   * `row[2]` on a data row with fewer than three cells raises IndexError;
   * `read_markdown_file` catches it and returns an error text instead of content.
   */
  datatype ReportError = MissingPhaseCell(row: nat)

  /** Timestep, displacement and phase column widths. */
  const ColumnWidths := [100, 160, 110]

  /** The styles every table gets: the header row, the grid, the padding, the alignment and fonts of the data rows. */
  const BaseStyles: seq<Style> := [
    Style("BACKGROUND", (0, 0), (-1, 0), Hex(PrimaryHex)),
    Style("TEXTCOLOR", (0, 0), (-1, 0), White),
    Style("ALIGN", (0, 0), (-1, 0), Keyword("CENTER")),
    Style("FONTNAME", (0, 0), (-1, 0), Keyword("Helvetica-Bold")),
    Style("FONTSIZE", (0, 0), (-1, 0), Points(12)),
    Style("BOTTOMPADDING", (0, 0), (-1, 0), Points(10)),
    Style("TOPPADDING", (0, 0), (-1, 0), Points(10)),
    Style("GRID", (0, 0), (-1, -1), Rule(1, PrimaryHex)),
    Style("LEFTPADDING", (0, 0), (-1, -1), Points(10)),
    Style("RIGHTPADDING", (0, 0), (-1, -1), Points(10)),
    Style("TOPPADDING", (0, 1), (-1, -1), Points(6)),
    Style("BOTTOMPADDING", (0, 1), (-1, -1), Points(6)),
    Style("ALIGN", (0, 1), (0, -1), Keyword("CENTER")),
    Style("ALIGN", (1, 1), (1, -1), Keyword("CENTER")),
    Style("ALIGN", (2, 1), (2, -1), Keyword("CENTER")),
    Style("FONTNAME", (0, 1), (-1, -1), Keyword("Helvetica")),
    Style("FONTSIZE", (0, 1), (-1, -1), Points(11))
  ]

  // ---------------------------------------------------------------------------
  // Rows and cells
  // ---------------------------------------------------------------------------

  /**
   * The cells of one table line: `|` trimmed off both ends, split on `|`,
   * every cell stripped, freed of `*` and stripped again; the second cell
   * also loses its spaces.
   */
  function Cells(line: string): (cells: seq<string>)
    ensures |cells| == |SplitOn(StripChars(line, {'|'}), '|')|
  {
    var raw := SplitOn(StripChars(line, {'|'}), '|');
    var trimmed := seq(|raw|, k requires 0 <= k < |raw| => Strip(Remove(Strip(raw[k]), '*')));
    if |trimmed| > 1 then trimmed[1 := Remove(trimmed[1], ' ')] else trimmed
  }

  /** A finished cell: no surrounding whitespace, no `*` and no `|`. */
  predicate CellOk(cell: string)
  {
    Strip(cell) == cell && '*' !in cell && '|' !in cell
  }

  /** Every cell of a line is finished, there is at least one, and the second has no spaces. */
  lemma CellsSpec(line: string)
    ensures var cells := Cells(line);
      |cells| >= 1 &&
      (forall k :: 0 <= k < |cells| ==> CellOk(cells[k])) &&
      (|cells| > 1 ==> ' ' !in cells[1])
  {
    var raw := SplitOn(StripChars(line, {'|'}), '|');
    forall k | 0 <= k < |raw|
      ensures CellOk(Strip(Remove(Strip(raw[k]), '*')))
    {
      var unstarred := Remove(Strip(raw[k]), '*');
      StripIdempotent(unstarred);
      StripCharsKeeps(unstarred, Whitespace, '*');
      StripCharsKeeps(raw[k], Whitespace, '|');
      RemoveKeeps(Strip(raw[k]), '*', '|');
      StripCharsKeeps(unstarred, Whitespace, '|');
    }
    if |raw| > 1 {
      var second := Strip(Remove(Strip(raw[1]), '*'));
      RemoveSpacesStripped(second);
      RemoveKeeps(second, ' ', '*');
      RemoveKeeps(second, ' ', '|');
    }
  }

  /** The table lines that are not header separators (lines starting `|-`), in order. */
  function DataLines(lines: seq<string>): (kept: seq<string>)
    ensures |kept| <= |lines|
    ensures forall k :: 0 <= k < |kept| ==> !StartsWith(kept[k], "|-")
  {
    if lines == [] then []
    else (if StartsWith(lines[0], "|-") then [] else [lines[0]]) + DataLines(lines[1..])
  }

  /** The filter decides line by line: it splits over concatenation. */
  lemma {:induction false} DataLinesAppend(a: seq<string>, b: seq<string>)
    ensures DataLines(a + b) == DataLines(a) + DataLines(b)
  {
    if a == [] {
      assert a + b == b;
    } else {
      assert (a + b)[0] == a[0];
      assert (a + b)[1..] == a[1..] + b;
      DataLinesAppend(a[1..], b);
    }
  }

  /** One row per line. */
  function Rows(lines: seq<string>): (rows: seq<seq<string>>)
    ensures |rows| == |lines|
    ensures forall k :: 0 <= k < |lines| ==> rows[k] == Cells(lines[k])
  {
    if lines == [] then [] else Rows(lines[..|lines| - 1]) + [Cells(lines[|lines| - 1])]
  }

  // ---------------------------------------------------------------------------
  // Styles
  // ---------------------------------------------------------------------------

  /** `range(1, len(data))`: the light background of every data row. */
  function Backgrounds(rows: nat): seq<Style>
  {
    seq(if rows == 0 then 0 else rows - 1, k requires 0 <= k => Style("BACKGROUND", (0, k + 1), (-1, k + 1), Hex(LightHex)))
  }

  /** The text colour of a phase cell whose phase is one of the three named ones. */
  function PhaseColour(cell: string): Option<string>
  {
    var phase := Lower(Strip(cell));
    if phase == "initial" then Some(SecondaryHex)
    else if phase == "transition" then Some(WarningHex)
    else if phase == "final" then Some(SuccessHex)
    else None
  }

  function PhaseStyle(row: nat, cell: string): seq<Style>
  {
    match PhaseColour(cell)
    case None => []
    case Some(code) => [Style("TEXTCOLOR", (2, row), (2, row), Hex(code))]
  }

  /** The phase colours of data rows 1 .. n-1, or the first data row without a phase cell. */
  function PhaseStyles(data: seq<seq<string>>, n: nat): Result<seq<Style>, ReportError>
    requires n <= |data|
  {
    if n <= 1 then Success([])
    else match PhaseStyles(data, n - 1)
      case Failure(e) => Failure(e)
      case Success(styles) =>
        if |data[n - 1]| < 3 then Failure(MissingPhaseCell(n - 1))
        else Success(styles + PhaseStyle(n - 1, data[n - 1][2]))
  }

  /**
   * The phase colours fail exactly when some data row lacks a third cell, and
   * then name the first such row.
   */
  lemma {:induction false} PhaseStylesOutcome(data: seq<seq<string>>, n: nat)
    requires n <= |data|
    ensures PhaseStyles(data, n).Success? <==> forall i :: 1 <= i < n ==> |data[i]| >= 3
    ensures PhaseStyles(data, n).Failure? ==>
      var i := PhaseStyles(data, n).error.row;
      1 <= i < n && |data[i]| < 3 && forall j :: 1 <= j < i ==> |data[j]| >= 3
  {
    if n > 1 {
      PhaseStylesOutcome(data, n - 1);
    }
  }

  /** One more data row with a phase cell adds that row's colour, if any. */
  lemma PhaseStylesStep(data: seq<seq<string>>, n: nat)
    requires 1 < n <= |data| && PhaseStyles(data, n - 1).Success? && |data[n - 1]| >= 3
    ensures PhaseStyles(data, n) == Success(PhaseStyles(data, n - 1).value + PhaseStyle(n - 1, data[n - 1][2]))
  {
  }

  /** Every phase colour is a text colour on the phase cell of a data row, the colour of that row's phase. */
  lemma {:induction false} PhaseStylesSound(data: seq<seq<string>>, n: nat)
    requires n <= |data| && forall i :: 1 <= i < n ==> |data[i]| >= 3
    ensures PhaseStyles(data, n).Success?
    ensures forall s :: s in PhaseStyles(data, n).value ==>
      s.command == "TEXTCOLOR" && 1 <= s.first.1 < n && s.first == s.last == (2, s.first.1) &&
      s.arg.Hex? && PhaseColour(data[s.first.1][2]) == Some(s.arg.code)
  {
    if n > 1 {
      PhaseStylesSound(data, n - 1);
      PhaseStylesStep(data, n);
    }
  }

  /** Every data row whose phase is initial, transition or final gets that phase's colour. */
  lemma {:induction false} PhaseStylesComplete(data: seq<seq<string>>, n: nat)
    requires n <= |data| && forall i :: 1 <= i < n ==> |data[i]| >= 3
    ensures PhaseStyles(data, n).Success?
    ensures forall i :: 1 <= i < n && PhaseColour(data[i][2]).Some? ==>
      Style("TEXTCOLOR", (2, i), (2, i), Hex(PhaseColour(data[i][2]).value)) in PhaseStyles(data, n).value
  {
    if n > 1 {
      PhaseStylesComplete(data, n - 1);
      PhaseStylesStep(data, n);
      var before := PhaseStyles(data, n - 1).value;
      var added := PhaseStyle(n - 1, data[n - 1][2]);
      forall i | 1 <= i < n && PhaseColour(data[i][2]).Some?
        ensures Style("TEXTCOLOR", (2, i), (2, i), Hex(PhaseColour(data[i][2]).value)) in before + added
      {
        if i == n - 1 {
          assert added == [Style("TEXTCOLOR", (2, i), (2, i), Hex(PhaseColour(data[i][2]).value))];
        } else {
          assert Style("TEXTCOLOR", (2, i), (2, i), Hex(PhaseColour(data[i][2]).value)) in before;
        }
      }
    }
  }

  /** Once a row has failed, later rows change nothing. */
  lemma {:induction false} PhaseStylesFailureStays(data: seq<seq<string>>, m: nat, n: nat)
    requires m <= n <= |data| && PhaseStyles(data, m).Failure?
    ensures PhaseStyles(data, n) == PhaseStyles(data, m)
    decreases n
  {
    if m < n {
      PhaseStylesFailureStays(data, m, n - 1);
    }
  }

  /** What `process_markdown_table` builds from the lines of one table. */
  function TableSpec(lines: seq<string>): Result<Table, ReportError>
  {
    var data := Rows(DataLines(lines));
    match PhaseStyles(data, |data|)
    case Failure(e) => Failure(e)
    case Success(phases) => Success(Table(data, ColumnWidths, BaseStyles + Backgrounds(|data|) + phases))
  }

  /** A built table has the fixed column widths, one row of finished cells per non-separator line, and a phase cell in every data row. */
  lemma TableRows(lines: seq<string>)
    requires TableSpec(lines).Success?
    ensures var t := TableSpec(lines).value;
      var kept := DataLines(lines);
      t.widths == ColumnWidths &&
      |t.data| == |kept| &&
      (forall k :: 0 <= k < |kept| ==> t.data[k] == Cells(kept[k])) &&
      (forall k, j :: 0 <= k < |t.data| && 0 <= j < |t.data[k]| ==> CellOk(t.data[k][j])) &&
      (forall k :: 1 <= k < |t.data| ==> |t.data[k]| >= 3)
  {
    var kept := DataLines(lines);
    var data := Rows(kept);
    PhaseStylesOutcome(data, |data|);
    forall k, j | 0 <= k < |data| && 0 <= j < |data[k]|
      ensures CellOk(data[k][j])
    {
      CellsSpec(kept[k]);
    }
  }

  /**
   * The header row of a built table gets the primary background, every data
   * row the light one, and no style added after the base ones touches the
   * header row.
   */
  lemma TableStyles(lines: seq<string>)
    requires TableSpec(lines).Success?
    ensures var t := TableSpec(lines).value;
      Style("BACKGROUND", (0, 0), (-1, 0), Hex(PrimaryHex)) in t.styles &&
      (forall k :: 1 <= k < |t.data| ==> Style("BACKGROUND", (0, k), (-1, k), Hex(LightHex)) in t.styles) &&
      (forall k :: |BaseStyles| <= k < |t.styles| ==> t.styles[k].first.1 >= 1)
  {
    var data := Rows(DataLines(lines));
    var phases := PhaseStyles(data, |data|).value;
    PhaseStylesOutcome(data, |data|);
    PhaseStylesSound(data, |data|);
    BackgroundsCover(BaseStyles, |data|, phases);
    LaterRows(BaseStyles, |data|, phases);
  }

  lemma BackgroundsCover(base: seq<Style>, rows: nat, rest: seq<Style>)
    ensures forall k :: 1 <= k < rows ==> Style("BACKGROUND", (0, k), (-1, k), Hex(LightHex)) in base + Backgrounds(rows) + rest
  {
    var styles := base + Backgrounds(rows) + rest;
    forall k | 1 <= k < rows
      ensures Style("BACKGROUND", (0, k), (-1, k), Hex(LightHex)) in styles
    {
      assert styles[|base| + k - 1] == Backgrounds(rows)[k - 1];
    }
  }

  lemma LaterRows(base: seq<Style>, rows: nat, rest: seq<Style>)
    requires forall s :: s in rest ==> s.first.1 >= 1
    ensures var styles := base + Backgrounds(rows) + rest;
      forall k :: |base| <= k < |styles| ==> styles[k].first.1 >= 1
  {
    var styles := base + Backgrounds(rows) + rest;
    forall k | |base| <= k < |styles|
      ensures styles[k].first.1 >= 1
    {
      if k >= |base| + |Backgrounds(rows)| {
        assert styles[k] == rest[k - |base| - |Backgrounds(rows)|];
      }
    }
  }

  /** The rows of a table, one line after the other. */
  method BuildRows(kept: seq<string>) returns (data: seq<seq<string>>)
    ensures data == Rows(kept)
  {
    data := [];
    for i := 0 to |kept|
      invariant data == Rows(kept[..i])
    {
      assert kept[..i + 1][..i] == kept[..i];
      data := data + [Cells(kept[i])];
    }
    assert kept[..|kept|] == kept;
  }

  /** The background loop: the same light background for odd and even data rows. */
  method AddBackgrounds(styles: seq<Style>, rows: nat) returns (result: seq<Style>)
    requires rows > 0
    ensures result == styles + Backgrounds(rows)
  {
    result := styles;
    for i := 1 to rows
      invariant result == styles + Backgrounds(i)
    {
      if i % 2 == 1 {
        result := result + [Style("BACKGROUND", (0, i), (-1, i), Hex(LightHex))];
      } else {
        result := result + [Style("BACKGROUND", (0, i), (-1, i), Hex(LightHex))];
      }
    }
  }

  /** The phase loop: a text colour per data row with a named phase, or IndexError. */
  method AddPhaseStyles(styles: seq<Style>, data: seq<seq<string>>) returns (r: Result<seq<Style>, ReportError>)
    requires |data| > 0
    ensures r == match PhaseStyles(data, |data|)
      case Failure(e) => Failure(e)
      case Success(phases) => Success(styles + phases)
  {
    var result := styles;
    for i := 1 to |data|
      invariant PhaseStyles(data, i).Success?
      invariant result == styles + PhaseStyles(data, i).value
    {
      if |data[i]| < 3 {
        assert PhaseStyles(data, i + 1) == Failure(MissingPhaseCell(i));
        PhaseStylesFailureStays(data, i + 1, |data|);
        return Failure(MissingPhaseCell(i));
      }
      PhaseStylesStep(data, i + 1);
      var phase := Lower(Strip(data[i][2]));
      if phase == "initial" {
        result := result + [Style("TEXTCOLOR", (2, i), (2, i), Hex(SecondaryHex))];
      } else if phase == "transition" {
        result := result + [Style("TEXTCOLOR", (2, i), (2, i), Hex(WarningHex))];
      } else if phase == "final" {
        result := result + [Style("TEXTCOLOR", (2, i), (2, i), Hex(SuccessHex))];
      }
    }
    r := Success(result);
  }

  /** `process_markdown_table`. */
  method ProcessMarkdownTable(tableLines: seq<string>) returns (r: Result<Table, ReportError>)
    ensures r == TableSpec(tableLines)
  {
    var data := BuildRows(DataLines(tableLines));
    var styles := BaseStyles;
    if |data| == 0 {
      assert PhaseStyles(data, 0) == Success([]);
      assert styles == BaseStyles + Backgrounds(0) + [];
    } else {
      styles := AddBackgrounds(styles, |data|);
      var colored := AddPhaseStyles(styles, data);
      if colored.Failure? {
        return Failure(colored.error);
      }
      styles := colored.value;
    }
    r := Success(Table(data, ColumnWidths, styles));
  }

  // ---------------------------------------------------------------------------
  // Grouping lines into content
  // ---------------------------------------------------------------------------

  /** The state of the grouping loop: the content so far, the lines of the open table and `in_table`. */
  datatype Grouping = Grouping(content: seq<Block>, table: seq<string>, inTable: bool)

  const Start := Grouping([], [], false)

  predicate Blank(line: string)
  {
    Strip(line) == []
  }

  /** The content after `line` is seen outside a table: kept when non-blank, dropped when blank. */
  function Keep(content: seq<Block>, line: string): seq<Block>
  {
    if Blank(line) then content else content + [TextLine(line)]
  }

  /** Closing the open table: it becomes a block only when it has at least two lines. */
  function Close(g: Grouping): Result<seq<Block>, ReportError>
  {
    if |g.table| > 1 then
      match TableSpec(g.table)
      case Failure(e) => Failure(e)
      case Success(t) => Success(g.content + [TableBlock(t)])
    else Success(g.content)
  }

  /** One pass of the loop of `read_markdown_file`. */
  function Group(g: Grouping, line: string, isTableStart: string -> bool): Result<Grouping, ReportError>
  {
    if isTableStart(line) && '|' in line && !g.inTable then Success(Grouping(g.content, [line], true))
    else if g.inTable then
      if '|' in line then Success(g.(table := g.table + [line]))
      else match Close(g)
        case Failure(e) => Failure(e)
        case Success(content) => Success(Grouping(Keep(content, line), [], false))
    else Success(g.(content := Keep(g.content, line)))
  }

  /** The loop from line `i` on. */
  function GroupRun(lines: seq<string>, i: nat, g: Grouping, isTableStart: string -> bool): Result<Grouping, ReportError>
    requires i <= |lines|
    decreases |lines| - i
  {
    if i == |lines| then Success(g)
    else match Group(g, lines[i], isTableStart)
      case Failure(e) => Failure(e)
      case Success(next) => GroupRun(lines, i + 1, next, isTableStart)
  }

  /** After the last line, a table still open is emitted when it has at least two lines. */
  function Finish(g: Grouping): Result<seq<Block>, ReportError>
  {
    if g.inTable then Close(g) else Success(g.content)
  }

  /** The lines grouped: the content with every `*` removed, split at newlines. */
  function MarkdownLines(content: string): seq<string>
  {
    SplitOn(Remove(content, '*'), '\n')
  }

  /** What `read_markdown_file` returns for the text it read. */
  function ReadMarkdownSpec(content: string, isTableStart: string -> bool): Result<seq<Block>, ReportError>
  {
    match GroupRun(MarkdownLines(content), 0, Start, isTableStart)
    case Failure(e) => Failure(e)
    case Success(g) => Finish(g)
  }

  /** `read_markdown_file`, from the text read on. */
  method ReadMarkdownFile(content: string, isTableStart: string -> bool) returns (r: Result<seq<Block>, ReportError>)
    ensures r == ReadMarkdownSpec(content, isTableStart)
  {
    var lines := SplitOn(Remove(content, '*'), '\n');
    var processed: seq<Block> := [];
    var tableLines: seq<string> := [];
    var inTable := false;
    for i := 0 to |lines|
      invariant GroupRun(lines, i, Grouping(processed, tableLines, inTable), isTableStart)
        == GroupRun(lines, 0, Start, isTableStart)
    {
      var line := lines[i];
      if isTableStart(line) && '|' in line && !inTable {
        inTable := true;
        tableLines := [line];
      } else if inTable {
        if '|' in line {
          tableLines := tableLines + [line];
        } else {
          if |tableLines| > 1 {
            var t := ProcessMarkdownTable(tableLines);
            if t.Failure? {
              return Failure(t.error);
            }
            processed := processed + [TableBlock(t.value)];
          }
          tableLines := [];
          inTable := false;
          if !Blank(line) {
            processed := processed + [TextLine(line)];
          }
        }
      } else {
        if !Blank(line) {
          processed := processed + [TextLine(line)];
        }
      }
    }
    if inTable && |tableLines| > 1 {
      var t := ProcessMarkdownTable(tableLines);
      if t.Failure? {
        return Failure(t.error);
      }
      processed := processed + [TableBlock(t.value)];
    }
    r := Success(processed);
  }

  // ---------------------------------------------------------------------------
  // Properties of the grouping
  // ---------------------------------------------------------------------------

  /** The kept lines of a stretch outside any table, in order. */
  function TextBlocks(lines: seq<string>): (blocks: seq<Block>)
    ensures |blocks| <= |lines|
    ensures forall k :: 0 <= k < |blocks| ==> blocks[k].TextLine? && !Blank(blocks[k].text)
  {
    if lines == [] then [] else Keep([], lines[0]) + TextBlocks(lines[1..])
  }

  lemma Associative(a: seq<Block>, b: seq<Block>, c: seq<Block>)
    ensures a + b + c == a + (b + c)
  {
  }

  /** Outside a table, a line that does not open one is kept or dropped. */
  lemma OutsideStep(g: Grouping, line: string, isTableStart: string -> bool)
    requires !g.inTable && !(isTableStart(line) && '|' in line)
    ensures Group(g, line, isTableStart) == Success(g.(content := Keep(g.content, line)))
  {
  }

  /**
   * Outside a table, a stretch of lines none of which opens one keeps its
   * non-blank lines as they are, in order, and drops the blank ones.
   */
  lemma {:induction false} TextStretch(lines: seq<string>, i: nat, j: nat, g: Grouping, isTableStart: string -> bool)
    requires i <= j <= |lines| && !g.inTable
    requires forall k :: i <= k < j ==> !(isTableStart(lines[k]) && '|' in lines[k])
    ensures GroupRun(lines, i, g, isTableStart)
      == GroupRun(lines, j, g.(content := g.content + TextBlocks(lines[i..j])), isTableStart)
    decreases j - i
  {
    if i == j {
      assert g.content + TextBlocks(lines[i..j]) == g.content;
    } else {
      var next := g.(content := Keep(g.content, lines[i]));
      OutsideStep(g, lines[i], isTableStart);
      TextStretch(lines, i + 1, j, next, isTableStart);
      assert lines[i..j][1..] == lines[i + 1..j];
      assert TextBlocks(lines[i..j]) == Keep([], lines[i]) + TextBlocks(lines[i + 1..j]);
      assert Keep(g.content, lines[i]) == g.content + Keep([], lines[i]);
      Associative(g.content, Keep([], lines[i]), TextBlocks(lines[i + 1..j]));
    }
  }

  /** Inside a table, every following line that contains `|` joins it. */
  lemma {:induction false} TableStretch(lines: seq<string>, i: nat, j: nat, g: Grouping, isTableStart: string -> bool)
    requires i <= j <= |lines| && g.inTable
    requires forall k :: i <= k < j ==> '|' in lines[k]
    ensures GroupRun(lines, i, g, isTableStart) == GroupRun(lines, j, g.(table := g.table + lines[i..j]), isTableStart)
    decreases j - i
  {
    if i == j {
      assert g.table + lines[i..j] == g.table;
    } else {
      var next := g.(table := g.table + [lines[i]]);
      assert Group(g, lines[i], isTableStart) == Success(next);
      TableStretch(lines, i + 1, j, next, isTableStart);
      assert next.table + lines[i + 1..j] == g.table + lines[i..j];
    }
  }

  /**
   * A table opened at line `i` takes every following line with `|` and closes
   * at the first line `j` without one: it is emitted only with at least two
   * lines, its rows can abort the whole read, and line `j` is then kept unless
   * it is blank.
   */
  lemma TableSpan(lines: seq<string>, i: nat, j: nat, g: Grouping, isTableStart: string -> bool)
    requires i < j < |lines| && !g.inTable
    requires isTableStart(lines[i]) && '|' in lines[i]
    requires forall k :: i < k < j ==> '|' in lines[k]
    requires '|' !in lines[j]
    ensures GroupRun(lines, i, g, isTableStart) ==
      match Close(Grouping(g.content, lines[i..j], true))
      case Failure(e) => Failure(e)
      case Success(content) => GroupRun(lines, j + 1, Grouping(Keep(content, lines[j]), [], false), isTableStart)
  {
    var started := Grouping(g.content, [lines[i]], true);
    assert Group(g, lines[i], isTableStart) == Success(started);
    TableStretch(lines, i + 1, j, started, isTableStart);
    assert [lines[i]] + lines[i + 1..j] == lines[i..j];
  }

  /** A table still open at the end of the file is emitted when it has at least two lines. */
  lemma TableAtEnd(lines: seq<string>, i: nat, g: Grouping, isTableStart: string -> bool)
    requires i < |lines| && !g.inTable
    requires isTableStart(lines[i]) && '|' in lines[i]
    requires forall k :: i < k < |lines| ==> '|' in lines[k]
    ensures GroupRun(lines, i, g, isTableStart) == Success(Grouping(g.content, lines[i..], true))
  {
    var started := Grouping(g.content, [lines[i]], true);
    assert Group(g, lines[i], isTableStart) == Success(started);
    TableStretch(lines, i + 1, |lines|, started, isTableStart);
    assert [lines[i]] + lines[i + 1..|lines|] == lines[i..];
  }

  /** A file without `|` has no tables: its content is its non-blank lines, in order. */
  lemma NoTables(content: string, isTableStart: string -> bool)
    requires '|' !in content
    ensures ReadMarkdownSpec(content, isTableStart) == Success(TextBlocks(MarkdownLines(content)))
  {
    var lines := MarkdownLines(content);
    RemoveKeeps(content, '*', '|');
    SplitOnKeeps(Remove(content, '*'), '\n', '|');
    TextStretch(lines, 0, |lines|, Start, isTableStart);
    assert lines[0..|lines|] == lines;
    assert Start.content + TextBlocks(lines) == TextBlocks(lines);
    assert GroupRun(lines, 0, Start, isTableStart) == Success(Start.(content := TextBlocks(lines)));
  }

  /** The grouping state is consistent: `in_table` holds exactly when table lines are held, and they all contain `|`. */
  predicate WellFormed(g: Grouping)
  {
    (g.inTable <==> g.table != []) && forall k :: 0 <= k < |g.table| ==> '|' in g.table[k]
  }

  /** Kept lines are non-blank and free of `*`. */
  predicate TextOk(content: seq<Block>)
  {
    forall k :: 0 <= k < |content| && content[k].TextLine? ==> !Blank(content[k].text) && '*' !in content[k].text
  }

  /** Keeping a line only appends, and appends a non-blank line. */
  lemma KeepOk(content: seq<Block>, line: string)
    requires TextOk(content) && '*' !in line
    ensures TextOk(Keep(content, line)) && content <= Keep(content, line)
  {
  }

  /** Closing a table only appends, and appends no kept line. */
  lemma CloseOk(g: Grouping)
    requires TextOk(g.content)
    ensures Close(g).Success? ==> TextOk(Close(g).value) && g.content <= Close(g).value
  {
    if |g.table| > 1 && TableSpec(g.table).Success? {
      assert Close(g).value == g.content + [TableBlock(TableSpec(g.table).value)];
    }
  }

  /** One pass keeps the state consistent and only appends to the content. */
  lemma GroupInvariant(g: Grouping, line: string, isTableStart: string -> bool)
    requires WellFormed(g) && TextOk(g.content) && '*' !in line
    ensures Group(g, line, isTableStart).Success? ==>
      var h := Group(g, line, isTableStart).value;
      WellFormed(h) && TextOk(h.content) && g.content <= h.content
  {
    if isTableStart(line) && '|' in line && !g.inTable {
      assert Group(g, line, isTableStart).value == Grouping(g.content, [line], true);
    } else if g.inTable {
      if '|' !in line && Close(g).Success? {
        var content := Close(g).value;
        CloseOk(g);
        KeepOk(content, line);
        assert Group(g, line, isTableStart).value == Grouping(Keep(content, line), [], false);
      }
    } else {
      KeepOk(g.content, line);
    }
  }

  /** The loop keeps the state consistent and only appends to the content. */
  lemma {:induction false} RunInvariant(lines: seq<string>, i: nat, g: Grouping, isTableStart: string -> bool)
    requires i <= |lines| && WellFormed(g) && TextOk(g.content)
    requires forall k :: i <= k < |lines| ==> '*' !in lines[k]
    ensures GroupRun(lines, i, g, isTableStart).Success? ==>
      var h := GroupRun(lines, i, g, isTableStart).value;
      WellFormed(h) && TextOk(h.content) && g.content <= h.content
    decreases |lines| - i
  {
    if i < |lines| {
      GroupInvariant(g, lines[i], isTableStart);
      if Group(g, lines[i], isTableStart).Success? {
        RunInvariant(lines, i + 1, Group(g, lines[i], isTableStart).value, isTableStart);
      }
    }
  }

  /** Every line `read_markdown_file` keeps outside tables is non-blank and free of `*`. */
  lemma ReadMarkdownClean(content: string, isTableStart: string -> bool)
    ensures ReadMarkdownSpec(content, isTableStart).Success? ==> TextOk(ReadMarkdownSpec(content, isTableStart).value)
  {
    var lines := MarkdownLines(content);
    SplitOnKeeps(Remove(content, '*'), '\n', '*');
    RunInvariant(lines, 0, Start, isTableStart);
    var run := GroupRun(lines, 0, Start, isTableStart);
    if run.Success? && run.value.inTable && |run.value.table| > 1 && TableSpec(run.value.table).Success? {
      assert Close(run.value).value == run.value.content + [TableBlock(TableSpec(run.value.table).value)];
    }
  }
}

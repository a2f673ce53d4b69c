/** The generic data table: the name of the CSV file its export button
    writes, and the header and body it renders from a column list and a
    list of records. */
module DataTable {
  import opened Ascii
  import opened Strings

  const ExportSuffix: string := "_export"
  const NoResults: string := "No results."

  // ---------------------------------------------------------------------
  // Export file name

  /** `s` with its leading whitespace removed; what is left is a suffix of `s`. */
  function DropWhitespace(s: string): (r: string)
    ensures |r| <= |s| && r == s[|s| - |r|..]
    ensures r == [] || !IsWhitespace(r[0])
  {
    if |s| > 0 && IsWhitespace(s[0]) then DropWhitespace(s[1..]) else s
  }

  /** `s.replace(/\s+/g, '_')`: every maximal run of whitespace, scanned
      from the left, becomes one `_`. */
  function CollapseWhitespace(s: string): (r: string)
    ensures |r| <= |s|
    ensures forall i :: 0 <= i < |r| ==> !IsWhitespace(r[i])
    ensures forall i :: 0 <= i < |r| ==> r[i] == '_' || r[i] in s
    decreases |s|
  {
    if |s| == 0 then []
    else if IsWhitespace(s[0]) then "_" + CollapseWhitespace(DropWhitespace(s[1..]))
    else [s[0]] + CollapseWhitespace(s[1..])
  }

  /** `` `${tableName.toLowerCase().replace(/\s+/g, '_')}_export` ``. */
  function ExportFileName(tableName: string): (name: string)
    ensures |name| >= |ExportSuffix| && name[|name| - |ExportSuffix|..] == ExportSuffix
    ensures forall i :: 0 <= i < |name| ==> !IsWhitespace(name[i]) && !IsUpper(name[i])
  {
    var lowered := LowerString(tableName);
    var core := CollapseWhitespace(lowered);
    assert forall i :: 0 <= i < |core| ==> !IsUpper(core[i]) by {
      forall i | 0 <= i < |core| ensures !IsUpper(core[i]) {
        if core[i] != '_' {
          var j :| 0 <= j < |lowered| && lowered[j] == core[i];
        }
      }
    }
    core + ExportSuffix
  }

  /** A reference for `CollapseWhitespace`, one character at a time: a
      whitespace character gives `_` when it starts a run and nothing when
      it continues one; every other character is copied. */
  function RunScan(s: string, inRun: bool): string
  {
    if |s| == 0 then [] else Emit(s[0], inRun) + RunScan(s[1..], IsWhitespace(s[0]))
  }

  /** What one character contributes to `RunScan`. */
  function Emit(c: char, inRun: bool): string
  {
    if !IsWhitespace(c) then [c] else if inRun then [] else "_"
  }

  /** The characters that are neither whitespace nor `_`, in order. */
  function Visible(s: string): string
  {
    if |s| == 0 then []
    else (if IsWhitespace(s[0]) || s[0] == '_' then [] else [s[0]]) + Visible(s[1..])
  }

  predicate AllWhitespace(s: string) { forall i :: 0 <= i < |s| ==> IsWhitespace(s[i]) }

  predicate NoWhitespace(s: string) { forall i :: 0 <= i < |s| ==> !IsWhitespace(s[i]) }

  lemma {:induction false} RunScanSkip(s: string)
    ensures RunScan(s, true) == RunScan(DropWhitespace(s), false)
  {
    if |s| > 0 && IsWhitespace(s[0]) {
      RunScanSkip(s[1..]);
    }
  }

  /** Replacing whitespace runs from the left agrees with the one-character scan. */
  lemma {:induction false} CollapseIsRunScan(s: string)
    ensures CollapseWhitespace(s) == RunScan(s, false)
    decreases |s|
  {
    if |s| > 0 {
      if IsWhitespace(s[0]) {
        RunScanSkip(s[1..]);
        CollapseIsRunScan(DropWhitespace(s[1..]));
      } else {
        CollapseIsRunScan(s[1..]);
      }
    }
  }

  /** Where the scan of `u + v` picks up after `u`. */
  function RunAfter(u: string, inRun: bool): bool
  {
    if |u| == 0 then inRun else IsWhitespace(u[|u| - 1])
  }

  lemma {:induction false} RunScanAppend(u: string, v: string, inRun: bool)
    ensures RunScan(u + v, inRun) == RunScan(u, inRun) + RunScan(v, RunAfter(u, inRun))
  {
    if |u| == 0 {
      assert u + v == v;
    } else {
      var next := IsWhitespace(u[0]);
      assert (u + v)[0] == u[0] && (u + v)[1..] == u[1..] + v;
      calc {
        RunScan(u + v, inRun);
        Emit(u[0], inRun) + RunScan(u[1..] + v, next);
        { RunScanAppend(u[1..], v, next); }
        Emit(u[0], inRun) + (RunScan(u[1..], next) + RunScan(v, RunAfter(u[1..], next)));
      }
      if |u| > 1 {
        assert u[1..][|u| - 2] == u[|u| - 1];
      }
      assert RunAfter(u[1..], next) == RunAfter(u, inRun);
    }
  }

  lemma {:induction false} RunScanWhitespace(g: string, inRun: bool)
    requires AllWhitespace(g)
    ensures RunScan(g, inRun) == if |g| == 0 || inRun then [] else "_"
  {
    if |g| > 0 {
      RunScanWhitespace(g[1..], true);
    }
  }

  /** A scan that starts in a run and meets a non-whitespace character (or
      the end) behaves as if it had not been in a run. */
  lemma RunScanLeavesRun(b: string)
    requires b == [] || !IsWhitespace(b[0])
    ensures RunScan(b, true) == RunScan(b, false)
  {
  }

  lemma RunScanGap(gap: string, b: string)
    requires gap != [] && AllWhitespace(gap)
    requires b == [] || !IsWhitespace(b[0])
    ensures RunScan(gap + b, false) == "_" + RunScan(b, false)
  {
    RunScanAppend(gap, b, false);
    RunScanWhitespace(gap, false);
    RunScanLeavesRun(b);
  }

  lemma RunScanRun(a: string, gap: string, b: string)
    requires gap != [] && AllWhitespace(gap)
    requires a == [] || !IsWhitespace(a[|a| - 1])
    requires b == [] || !IsWhitespace(b[0])
    ensures RunScan(a + gap + b, false) == RunScan(a, false) + "_" + RunScan(b, false)
  {
    assert a + gap + b == a + (gap + b);
    RunScanAppend(a, gap + b, false);
    RunScanGap(gap, b);
  }

  /** Each maximal run of whitespace between `a` and `b` becomes exactly one `_`. */
  lemma CollapseRun(a: string, gap: string, b: string)
    requires gap != [] && AllWhitespace(gap)
    requires a == [] || !IsWhitespace(a[|a| - 1])
    requires b == [] || !IsWhitespace(b[0])
    ensures CollapseWhitespace(a + gap + b) == CollapseWhitespace(a) + "_" + CollapseWhitespace(b)
  {
    RunScanRun(a, gap, b);
    CollapseIsRunScan(a + gap + b);
    CollapseIsRunScan(a);
    CollapseIsRunScan(b);
  }

  /** Text without whitespace is left as it is; in particular collapsing twice
      is collapsing once. */
  lemma {:induction false} CollapseNoWhitespace(s: string)
    requires NoWhitespace(s)
    ensures CollapseWhitespace(s) == s
  {
    if |s| > 0 {
      CollapseNoWhitespace(s[1..]);
      assert [s[0]] + s[1..] == s;
    }
  }

  lemma CollapseIdempotent(s: string)
    ensures CollapseWhitespace(CollapseWhitespace(s)) == CollapseWhitespace(s)
  {
    CollapseNoWhitespace(CollapseWhitespace(s));
  }

  lemma {:induction false} VisibleDropWhitespace(s: string)
    ensures Visible(DropWhitespace(s)) == Visible(s)
  {
    if |s| > 0 && IsWhitespace(s[0]) {
      VisibleDropWhitespace(s[1..]);
    }
  }

  /** Collapsing adds nothing but `_` and keeps every other non-whitespace
      character, in order. */
  lemma {:induction false} CollapseKeepsVisible(s: string)
    ensures Visible(CollapseWhitespace(s)) == Visible(s)
    decreases |s|
  {
    if |s| > 0 {
      if IsWhitespace(s[0]) {
        VisibleDropWhitespace(s[1..]);
        CollapseKeepsVisible(DropWhitespace(s[1..]));
        assert ("_" + CollapseWhitespace(DropWhitespace(s[1..])))[1..] == CollapseWhitespace(DropWhitespace(s[1..]));
      } else {
        CollapseKeepsVisible(s[1..]);
        assert ([s[0]] + CollapseWhitespace(s[1..]))[1..] == CollapseWhitespace(s[1..]);
      }
    }
  }

  lemma {:induction false} VisibleLower(s: string)
    ensures Visible(LowerString(s)) == LowerString(Visible(s))
  {
    if |s| > 0 {
      VisibleLower(s[1..]);
      CaseKeepsWhitespace(s[0]);
      assert LowerString(s)[1..] == LowerString(s[1..]);
      var rest := Visible(s[1..]);
      if !IsWhitespace(s[0]) && s[0] != '_' {
        assert LowerString([s[0]] + rest) == [ToLower(s[0])] + LowerString(rest);
      }
    }
  }

  /** A collapsed text that came from input ending in whitespace ends in `_`. */
  lemma {:induction false} CollapseTrailing(s: string)
    requires |s| > 0 && IsWhitespace(s[|s| - 1])
    ensures |CollapseWhitespace(s)| > 0 && CollapseWhitespace(s)[|CollapseWhitespace(s)| - 1] == '_'
    decreases |s|
  {
    if IsWhitespace(s[0]) {
      var rest := DropWhitespace(s[1..]);
      if |rest| > 0 {
        assert rest[|rest| - 1] == s[|s| - 1];
        CollapseTrailing(rest);
      }
    } else {
      CollapseTrailing(s[1..]);
    }
  }

  /** The file name is the lower-cased visible text of the table name, with
      a single `_` for each maximal whitespace run, then `_export`: the
      visible characters come through in order and lower-cased, and nothing
      else but `_` is added before the suffix. */
  lemma ExportFileNameContents(tableName: string)
    ensures var name := ExportFileName(tableName);
      Visible(name[..|name| - |ExportSuffix|]) == LowerString(Visible(tableName))
  {
    var name := ExportFileName(tableName);
    var core := CollapseWhitespace(LowerString(tableName));
    assert name[..|name| - |ExportSuffix|] == core;
    CollapseKeepsVisible(LowerString(tableName));
    VisibleLower(tableName);
  }

  /** Edge cases of the export name: an empty table name gives "_export", and
      leading or trailing whitespace is kept as a leading or trailing `_`
      rather than trimmed. */
  lemma ExportFileNameEdges(tableName: string)
    ensures tableName == [] ==> ExportFileName(tableName) == ExportSuffix
    ensures |tableName| > 0 && IsWhitespace(tableName[0]) ==> ExportFileName(tableName)[0] == '_'
    ensures |tableName| > 0 && IsWhitespace(tableName[|tableName| - 1]) ==>
      |ExportFileName(tableName)| > |ExportSuffix| &&
      ExportFileName(tableName)[|ExportFileName(tableName)| - |ExportSuffix| - 1] == '_'
  {
    var lowered := LowerString(tableName);
    if |tableName| > 0 {
      CaseKeepsWhitespace(tableName[0]);
      CaseKeepsWhitespace(tableName[|tableName| - 1]);
      if IsWhitespace(tableName[|tableName| - 1]) {
        CollapseTrailing(lowered);
      }
    }
  }

  /** The export name for a table named after words separated by single
      spaces is those words, lower-cased, joined with `_`. */
  lemma {:induction false} ExportFileNameOfWords(words: seq<string>)
    requires forall i :: 0 <= i < |words| ==> words[i] != [] && NoWhitespace(words[i])
    ensures CollapseWhitespace(Join(words, " ")) == Join(words, "_")
  {
    if |words| == 1 {
      CollapseNoWhitespace(words[0]);
    } else if |words| > 1 {
      ExportFileNameOfWords(words[1..]);
      var rest := Join(words[1..], " ");
      CollapseNoWhitespace(words[0]);
      assert rest[0] == words[1][0];
      CollapseRun(words[0], " ", rest);
    }
  }

  // ---------------------------------------------------------------------
  // Header and body

  /** A column shows `header` and reads the record field `accessorKey`. */
  datatype Column = Column(header: string, accessorKey: string)

  /** A record, as the strings `String(row[key])` of its fields. */
  type Row = map<string, string>

  datatype Cell = Cell(text: string, colSpan: nat)

  /** `String(row[column.accessorKey])`; a missing field reads as "undefined". */
  function CellText(row: Row, key: string): string
  {
    if key in row then row[key] else "undefined"
  }

  /** `columns.map(column => column.header)`. */
  function HeaderCells(columns: seq<Column>): (cells: seq<string>)
    ensures |cells| == |columns|
    ensures forall i :: 0 <= i < |columns| ==> cells[i] == columns[i].header
  {
    if |columns| == 0 then [] else [columns[0].header] + HeaderCells(columns[1..])
  }

  /** One data row: a cell per column, in column order. */
  function RowCells(row: Row, columns: seq<Column>): (cells: seq<Cell>)
    ensures |cells| == |columns|
    ensures forall j :: 0 <= j < |columns| ==> cells[j] == Cell(CellText(row, columns[j].accessorKey), 1)
  {
    if |columns| == 0 then [] else [Cell(CellText(row, columns[0].accessorKey), 1)] + RowCells(row, columns[1..])
  }

  /** `data.map(row => ...)`: one row per record, in data order. */
  function DataRows(data: seq<Row>, columns: seq<Column>): (rows: seq<seq<Cell>>)
    ensures |rows| == |data|
    ensures forall i :: 0 <= i < |data| ==> rows[i] == RowCells(data[i], columns)
  {
    if |data| == 0 then [] else [RowCells(data[0], columns)] + DataRows(data[1..], columns)
  }

  /** The table body: the data rows, or one "No results." cell spanning
      every column when there is no data. */
  function BodyRows(data: seq<Row>, columns: seq<Column>): (rows: seq<seq<Cell>>)
    ensures |data| > 0 ==> rows == DataRows(data, columns)
    ensures |data| == 0 ==> rows == [[Cell(NoResults, |columns|)]]
  {
    if |data| > 0 then DataRows(data, columns) else [[Cell(NoResults, |columns|)]]
  }

  /** The columns a row of cells covers. */
  function Width(cells: seq<Cell>): nat
  {
    if |cells| == 0 then 0 else cells[0].colSpan + Width(cells[1..])
  }

  lemma {:induction false} RowCellsWidth(row: Row, columns: seq<Column>)
    ensures Width(RowCells(row, columns)) == |columns|
  {
    if |columns| > 0 {
      RowCellsWidth(row, columns[1..]);
      assert RowCells(row, columns)[1..] == RowCells(row, columns[1..]);
    }
  }

  /** Every body row, with or without data, covers exactly the header's columns. */
  lemma BodyMatchesHeader(data: seq<Row>, columns: seq<Column>)
    ensures |BodyRows(data, columns)| >= 1
    ensures forall r :: 0 <= r < |BodyRows(data, columns)| ==>
      Width(BodyRows(data, columns)[r]) == |HeaderCells(columns)|
  {
    forall r | 0 <= r < |BodyRows(data, columns)|
      ensures Width(BodyRows(data, columns)[r]) == |columns|
    {
      if |data| > 0 {
        RowCellsWidth(data[r], columns);
      } else {
        assert Width([Cell(NoResults, |columns|)]) == |columns| + Width([]);
      }
    }
  }

  /** Rendering more records appends their rows after the earlier ones. */
  lemma {:induction false} DataRowsAppend(a: seq<Row>, b: seq<Row>, columns: seq<Column>)
    ensures DataRows(a + b, columns) == DataRows(a, columns) + DataRows(b, columns)
  {
    var left := DataRows(a + b, columns);
    var right := DataRows(a, columns) + DataRows(b, columns);
    assert |left| == |right|;
    forall i | 0 <= i < |left| ensures left[i] == right[i] {
      if i < |a| {
        assert (a + b)[i] == a[i];
      } else {
        assert (a + b)[i] == b[i - |a|];
      }
    }
  }

  /** What the component shows and exports. */
  datatype View = View(exportName: string, header: seq<string>, body: seq<seq<Cell>>)

  function Render(columns: seq<Column>, data: seq<Row>, tableName: string): View
  {
    View(ExportFileName(tableName), HeaderCells(columns), BodyRows(data, columns))
  }
}

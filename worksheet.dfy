/**
 * Spreadsheet worksheets as the Excel codec writes and reads them: a map from
 * (row, column) to the value written there, and the used range (every row
 * and column up to the last cell written). Writing follows xlsxwriter's
 * `write`, `write_row`, `write_column` and `merge_range`; reading follows
 * `pandas.read_excel` with its openpyxl reader, which drops the trailing
 * rows and columns of blank cells and reads a blank cell, an empty string or
 * an error cell as NaN. Formatting, widths and heights are not modelled.
 */
module Worksheet {
  import opened PyValues
  import opened Tables

  datatype Grid = Grid(nrows: nat, ncols: nat, cells: map<(nat, nat), Cell>)

  const Empty: Grid := Grid(0, 0, map[])

  function Max(a: nat, b: nat): nat {
    if a < b then b else a
  }

  /** The value written at (r, c), if any. */
  function At(g: Grid, r: nat, c: nat): Option<Cell> {
    if (r, c) in g.cells then Some(g.cells[(r, c)]) else None
  }

  /** `worksheet.write(r, c, v)`; `Null` is a blank cell. */
  function Put(g: Grid, r: nat, c: nat, v: Cell): (h: Grid)
    ensures h.nrows == Max(g.nrows, r + 1) && h.ncols == Max(g.ncols, c + 1)
    ensures forall i, j :: At(h, i, j) == if i == r && j == c then Some(v) else At(g, i, j)
  {
    Grid(Max(g.nrows, r + 1), Max(g.ncols, c + 1), g.cells[(r, c) := v])
  }

  /** `worksheet.write_column(r, c, vs)`: vs[k] goes to (r + k, c). */
  function PutColumn(g: Grid, r: nat, c: nat, vs: seq<Cell>): (h: Grid)
    ensures h.nrows == if vs == [] then g.nrows else Max(g.nrows, r + |vs|)
    ensures h.ncols == if vs == [] then g.ncols else Max(g.ncols, c + 1)
  {
    PutColumnPrefix(g, r, c, vs, |vs|)
  }

  /** The first n values of vs written down column c from row r. */
  function PutColumnPrefix(g: Grid, r: nat, c: nat, vs: seq<Cell>, n: nat): (h: Grid)
    requires n <= |vs|
    ensures h.nrows == if n == 0 then g.nrows else Max(g.nrows, r + n)
    ensures h.ncols == if n == 0 then g.ncols else Max(g.ncols, c + 1)
  {
    if n == 0 then g else Put(PutColumnPrefix(g, r, c, vs, n - 1), r + n - 1, c, vs[n - 1])
  }

  /** `worksheet.write_row(r, c, vs)`: vs[k] goes to (r, c + k). */
  function PutRow(g: Grid, r: nat, c: nat, vs: seq<Cell>): (h: Grid)
    ensures h.nrows == if vs == [] then g.nrows else Max(g.nrows, r + 1)
    ensures h.ncols == if vs == [] then g.ncols else Max(g.ncols, c + |vs|)
  {
    PutRowPrefix(g, r, c, vs, |vs|)
  }

  /** The first n values of vs written along row r from column c. */
  function PutRowPrefix(g: Grid, r: nat, c: nat, vs: seq<Cell>, n: nat): (h: Grid)
    requires n <= |vs|
    ensures h.nrows == if n == 0 then g.nrows else Max(g.nrows, r + 1)
    ensures h.ncols == if n == 0 then g.ncols else Max(g.ncols, c + n)
  {
    if n == 0 then g else Put(PutRowPrefix(g, r, c, vs, n - 1), r, c + n - 1, vs[n - 1])
  }

  lemma PutColumnAt(g: Grid, r: nat, c: nat, vs: seq<Cell>, i: nat, j: nat)
    ensures At(PutColumn(g, r, c, vs), i, j) == if j == c && r <= i < r + |vs| then Some(vs[i - r]) else At(g, i, j)
  {
    PutColumnPrefixAt(g, r, c, vs, |vs|, i, j);
  }

  lemma {:induction false} PutColumnPrefixAt(g: Grid, r: nat, c: nat, vs: seq<Cell>, n: nat, i: nat, j: nat)
    requires n <= |vs|
    ensures At(PutColumnPrefix(g, r, c, vs, n), i, j) == if j == c && r <= i < r + n then Some(vs[i - r]) else At(g, i, j)
  {
    if n > 0 {
      PutColumnPrefixAt(g, r, c, vs, n - 1, i, j);
    }
  }

  lemma PutRowAt(g: Grid, r: nat, c: nat, vs: seq<Cell>, i: nat, j: nat)
    ensures At(PutRow(g, r, c, vs), i, j) == if i == r && c <= j < c + |vs| then Some(vs[j - c]) else At(g, i, j)
  {
    PutRowPrefixAt(g, r, c, vs, |vs|, i, j);
  }

  lemma {:induction false} PutRowPrefixAt(g: Grid, r: nat, c: nat, vs: seq<Cell>, n: nat, i: nat, j: nat)
    requires n <= |vs|
    ensures At(PutRowPrefix(g, r, c, vs, n), i, j) == if i == r && c <= j < c + n then Some(vs[j - c]) else At(g, i, j)
  {
    if n > 0 {
      PutRowPrefixAt(g, r, c, vs, n - 1, i, j);
    }
  }

  /** `worksheet.merge_range(r, c1, r, c2, v)`: v in the first cell, a blank in the other. */
  function Merge(g: Grid, r: nat, c1: nat, c2: nat, v: Cell): Grid {
    Put(Put(g, r, c1, v), r, c2, Null)
  }

  /** `_create_sheet_from_df`: the column labels along row 0, then column i's values from row 1 down. */
  function SheetFromFrame(g: Grid, t: Frame): Grid {
    PutColumns(PutRow(g, 0, 0, t.columns), t, |t.columns|)
  }

  /** Columns 0 .. k - 1 of t, each written from row 1 down. */
  function PutColumns(g: Grid, t: Frame, k: nat): (h: Grid)
    requires k <= |t.columns|
    ensures h.ncols == if k == 0 || |t.rows| == 0 then g.ncols else Max(g.ncols, k)
    ensures h.nrows == if k == 0 || |t.rows| == 0 then g.nrows else Max(g.nrows, |t.rows| + 1)
  {
    if k == 0 then g else PutColumn(PutColumns(g, t, k - 1), 1, k - 1, ColumnAt(t, k - 1))
  }

  /** Writing k columns is writing k - 1 of them, then column k - 1. */
  lemma PutColumnsSnoc(g: Grid, t: Frame, k: nat)
    requires 0 < k <= |t.columns|
    ensures PutColumns(g, t, k) == PutColumn(PutColumns(g, t, k - 1), 1, k - 1, ColumnAt(t, k - 1))
  {
  }

  lemma {:induction false} PutColumnsAt(g: Grid, t: Frame, k: nat, i: nat, j: nat)
    requires k <= |t.columns|
    ensures At(PutColumns(g, t, k), i, j) == if j < k && 1 <= i <= |t.rows| then Some(t.rows[i - 1][j]) else At(g, i, j)
    decreases k
  {
    if k > 0 {
      var vs := ColumnAt(t, k - 1);
      var prev := PutColumns(g, t, k - 1);
      PutColumnsSnoc(g, t, k);
      PutColumnsAt(g, t, k - 1, i, j);
      PutColumnAt(prev, 1, k - 1, vs, i, j);
      if j == k - 1 && 1 <= i <= |t.rows| {
        assert vs[i - 1] == t.rows[i - 1][j];
      }
    }
  }


  /**
   * On a new sheet, `_create_sheet_from_df` writes exactly the labels at (0, i)
   * and the j-th value of column i at (j + 1, i), and nothing else.
   */
  lemma SheetFromFrameCells(t: Frame, i: nat, j: nat)
    ensures At(SheetFromFrame(Empty, t), i, j) ==
      if j < |t.columns| && i == 0 then Some(t.columns[j])
      else if j < |t.columns| && 1 <= i <= |t.rows| then Some(t.rows[i - 1][j])
      else None
    ensures SheetFromFrame(Empty, t).ncols == |t.columns|
    ensures SheetFromFrame(Empty, t).nrows == if |t.columns| == 0 then 0 else |t.rows| + 1
  {
    PutColumnsAt(PutRow(Empty, 0, 0, t.columns), t, |t.columns|, i, j);
    PutRowAt(Empty, 0, 0, t.columns, i, j);
  }

  /** One xlsxwriter write call as the codec issues it; formats are not modelled. */
  datatype WriteCall =
    | MergeCall(r: nat, c1: nat, c2: nat, v: Cell)
    | RowCall(r: nat, c: nat, vs: seq<Cell>)
    | ColumnCall(r: nat, c: nat, vs: seq<Cell>)

  function Apply(g: Grid, w: WriteCall): Grid {
    match w
    case MergeCall(r, c1, c2, v) => Merge(g, r, c1, c2, v)
    case RowCall(r, c, vs) => PutRow(g, r, c, vs)
    case ColumnCall(r, c, vs) => PutColumn(g, r, c, vs)
  }

  /** The cells of g after the calls ws, in order. */
  function Replay(g: Grid, ws: seq<WriteCall>): Grid {
    if ws == [] then g else Apply(Replay(g, ws[..|ws| - 1]), ws[|ws| - 1])
  }

  lemma ReplaySnoc(g: Grid, ws: seq<WriteCall>, w: WriteCall)
    ensures Replay(g, ws + [w]) == Apply(Replay(g, ws), w)
  {
    assert (ws + [w])[..|ws|] == ws;
  }

  lemma {:induction false} ReplayAppend(g: Grid, a: seq<WriteCall>, b: seq<WriteCall>)
    ensures Replay(g, a + b) == Replay(Replay(g, a), b)
    decreases |b|
  {
    if b == [] {
      assert a + b == a;
    } else {
      var b' := b[..|b| - 1];
      assert a + b == (a + b') + [b[|b| - 1]];
      ReplaySnoc(g, a + b', b[|b| - 1]);
      ReplayAppend(g, a, b');
      ReplaySnoc(Replay(g, a), b', b[|b| - 1]);
      assert b == b' + [b[|b| - 1]];
    }
  }

  /** The codec's column loop over t: column i written from row 1 down, for i < k. */
  function ColumnCalls(t: Frame, k: nat): (ws: seq<WriteCall>)
    requires k <= |t.columns|
    ensures |ws| == k && forall i :: 0 <= i < k ==> ws[i] == ColumnCall(1, i, ColumnAt(t, i))
  {
    if k == 0 then [] else ColumnCalls(t, k - 1) + [ColumnCall(1, k - 1, ColumnAt(t, k - 1))]
  }

  /** `_create_sheet_from_df`: the label row, then the column loop. */
  function FrameCalls(t: Frame): seq<WriteCall> {
    [RowCall(0, 0, t.columns)] + ColumnCalls(t, |t.columns|)
  }

  lemma {:induction false} ReplayColumns(g: Grid, t: Frame, k: nat)
    requires k <= |t.columns|
    ensures Replay(g, ColumnCalls(t, k)) == PutColumns(g, t, k)
    decreases k
  {
    if k > 0 {
      var w := ColumnCall(1, k - 1, ColumnAt(t, k - 1));
      ReplayColumns(g, t, k - 1);
      ReplaySnoc(g, ColumnCalls(t, k - 1), w);
      PutColumnsSnoc(g, t, k);
    }
  }

  /** A header row along row 0 followed by the column loop. */
  lemma ReplayRowThenColumns(g: Grid, header: seq<Cell>, t: Frame)
    ensures Replay(g, [RowCall(0, 0, header)] + ColumnCalls(t, |t.columns|)) == PutColumns(PutRow(g, 0, 0, header), t, |t.columns|)
  {
    ReplayAppend(g, [RowCall(0, 0, header)], ColumnCalls(t, |t.columns|));
    assert Replay(g, [RowCall(0, 0, header)]) == PutRow(g, 0, 0, header) by {
      assert [RowCall(0, 0, header)][..0] == [];
    }
    ReplayColumns(PutRow(g, 0, 0, header), t, |t.columns|);
  }

  lemma ReplayFrame(g: Grid, t: Frame)
    ensures Replay(g, FrameCalls(t)) == SheetFromFrame(g, t)
  {
    ReplayRowThenColumns(g, t.columns, t);
  }

  /**
   * The text pandas reads as NaN by default (`keep_default_na`): its
   * STR_NA_VALUES, the empty string among them.
   */
  const NaText: set<string> := {
    "", "#N/A", "#N/A N/A", "#NA", "-1.#IND", "-1.#QNAN", "-NaN", "-nan", "1.#IND", "1.#QNAN",
    "<NA>", "N/A", "NA", "NULL", "NaN", "None", "n/a", "nan", "null"}

  /**
   * What `pandas.read_excel` returns for the cell at (r, c): NaN for blanks,
   * error cells and the default NA text, otherwise the value written there.
   */
  function ReadCell(g: Grid, r: nat, c: nat): (v: Cell)
    ensures !IsNa(v) ==> At(g, r, c) == Some(v) && !(v.Str? && v.s in NaText)
    ensures At(g, r, c).Some? && !IsNa(At(g, r, c).value) && !(At(g, r, c).value.Str? && At(g, r, c).value.s in NaText) ==> v == At(g, r, c).value
  {
    match At(g, r, c)
    case None => Missing
    case Some(v) => if IsNa(v) || (v.Str? && v.s in NaText) then Missing else v
  }

  /** The words, in any letter case, that pandas' type inference turns into a float or a bool. */
  const ParsedWords: set<string> := {"inf", "infinity", "nan", "true", "false"}

  /** ASCII lower case, as pandas compares those words. */
  function Lower(s: string): (r: string)
    ensures |r| == |s|
  {
    if s == [] then []
    else [if 'A' <= s[0] <= 'Z' then (s[0] as int + 32) as char else s[0]] + Lower(s[1..])
  }

  /** The longest text a worksheet cell holds; xlsxwriter truncates longer strings. */
  const MaxCellText := 32767

  /** Integers an xlsx number (a double, written with 16 significant digits) holds exactly. */
  const MaxExactInt := 0x20_0000_0000_0000

  /**
   * Text xlsxwriter's `write` turns into a hyperlink (`strings_to_urls`),
   * whose displayed text may differ from the string or be dropped.
   */
  predicate IsUrlText(s: string) {
    || "http://" <= s || "https://" <= s || "ftp://" <= s || "ftps://" <= s
    || "mailto:" <= s || "internal:" <= s || "external:" <= s
  }

  /**
   * Cells a write followed by a read gives back unchanged, on every column
   * they may sit in: text that starts with a letter (so it is neither a
   * formula nor a number to pandas' type inference), fits a cell, is not
   * NA text, no float or bool word and no URL; integers a double holds
   * exactly.
   */
  predicate Stable(c: Cell) {
    || (&& c.Str? && 0 < |c.s| <= MaxCellText
        && (('a' <= c.s[0] <= 'z') || ('A' <= c.s[0] <= 'Z'))
        && c.s !in NaText && Lower(c.s) !in ParsedWords && !IsUrlText(c.s))
    || (c.Int? && -MaxExactInt < c.n < MaxExactInt)
  }

  /** A stable cell is read back as written. */
  lemma ReadStable(g: Grid, r: nat, c: nat, v: Cell)
    requires At(g, r, c) == Some(v) && Stable(v)
    ensures ReadCell(g, r, c) == v && !IsNa(v)
  {
  }

  /** A stable header cell is its column's label. */
  lemma HeaderStable(g: Grid, c: nat, v: Cell)
    requires At(g, 0, c) == Some(v) && Stable(v)
    ensures HeaderLabel(g, c) == v
  {
  }

  /**
   * The label pandas gives column c from its header cell. Only a blank or
   * empty header is renamed "Unnamed: c"; NA text stays a label, since
   * `na_values` apply to the data rows, and an error cell gives NaN.
   */
  function HeaderLabel(g: Grid, c: nat): (h: Cell)
    ensures At(g, 0, c) in {None, Some(Null), Some(Str(""))} ==> h == Str("Unnamed: " + NatToString(c))
    ensures At(g, 0, c) == Some(Missing) <==> h == Missing
    ensures At(g, 0, c).Some? && At(g, 0, c).value !in {Null, Str(""), Missing} ==> h == At(g, 0, c).value
  {
    match At(g, 0, c)
    case None => Str("Unnamed: " + NatToString(c))
    case Some(v) =>
      if v == Null || v == Str("") then Str("Unnamed: " + NatToString(c))
      else v
  }

  /**
   * openpyxl hands pandas "" for the cell at (r, c): nothing was written
   * there, a blank, or the empty string. An error cell is NaN, not "".
   */
  predicate IsBlank(g: Grid, r: nat, c: nat) {
    At(g, r, c) == None || At(g, r, c) == Some(Null) || At(g, r, c) == Some(Str(""))
  }

  /** Every cell of row r is blank. */
  predicate BlankRow(g: Grid, r: nat) {
    forall c: nat :: c < g.ncols ==> IsBlank(g, r, c)
  }

  /** Every cell of column c is blank. */
  predicate BlankColumn(g: Grid, c: nat) {
    forall r: nat :: r < g.nrows ==> IsBlank(g, r, c)
  }

  /**
   * How many of the first k rows pandas' openpyxl reader keeps: it drops the
   * trailing rows whose every cell is blank.
   */
  function KeptRows(g: Grid, k: nat): (n: nat)
    ensures n <= k
    ensures forall r: nat :: n <= r < k ==> BlankRow(g, r)
    ensures n > 0 ==> !BlankRow(g, n - 1)
  {
    if k == 0 then 0
    else if BlankRow(g, k - 1) then KeptRows(g, k - 1)
    else k
  }

  /**
   * How many of the first k columns the reader keeps: it drops the trailing
   * blank cells of every row, then pads each row to the longest.
   */
  function KeptColumns(g: Grid, k: nat): (n: nat)
    ensures n <= k
    ensures forall c: nat :: n <= c < k ==> BlankColumn(g, c)
    ensures n > 0 ==> !BlankColumn(g, n - 1)
  {
    if k == 0 then 0
    else if BlankColumn(g, k - 1) then KeptColumns(g, k - 1)
    else k
  }

  /** The rows of the sheet pandas reads, header included. */
  function Height(g: Grid): nat {
    KeptRows(g, g.nrows)
  }

  /** The columns of the sheet pandas reads. */
  function Width(g: Grid): nat {
    KeptColumns(g, g.ncols)
  }

  /** A cell that is not blank lies inside the extent pandas reads. */
  lemma InsideExtent(g: Grid, r: nat, c: nat)
    requires r < g.nrows && c < g.ncols && !IsBlank(g, r, c)
    ensures r < Height(g) <= g.nrows && c < Width(g) <= g.ncols
  {
    assert !BlankRow(g, r) && !BlankColumn(g, c);
  }

  /** A sheet with a column to read has a row to read. */
  lemma NoRowsNoColumns(g: Grid)
    ensures Width(g) > 0 ==> Height(g) > 0
  {
    if Width(g) > 0 {
      var c := Width(g) - 1;
      assert !BlankColumn(g, c);
      var r: nat :| r < g.nrows && !IsBlank(g, r, c);
      InsideExtent(g, r, c);
    }
  }

  /**
   * `pandas.read_excel(sheet)` with the first row as header: one column per
   * column up to the last that holds a non-blank cell, labelled by its header
   * cell, and one row per row below the header up to the last that holds a
   * non-blank cell, labelled 0, 1, ...
   */
  function ReadTable(g: Grid): (t: Frame)
    ensures |t.columns| == Width(g)
    ensures |t.rows| == (if Height(g) == 0 then 0 else Height(g) - 1)
    ensures t.index == Range(0, |t.rows|)
    ensures forall c :: 0 <= c < |t.columns| ==> t.columns[c] == HeaderLabel(g, c)
    ensures forall j, c :: 0 <= j < |t.rows| && 0 <= c < |t.columns| ==> t.rows[j][c] == ReadCell(g, j + 1, c)
  {
    NoRowsNoColumns(g);
    if Height(g) == 0 then Table([], [], [])
    else Table(Range(0, Height(g) - 1), Headers(g, Width(g)), ReadRows(g, Height(g) - 1, Width(g)))
  }

  /** A header over a row of blanks reads as that header and no row. */
  lemma TrailingBlankRowDropped()
    ensures var t := ReadTable(Put(Put(Empty, 0, 0, Str("a")), 1, 0, Null));
      t.columns == [Str("a")] && t.rows == []
  {
    var g := Put(Put(Empty, 0, 0, Str("a")), 1, 0, Null);
    assert BlankRow(g, 1);
    InsideExtent(g, 0, 0);
  }

  /** The labels of the first n columns, from row 0. */
  function Headers(g: Grid, n: nat): (r: seq<Cell>)
    ensures |r| == n && forall c :: 0 <= c < n ==> r[c] == HeaderLabel(g, c)
  {
    if n == 0 then [] else Headers(g, n - 1) + [HeaderLabel(g, n - 1)]
  }

  /** The first n cells of row r, as read back. */
  function ReadRow(g: Grid, r: nat, n: nat): (vs: seq<Cell>)
    ensures |vs| == n && forall c :: 0 <= c < n ==> vs[c] == ReadCell(g, r, c)
  {
    if n == 0 then [] else ReadRow(g, r, n - 1) + [ReadCell(g, r, n - 1)]
  }

  /** Rows 1 .. k of the sheet, as read back, each n wide. */
  function ReadRows(g: Grid, k: nat, n: nat): (rows: seq<seq<Cell>>)
    ensures |rows| == k && forall j :: 0 <= j < k ==> rows[j] == ReadRow(g, j + 1, n)
  {
    if k == 0 then [] else ReadRows(g, k - 1, n) + [ReadRow(g, k, n)]
  }

  /** A sheet written from a frame with non-blank labels and last row is read in full. */
  lemma SheetExtent(t: Frame)
    requires |t.columns| > 0 && Stable(t.columns[|t.columns| - 1])
    requires |t.rows| > 0 ==> Stable(t.rows[|t.rows| - 1][0])
    requires |t.rows| == 0 ==> Stable(t.columns[0])
    ensures Height(SheetFromFrame(Empty, t)) == |t.rows| + 1
    ensures Width(SheetFromFrame(Empty, t)) == |t.columns|
  {
    var g := SheetFromFrame(Empty, t);
    SheetFromFrameCells(t, 0, |t.columns| - 1);
    InsideExtent(g, 0, |t.columns| - 1);
    SheetFromFrameCells(t, |t.rows|, 0);
    InsideExtent(g, |t.rows|, 0);
  }

  /**
   * A frame with at least one column, whose labels and values all survive a
   * write and a read, is read back from its own sheet with row labels 0, 1, ...
   */
  lemma ReadBackSheet(t: Frame)
    requires |t.columns| > 0
    requires forall i :: 0 <= i < |t.columns| ==> Stable(t.columns[i])
    requires forall j, i :: 0 <= j < |t.rows| && 0 <= i < |t.columns| ==> Stable(t.rows[j][i])
    ensures ReadTable(SheetFromFrame(Empty, t)) == Table(Range(0, |t.rows|), t.columns, t.rows)
  {
    SheetExtent(t);
    var r := ReadTable(SheetFromFrame(Empty, t));
    forall c | 0 <= c < |t.columns| ensures r.columns[c] == t.columns[c] {
      LabelReadBack(t, c);
    }
    forall j, c | 0 <= j < |t.rows| && 0 <= c < |t.columns| ensures r.rows[j][c] == t.rows[j][c] {
      CellReadBack(t, j, c);
    }
    assert r.columns == t.columns;
    forall j | 0 <= j < |t.rows| ensures r.rows[j] == t.rows[j] {
    }
  }

  /** A stable label is read back from its own sheet. */
  lemma LabelReadBack(t: Frame, c: nat)
    requires c < |t.columns| && Stable(t.columns[c])
    ensures HeaderLabel(SheetFromFrame(Empty, t), c) == t.columns[c]
  {
    SheetFromFrameCells(t, 0, c);
    HeaderStable(SheetFromFrame(Empty, t), c, t.columns[c]);
  }

  /** A stable value is read back from its own sheet, one row down. */
  lemma CellReadBack(t: Frame, j: nat, c: nat)
    requires j < |t.rows| && c < |t.columns| && Stable(t.rows[j][c])
    ensures ReadCell(SheetFromFrame(Empty, t), j + 1, c) == t.rows[j][c]
  {
    SheetFromFrameCells(t, j + 1, c);
    ReadStable(SheetFromFrame(Empty, t), j + 1, c, t.rows[j][c]);
  }

  /** An xlsxwriter worksheet: its name and what has been written on it. */
  class Sheet {
    const name: string
    var grid: Grid

    constructor (name: string)
      ensures this.name == name && grid == Empty
    {
      this.name := name;
      grid := Empty;
    }

    method Write(r: nat, c: nat, v: Cell)
      modifies this
      ensures grid == Put(old(grid), r, c, v)
    {
      grid := Put(grid, r, c, v);
    }

    method WriteRow(r: nat, c: nat, vs: seq<Cell>)
      modifies this
      ensures grid == PutRow(old(grid), r, c, vs)
    {
      var k := 0;
      while k < |vs|
        invariant 0 <= k <= |vs|
        invariant grid == PutRowPrefix(old(grid), r, c, vs, k)
      {
        grid := Put(grid, r, c + k, vs[k]);
        k := k + 1;
      }
    }

    method WriteColumn(r: nat, c: nat, vs: seq<Cell>)
      modifies this
      ensures grid == PutColumn(old(grid), r, c, vs)
    {
      var k := 0;
      while k < |vs|
        invariant 0 <= k <= |vs|
        invariant grid == PutColumnPrefix(old(grid), r, c, vs, k)
      {
        grid := Put(grid, r + k, c, vs[k]);
        k := k + 1;
      }
    }

    method MergeRange(r: nat, c1: nat, c2: nat, v: Cell)
      modifies this
      ensures grid == Merge(old(grid), r, c1, c2, v)
    {
      Write(r, c1, v);
      Write(r, c2, Null);
    }

    /** Each column of t in turn, from row 1 down, as the column loops of the codec do. */
    method WriteColumns(t: Frame)
      modifies this
      ensures grid == PutColumns(old(grid), t, |t.columns|)
    {
      ghost var start := grid;
      var i := 0;
      while i < |t.columns|
        invariant 0 <= i <= |t.columns|
        invariant grid == PutColumns(start, t, i)
      {
        WriteColumn(1, i, ColumnAt(t, i));
        PutColumnsSnoc(start, t, i + 1);
        i := i + 1;
      }
    }

    /** `_create_sheet_from_df(frame, sheet, workbook)` without its formatting calls. */
    method WriteFrame(t: Frame)
      modifies this
      ensures grid == SheetFromFrame(old(grid), t)
    {
      WriteRow(0, 0, t.columns);
      WriteColumns(t);
    }
  }

  /** The (name, cells) of each sheet, in the order they were added. */
  function Snapshot(ss: seq<Sheet>): (r: seq<(string, Grid)>)
    reads ss
    ensures |r| == |ss|
  {
    if ss == [] then [] else Snapshot(ss[..|ss| - 1]) + [(ss[|ss| - 1].name, ss[|ss| - 1].grid)]
  }

  /** An xlsxwriter workbook: its target file, the sheets added so far, and whether `close()` wrote it out. */
  class Workbook {
    const file: string
    var sheets: seq<Sheet>
    var closed: bool

    constructor (file: string)
      ensures this.file == file && sheets == [] && !closed
    {
      this.file := file;
      sheets := [];
      closed := false;
    }

    method AddWorksheet(name: string) returns (s: Sheet)
      modifies this
      ensures fresh(s) && s.name == name && s.grid == Empty
      ensures sheets == old(sheets) + [s] && closed == old(closed)
    {
      s := new Sheet(name);
      sheets := sheets + [s];
    }

    method Close()
      modifies this
      ensures closed && sheets == old(sheets)
    {
      closed := true;
    }
  }
}

/**
 * The codec for the old Excel templates (`OldExcelCodec`): `load` reads the
 * WELCOME, DATA, VARIABLES, SOURCES, NOTES, METHODS, YEARS and DATES sheets,
 * renames their columns to the current names, gives every variable a name
 * and a type, numbers the data rows in a leading `id` column, and rewrites
 * the four date fields from `YYYY-MM-DD` to `DD/MM/YYYY`; `store` always
 * raises.
 *
 * The publication dates come from a database query keyed by the table name;
 * the query's result column is a parameter here.
 */
module OldExcelCodec {
  import opened PyValues
  import opened Tables
  import opened Worksheet
  import ExcelCodec

  /** The names given to the eight WELCOME values, from row 4 down. */
  const WelcomeColumns: seq<string> := [
    "contents", "__description", "__update", "data_manager", "comments", "__delivery", "table_name", "__preffix"]

  /** The names given to the six VARIABLES columns; `variable` is the second. */
  const VariableColumns: seq<string> := ["__id", "variable", "description", "__short_desc", "__type", "__primary"]

  /** The names given to the eight columns of SOURCES, NOTES, METHODS and YEARS. */
  const ReferenceColumns: seq<string> := [
    "__description", "iso", "strata_variable", "strata_value", "applyto_variable", "__table", "__id", "value"]

  /** The names given to the nine DATES columns. */
  const DatesColumns: seq<string> := [
    "__description", "iso", "strata_variable", "strata_value", "applyto_variable", "__table",
    "date_accessed", "date_closing", "date_delivery"]

  /** The date fields `load` rewrites, in order. */
  const RewrittenFields: seq<string> := ["date_accessed", "date_closing", "date_delivery", "date_published"]

  /** The database parameters `load` looks up, in order. */
  const Credentials: seq<string> := ["host", "db", "user", "password"]

  /** The keys of the data dict `load` returns. */
  const LoadedKeys: set<string> := {"general", "variables", "data", "sources", "notes", "methods", "years", "dates"}

  const StoreMessage := "Storing not implemented for old excel templates"

  /** The row `load` puts first in the variables table to describe the `id` column. */
  const IdRow: seq<Cell> := [Str(""), Str("id"), Str("Row id"), Str(""), Str(""), Str(""), Str("integer")]

  // ---- cell conversions ----

  /**
   * pandas reads column i as datetime64: it holds at least one date and
   * nothing but dates and NaN.
   */
  predicate DateColumn(t: Frame, i: nat)
    requires i < |t.columns|
  {
    && (exists j :: 0 <= j < |t.rows| && t.rows[j][i].DateTime?)
    && forall j :: 0 <= j < |t.rows| ==> t.rows[j][i].DateTime? || IsNa(t.rows[j][i])
  }

  /**
   * The text `astype(str)` gives the cell at (j, i): in a datetime64 column
   * of dates only, the date as `YYYY-MM-DD` and 'NaT' for NaN; elsewhere
   * `str(value)`, 'nan' for NaN.
   */
  function CellText(t: Frame, j: nat, i: nat): string
    requires j < |t.rows| && i < |t.columns|
  {
    var c := t.rows[j][i];
    if !DateColumn(t, i) then PyStr(c)
    else if c.DateTime? then DateText(c.year, c.month, c.day)
    else "NaT"
  }

  /** `df.astype(str)`: every value becomes its text. */
  function StrCells(t: Frame): (r: Frame)
    ensures r.index == t.index && r.columns == t.columns && |r.rows| == |t.rows|
    ensures forall j, i :: 0 <= j < |t.rows| && 0 <= i < |t.columns| ==> r.rows[j][i] == Str(CellText(t, j, i))
  {
    Table(t.index, t.columns, seq(|t.rows|, j requires 0 <= j < |t.rows| =>
      seq(|t.columns|, i requires 0 <= i < |t.columns| => Str(CellText(t, j, i)))))
  }

  /** A value read with `dtype=str`: its text, except that NaN stays NaN. */
  function AsText(c: Cell): Cell {
    if IsNa(c) then c else Str(PyStr(c))
  }

  /** `pd.read_excel(..., dtype=str)` of a sheet. */
  function ReadText(g: Grid): (r: Frame)
    ensures r.index == ReadTable(g).index && r.columns == ReadTable(g).columns && |r.rows| == |ReadTable(g).rows|
    ensures forall j, i :: 0 <= j < |r.rows| && 0 <= i < |r.columns| ==> r.rows[j][i] == AsText(ReadTable(g).rows[j][i])
  {
    var t := ReadTable(g);
    Table(t.index, t.columns, seq(|t.rows|, j requires 0 <= j < |t.rows| =>
      seq(|t.columns|, i requires 0 <= i < |t.columns| => AsText(t.rows[j][i]))))
  }

  // ---- the sheets ----

  /** WELCOME: the eight values of column B from row 4 down, as one row labelled 1 under the welcome names. */
  function Welcome(g: Grid): (r: Result<Frame>)
    ensures r.Ok? <==> ExcelCodec.GeneralBlock(g).Ok?
    ensures r.Err? ==> r.error == ExcelCodec.GeneralBlock(g).error
    ensures r.Ok? ==> r.value == Table([1], ExcelCodec.Strs(WelcomeColumns), [ExcelCodec.GeneralBlock(g).value])
  {
    var row :- ExcelCodec.GeneralBlock(g);
    Ok(Table([1], ExcelCodec.Strs(WelcomeColumns), [row]))
  }

  /** A variable's name: its own, or `'_var' + str(i)` when it has none, i being its position. */
  function VariableName(v: Cell, i: nat): (c: Cell)
    ensures !IsNa(c)
    ensures !IsNa(v) ==> c == v
    ensures IsNa(v) ==> c == Str("_var" + NatToString(i))
  {
    if IsNa(v) then Str("_var" + NatToString(i)) else v
  }

  /** A variable's semantic type: 'integer' for the variable named 'id', 'string' for every other. */
  function VariableType(name: Cell): (c: Cell)
    ensures c == Str("integer") <==> name == Str("id")
    ensures c == Str("string") <==> name != Str("id")
  {
    if name != Str("id") then Str("string") else Str("integer")
  }

  /** The variables table with its names completed (column 1) and a `type` column appended. */
  function NameVariables(t: Frame): (r: Frame)
    requires |t.columns| == |VariableColumns|
    ensures r.index == t.index && r.columns == t.columns + [Str("type")] && |r.rows| == |t.rows|
    ensures forall j :: 0 <= j < |t.rows| ==>
      && r.rows[j][1] == VariableName(t.rows[j][1], j)
      && r.rows[j][6] == VariableType(r.rows[j][1])
      && forall i :: 0 <= i < 6 && i != 1 ==> r.rows[j][i] == t.rows[j][i]
  {
    Table(t.index, t.columns + [Str("type")], seq(|t.rows|, j requires 0 <= j < |t.rows| =>
      var name := VariableName(t.rows[j][1], j);
      [t.rows[j][0], name] + t.rows[j][2..] + [VariableType(name)]))
  }

  /** `x in series` tests the row labels, which here are integers, so no str is ever found. */
  predicate HasRowLabel(t: Frame, name: Cell) {
    name.Int? && name.n in t.index
  }

  /** `pd.concat([id_row, variables], ignore_index=True)` */
  function WithIdRow(t: Frame): (r: Frame)
    requires |t.columns| == |IdRow|
    ensures r.columns == t.columns && r.rows == [IdRow] + t.rows && r.index == Range(0, |t.rows| + 1)
  {
    Table(Range(0, |t.rows| + 1), t.columns, [IdRow] + t.rows)
  }

  /** `data.insert(0, 'id', range(1, n + 1))`: ValueError when an `id` column is already there. */
  function InsertId(t: Frame): (r: Result<Frame>)
    ensures r.Err? <==> Str("id") in t.columns
    ensures r.Err? ==> r.error == ValueError("cannot insert id, already exists")
    ensures r.Ok? ==> r.value.index == t.index && r.value.columns == [Str("id")] + t.columns && |r.value.rows| == |t.rows|
    ensures r.Ok? ==> forall j :: 0 <= j < |t.rows| ==> r.value.rows[j] == [Int(j + 1)] + t.rows[j]
  {
    if Str("id") in t.columns then Err(ValueError("cannot insert id, already exists"))
    else Ok(Table(t.index, [Str("id")] + t.columns, seq(|t.rows|, j requires 0 <= j < |t.rows| => [Int(j + 1)] + t.rows[j])))
  }

  /** DATA and VARIABLES, read in that order. */
  function DataAndVariables(f: ExcelCodec.ExcelFile): (r: Result<(Frame, Frame)>)
  {
    var dataGrid :- ExcelCodec.ReadSheet(f, "DATA");
    var variablesGrid :- ExcelCodec.ReadSheet(f, "VARIABLES");
    Numbered(ReadTable(dataGrid), ReadTable(variablesGrid))
  }

  /**
   * What `load` makes of the DATA and VARIABLES tables: DATA as text,
   * VARIABLES renamed, named and typed, the data columns renamed after the
   * variables, then (the label test always holding) the `id` row and the
   * `id` column added.
   */
  function Numbered(src: Frame, sheet: Frame): Result<(Frame, Frame)> {
    var data := StrCells(src);
    var raw :- SetColumns(sheet, ExcelCodec.Strs(VariableColumns));
    var variables := NameVariables(raw);
    var named :- SetColumns(data, ColumnAt(variables, 1));
    if !HasRowLabel(variables, Str("id")) then
      var numbered :- InsertId(named);
      Ok((numbered, WithIdRow(variables)))
    else
      Ok((named, variables))
  }

  /** A sheet read as text with its columns renamed: ValueError if missing or of another width. */
  function Renamed(f: ExcelCodec.ExcelFile, name: string, columns: seq<string>): (r: Result<Frame>)
    ensures r.Ok? <==> name in f && |ReadText(f[name]).columns| == |columns|
    ensures r.Ok? ==> r.value == Table(ReadText(f[name]).index, ExcelCodec.Strs(columns), ReadText(f[name]).rows)
    ensures name !in f ==> r == Err(ValueError("Worksheet named '" + name + "' not found"))
  {
    var g :- ExcelCodec.ReadSheet(f, name);
    SetColumns(ReadText(g), ExcelCodec.Strs(columns))
  }

  /** The first of keys that was not passed, `kwargs[key]` raising KeyError for it. */
  function FirstMissing(kwargs: map<string, string>, keys: seq<string>): (r: Option<string>)
    ensures r.None? <==> forall k :: 0 <= k < |keys| ==> keys[k] in kwargs
    ensures r.Some? ==> r.value !in kwargs && exists k :: (0 <= k < |keys| && keys[k] == r.value
      && forall i :: 0 <= i < k ==> keys[i] in kwargs)
  {
    if keys == [] then None
    else if keys[0] !in kwargs then Some(keys[0])
    else
      var r := FirstMissing(kwargs, keys[1..]);
      assert r.Some? ==> exists k :: 0 <= k < |keys| && keys[k] == r.value && forall i :: 0 <= i < k ==> keys[i] in kwargs by {
        if r.Some? {
          var k :| 0 <= k < |keys[1..]| && keys[1..][k] == r.value && forall i :: 0 <= i < k ==> keys[1..][i] in kwargs;
          assert forall i :: 0 <= i < k + 1 ==> keys[i] in kwargs by {
            forall i | 0 <= i < k + 1 ensures keys[i] in kwargs {
              if i > 0 { assert keys[i] == keys[1..][i - 1]; }
            }
          }
        }
      }
      r
  }

  /**
   * `dates['date_published'] = published`: a new last column, aligned on the
   * row labels, NaN past the end. A frame with no rows is first reindexed to
   * the query result's labels 0 .. n-1 (pandas' `_ensure_valid_index`), its
   * own columns filled with NaN.
   */
  function WithPublished(t: Frame, published: seq<Cell>): (r: Frame)
    ensures r.columns == t.columns + [Str("date_published")]
    ensures |t.rows| > 0 || |published| == 0 ==>
      && r.index == t.index && |r.rows| == |t.rows|
      && forall j :: 0 <= j < |t.rows| ==>
        r.rows[j] == t.rows[j] + [if 0 <= t.index[j] < |published| then published[t.index[j]] else Missing]
    ensures |t.rows| == 0 && |published| > 0 ==>
      && r.index == Range(0, |published|) && |r.rows| == |published|
      && forall j, i :: 0 <= j < |published| && 0 <= i <= |t.columns| ==>
        r.rows[j][i] == if i < |t.columns| then Missing else published[j]
  {
    if |t.rows| == 0 && |published| > 0 then
      Table(Range(0, |published|), t.columns + [Str("date_published")],
        seq(|published|, j requires 0 <= j < |published| => seq(|t.columns|, _ => Missing) + [published[j]]))
    else
      Table(t.index, t.columns + [Str("date_published")], PublishedRows(t.rows, t.index, published))
  }

  /** Each row extended with the publication date its label picks out. */
  function PublishedRows(rows: seq<seq<Cell>>, index: seq<int>, published: seq<Cell>): (r: seq<seq<Cell>>)
    requires |index| == |rows|
    ensures |r| == |rows| && forall j :: 0 <= j < |rows| ==>
      r[j] == rows[j] + [if 0 <= index[j] < |published| then published[index[j]] else Missing]
  {
    if rows == [] then []
    else
      var cell := if 0 <= index[0] < |published| then published[index[0]] else Missing;
      [rows[0] + [cell]] + PublishedRows(rows[1..], index[1..], published)
  }

  /** The tables as `load` has them just before the date loop. */
  datatype Parts = Parts(
    general: Frame, variables: Frame, data: Frame,
    sources: Frame, notes: Frame, methods: Frame, years: Frame, dates: Frame)

  /** The sheets read after VARIABLES, in order, each with the names its columns get. */
  const RenamedSheets: seq<(string, seq<string>)> := [
    ("SOURCES", ReferenceColumns), ("NOTES", ReferenceColumns), ("METHODS", ReferenceColumns),
    ("YEARS", ReferenceColumns), ("DATES", DatesColumns)]

  /** Read and rename each sheet in turn; the first that fails stops the reading. */
  function RenamedAll(f: ExcelCodec.ExcelFile, specs: seq<(string, seq<string>)>): (r: Result<seq<Frame>>)
    ensures r.Ok? <==> forall k :: 0 <= k < |specs| ==> Renamed(f, specs[k].0, specs[k].1).Ok?
    ensures r.Ok? ==> |r.value| == |specs| && forall k :: 0 <= k < |specs| ==> Renamed(f, specs[k].0, specs[k].1) == Ok(r.value[k])
    ensures r.Err? ==> exists k :: (0 <= k < |specs| && Renamed(f, specs[k].0, specs[k].1) == Err(r.error)
      && forall i :: 0 <= i < k ==> Renamed(f, specs[i].0, specs[i].1).Ok?)
  {
    if specs == [] then Ok([])
    else
      var t :- Renamed(f, specs[0].0, specs[0].1);
      var rest :- RenamedAll(f, specs[1..]);
      Ok([t] + rest)
  }

  /**
   * Everything `load` does before the date loop, in its order; the first
   * exception escapes.
   */
  function Prepare(file: Option<ExcelCodec.ExcelFile>, kwargs: map<string, string>, published: seq<Cell>): Result<Parts> {
    if file.None? then Err(ValueError(ExcelCodec.NoFile))
    else
      var f := file.value;
      var welcomeGrid :- ExcelCodec.ReadSheet(f, "WELCOME");
      var general :- Welcome(welcomeGrid);
      var dv :- DataAndVariables(f);
      var refs :- RenamedAll(f, RenamedSheets);
      match FirstMissing(kwargs, Credentials)
      case Some(key) => Err(KeyError(key))
      case None => Ok(Parts(general, dv.1, dv.0, refs[0], refs[1], refs[2], refs[3], WithPublished(refs[4], published)))
  }

  // ---- the date rewrite ----

  /** A `\d{4}-\d{2}-\d{2}` match starting at position i. */
  predicate YmdAt(s: string, i: nat)
    requires i + 10 <= |s|
  {
    && IsDigit(s[i]) && IsDigit(s[i + 1]) && IsDigit(s[i + 2]) && IsDigit(s[i + 3]) && s[i + 4] == '-'
    && IsDigit(s[i + 5]) && IsDigit(s[i + 6]) && s[i + 7] == '-' && IsDigit(s[i + 8]) && IsDigit(s[i + 9])
  }

  /** `re.findall('(\d{4})-(\d{2})-(\d{2})', s)`: the non-overlapping matches, left to right, as (year, month, day). */
  function FindYmd(s: string): seq<(string, string, string)>
    decreases |s|
  {
    if |s| < 10 then []
    else if YmdAt(s, 0) then [(s[..4], s[5..7], s[8..10])] + FindYmd(s[10..])
    else FindYmd(s[1..])
  }

  /** One pass of the date loop: 'd/m/y' from the only match in `str(value)`, else None. */
  function Reformat(value: Cell): Cell {
    var ms := FindYmd(PyStr(value));
    if |ms| == 1 then Str(ms[0].2 + "/" + ms[0].1 + "/" + ms[0].0) else Null
  }

  /** `t[name] = v`: every row of the column named name holds v (a new last column if there is none). */
  function SetColumn(t: Frame, name: Cell, v: Cell): (r: Frame)
    ensures r.index == t.index && |r.rows| == |t.rows|
    ensures name in t.columns ==> r.columns == t.columns
    ensures name !in t.columns ==> r.columns == t.columns + [name]
  {
    match Pos(t.columns, name)
    case Some(p) => Table(t.index, t.columns, ReplaceAt(t.rows, p, v))
    case None => Table(t.index, t.columns + [name], AppendAll(t.rows, v))
  }

  /** Every row with its cell p replaced by v. */
  function ReplaceAt(rows: seq<seq<Cell>>, p: nat, v: Cell): (r: seq<seq<Cell>>)
    requires forall j :: 0 <= j < |rows| ==> p < |rows[j]|
    ensures |r| == |rows| && forall j :: 0 <= j < |rows| ==> r[j] == rows[j][p := v]
  {
    if rows == [] then [] else [rows[0][p := v]] + ReplaceAt(rows[1..], p, v)
  }

  /** Every row with v added at its end. */
  function AppendAll(rows: seq<seq<Cell>>, v: Cell): (r: seq<seq<Cell>>)
    ensures |r| == |rows| && forall j :: 0 <= j < |rows| ==> r[j] == rows[j] + [v]
  {
    if rows == [] then [] else [rows[0] + [v]] + AppendAll(rows[1..], v)
  }

  /**
   * The dates table after the first n passes of the loop, each pass reading
   * its field from row 0 of the table as it came in: KeyError when there is
   * no row labelled 0 or no such column.
   */
  function Rewritten(t: Frame, n: nat): (r: Result<Frame>)
    requires n <= |RewrittenFields|
    ensures r.Ok? ==> r.value.index == t.index && r.value.columns == t.columns && |r.value.rows| == |t.rows|
  {
    if n == 0 then Ok(t)
    else
      var before :- Rewritten(t, n - 1);
      var v :- Loc(t, 0, Str(RewrittenFields[n - 1]));
      Ok(SetColumn(before, Str(RewrittenFields[n - 1]), Reformat(v)))
  }

  /** What row 0 holds under each field from i on is the same in a and b. */
  ghost predicate AgreesFrom(a: Frame, b: Frame, i: nat) {
    forall k :: i <= k < |RewrittenFields| ==> Loc(a, 0, Str(RewrittenFields[k])) == Loc(b, 0, Str(RewrittenFields[k]))
  }

  /** The loop of `load` over the four date fields, each pass overwriting its whole column. */
  method RewriteDates(t: Frame) returns (r: Result<Frame>)
    ensures r == Rewritten(t, |RewrittenFields|)
  {
    var dates := t;
    var i := 0;
    while i < |RewrittenFields|
      invariant 0 <= i <= |RewrittenFields|
      invariant Rewritten(t, i) == Ok(dates)
      invariant AgreesFrom(dates, t, i)
    {
      var v := Loc(dates, 0, Str(RewrittenFields[i]));
      if v.Err? {
        RewriteFails(t, dates, i);
        return Err(v.error);
      }
      RewriteStep(t, dates, i);
      dates := SetColumn(dates, Str(RewrittenFields[i]), Reformat(v.value));
      i := i + 1;
    }
    return Ok(dates);
  }

  /** A pass that reads its field from the current table reads what row 0 held at the start. */
  lemma RewriteStep(t: Frame, dates: Frame, i: nat)
    requires i < |RewrittenFields| && Rewritten(t, i) == Ok(dates) && AgreesFrom(dates, t, i)
    requires Loc(dates, 0, Str(RewrittenFields[i])).Ok?
    ensures Rewritten(t, i + 1) == Ok(SetColumn(dates, Str(RewrittenFields[i]), Reformat(Loc(dates, 0, Str(RewrittenFields[i])).value)))
    ensures AgreesFrom(SetColumn(dates, Str(RewrittenFields[i]), Reformat(Loc(dates, 0, Str(RewrittenFields[i])).value)), t, i + 1)
  {
    var name := Str(RewrittenFields[i]);
    var v := Reformat(Loc(dates, 0, name).value);
    forall k | i + 1 <= k < |RewrittenFields|
      ensures Loc(SetColumn(dates, name, v), 0, Str(RewrittenFields[k])) == Loc(t, 0, Str(RewrittenFields[k]))
    {
      SetColumnKeepsOthers(dates, name, v, Str(RewrittenFields[k]));
    }
  }

  /** A pass that raises ends the loop with its exception. */
  lemma RewriteFails(t: Frame, dates: Frame, i: nat)
    requires i < |RewrittenFields| && Rewritten(t, i) == Ok(dates) && AgreesFrom(dates, t, i)
    requires Loc(dates, 0, Str(RewrittenFields[i])).Err?
    ensures Rewritten(t, |RewrittenFields|) == Err(Loc(dates, 0, Str(RewrittenFields[i])).error)
  {
    assert Rewritten(t, i + 1) == Err(Loc(dates, 0, Str(RewrittenFields[i])).error);
    RewrittenStops(t, i + 1);
  }

  /** Once a pass raised, the loop's outcome is that exception. */
  lemma {:induction false} RewrittenStops(t: Frame, n: nat)
    requires 0 < n <= |RewrittenFields| && Rewritten(t, n).Err?
    ensures Rewritten(t, |RewrittenFields|) == Rewritten(t, n)
    decreases |RewrittenFields| - n
  {
    if n < |RewrittenFields| {
      RewrittenStops(t, n + 1);
    }
  }

  /** Setting one column leaves what row 0 holds under any other label as it was. */
  lemma SetColumnKeepsOthers(t: Frame, name: Cell, v: Cell, other: Cell)
    requires other != name
    ensures Loc(SetColumn(t, name, v), 0, other) == Loc(t, 0, other)
  {
    var r := SetColumn(t, name, v);
    if other in t.columns {
      var p := Pos(t.columns, other).value;
      if name !in t.columns {
        assert r.columns[..p] == t.columns[..p];
        PosIsFirst(r.columns, other, p);
      }
    } else {
      assert other !in r.columns;
    }
  }

  // ---- load and store ----

  /** The data dict `load` returns. */
  function Assemble(p: Parts, dates: Frame): (d: DataDict)
    ensures d.Keys == LoadedKeys
  {
    map key | key in LoadedKeys ::
      if key == "general" then p.general
      else if key == "variables" then FillNa(p.variables, Str(""))
      else if key == "data" then p.data
      else if key == "sources" then p.sources
      else if key == "notes" then p.notes
      else if key == "methods" then p.methods
      else if key == "years" then p.years
      else dates
  }

  /** What `load(file=..., host=..., db=..., user=..., password=...)` returns, given the publication dates. */
  function LoadSpec(file: Option<ExcelCodec.ExcelFile>, kwargs: map<string, string>, published: seq<Cell>): Result<DataDict> {
    var p :- Prepare(file, kwargs, published);
    var dates :- Rewritten(p.dates, |RewrittenFields|);
    Ok(Assemble(p, dates))
  }

  /** `load`: the steps before the date loop, the loop, then `variables.fillna('', inplace=True)`. */
  method Load(file: Option<ExcelCodec.ExcelFile>, kwargs: map<string, string>, published: seq<Cell>) returns (r: Result<DataDict>)
    ensures r == LoadSpec(file, kwargs, published)
  {
    var p := Prepare(file, kwargs, published);
    if p.Err? {
      return Err(p.error);
    }
    var dates := RewriteDates(p.value.dates);
    if dates.Err? {
      return Err(dates.error);
    }
    return Ok(Assemble(p.value, dates.value));
  }

  /** `store` is not supported for the old templates. */
  function Store(data: DataDict, kwargs: map<string, string>): (r: Result<()>)
    ensures r == Err(NotImplementedError(StoreMessage))
  {
    Err(NotImplementedError(StoreMessage))
  }
}

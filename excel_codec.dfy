/**
 * The Excel codec (`ExcelParser`): `load` reads a workbook of nine sheets
 * into the data dict, `store` writes a data dict out as eight sheets.
 *
 * A workbook file is the map from sheet names to their cells. On load, the
 * GENERAL sheet holds eight values in column B from row 4 down (labels in
 * column A); they become a one-row general frame and a one-row dates frame.
 * Every other sheet is read as a table with its first row as header. On
 * store, each sheet is added to the workbook and then filled; a missing table
 * or a missing required column raises and leaves the workbook unclosed.
 */
module ExcelCodec {
  import opened PyValues
  import opened Tables
  import opened Worksheet

  /** A workbook as `pd.read_excel` sees it: the cells of each named sheet. */
  type ExcelFile = map<string, Grid>

  const NoFile := "No \"file\" parameter provided"

  /** Column A of GENERAL, from row 4 down. */
  const GeneralLabels: seq<string> := [
    "DATABASE TABLE NAME", "CONTENTS", "DATA MANAGER", "COMMENTS",
    "ACCESS DATE", "CLOSING DATE", "PUBLICATION DATE", "DELIVERY DATE"]

  /** The column names `load` gives the first four and the last four GENERAL values. */
  const GeneralColumns: seq<string> := ["table_name", "contents", "data_manager", "comments"]
  const DateColumns: seq<string> := ["date_accessed", "date_closing", "date_published", "date_delivery"]

  /** The three merged title rows of GENERAL. */
  const Banner: seq<string> := ["ICO INFORMATION CENTRE ON HPV AND CANCER", "Data", "Internal use. Not for distribution"]

  /** The header row `store` writes on VARIABLES, whatever the frame's own labels. */
  const VariablesHeader: seq<string> := ["Variable", "Description", "Type"]

  /** The columns kept, in this order, on SOURCES, NOTES, METHODS and YEARS. */
  const ReferenceColumns: seq<string> := ["iso", "strata_variable", "strata_value", "applyto_variable", "value"]

  /** The columns kept, in this order, on LOGS. */
  const LogColumns: seq<string> := [
    "author", "date", "message", "action", "variables", "data", "sources", "notes", "methods", "dates"]

  /** The sheets `store` writes, in order. */
  const SheetNames: seq<string> := ["GENERAL", "VARIABLES", "DATA", "SOURCES", "NOTES", "METHODS", "YEARS", "LOGS"]

  /** The data dict key each sheet of `store` is filled from. */
  const SheetKeys: seq<string> := ["general", "variables", "data", "sources", "notes", "methods", "years", "logs"]

  /** The keys of the data dict `load` returns. */
  const LoadedKeys: set<string> := {"general", "variables", "data", "sources", "notes", "methods", "years", "dates", "logs"}

  function Strs(xs: seq<string>): (cs: seq<Cell>)
    ensures |cs| == |xs| && forall k :: 0 <= k < |xs| ==> cs[k] == Str(xs[k])
  {
    seq(|xs|, k requires 0 <= k < |xs| => Str(xs[k]))
  }

  // ---- load ----

  /** `pd.read_excel(file, sheet_name=name)`: ValueError when the workbook has no such sheet. */
  function ReadSheet(f: ExcelFile, name: string): (r: Result<Grid>)
    ensures r.Ok? <==> name in f
    ensures r.Ok? ==> r.value == f[name]
    ensures r.Err? ==> r.error == ValueError("Worksheet named '" + name + "' not found")
  {
    if name in f then Ok(f[name]) else Err(ValueError("Worksheet named '" + name + "' not found"))
  }

  /** How many of the row labels 4 .. 11 a headerless read of g has. */
  function GeneralRowCount(g: Grid): (n: nat)
    ensures n == 8 <==> Height(g) >= 12
  {
    if Height(g) <= 4 then 0 else if Height(g) >= 12 then 8 else Height(g) - 4
  }

  /** The k-th GENERAL value as `load` keeps it: cell (4 + k, 1), with NaN made ''. */
  function GeneralCell(g: Grid, k: nat): (c: Cell)
    ensures !IsNa(c)
    ensures ReadCell(g, 4 + k, 1) != Missing ==> c == ReadCell(g, 4 + k, 1)
  {
    FillCell(ReadCell(g, 4 + k, 1), Str(""))
  }

  /**
   * `.loc[4:11, [1]].T` of the headerless sheet, its NaN made '', and its
   * eight columns named: KeyError when the read has no column 1 (the reader
   * drops trailing blank columns), ValueError (length mismatch) unless
   * exactly eight rows were selected.
   */
  function GeneralBlock(g: Grid): (r: Result<seq<Cell>>)
    ensures r.Ok? <==> Height(g) >= 12 && Width(g) >= 2
    ensures r.Err? && Width(g) < 2 ==> r == Err(KeyError("[1]"))
    ensures r.Err? && Width(g) >= 2 ==>
      r == Err(ValueError("Length mismatch: Expected axis has " + NatToString(GeneralRowCount(g)) + " elements, new values have 8 elements"))
    ensures r.Ok? ==> |r.value| == 8 && forall k :: 0 <= k < 8 ==> r.value[k] == GeneralCell(g, k)
  {
    NoRowsNoColumns(g);
    if Width(g) < 2 then Err(KeyError("[1]"))
    else
      var n := GeneralRowCount(g);
      if n != 8 then
        Err(ValueError("Length mismatch: Expected axis has " + NatToString(n) + " elements, new values have 8 elements"))
      else
        Ok(seq(n, k requires 0 <= k < n => GeneralCell(g, k)))
  }

  /**
   * The GENERAL part of `load`: the eight values, split into the general and
   * the dates frames, each one row labelled 1.
   */
  function SplitGeneral(g: Grid): (r: Result<(Frame, Frame)>)
    ensures r.Ok? <==> Height(g) >= 12 && Width(g) >= 2
    ensures r.Err? ==> r == GeneralBlock(g).PropagateFailure()
    ensures r.Ok? ==>
      && r.value.0.index == [1] && r.value.0.columns == Strs(GeneralColumns) && |r.value.0.rows| == 1
      && r.value.1.index == [1] && r.value.1.columns == Strs(DateColumns) && |r.value.1.rows| == 1
      && (forall k :: 0 <= k < 4 ==> r.value.0.rows[0][k] == GeneralCell(g, k))
      && (forall k :: 0 <= k < 4 ==> r.value.1.rows[0][k] == GeneralCell(g, 4 + k))
  {
    var row :- GeneralBlock(g);
    var general: Frame := Table([1], Strs(GeneralColumns), [row[..4]]);
    var dates: Frame := Table([1], Strs(DateColumns), [row[4..]]);
    Ok((general, dates))
  }

  /** The first of names the workbook lacks. */
  function FirstAbsent(f: ExcelFile, names: seq<string>): (r: Option<string>)
    ensures r.None? <==> forall k :: 0 <= k < |names| ==> names[k] in f
    ensures r.Some? ==> r.value !in f && exists k :: 0 <= k < |names| && names[k] == r.value && forall i :: 0 <= i < k ==> names[i] in f
  {
    if names == [] then None
    else if names[0] !in f then Some(names[0])
    else FirstAbsent(f, names[1..])
  }

  /** The workbook has every sheet `load` reads. */
  predicate HasSheets(f: ExcelFile) {
    && "GENERAL" in f && "VARIABLES" in f && "DATA" in f && "SOURCES" in f
    && "NOTES" in f && "METHODS" in f && "YEARS" in f && "LOGS" in f
  }

  lemma PresentSheets(f: ExcelFile)
    requires "GENERAL" in f
    ensures FirstAbsent(f, SheetNames[1..]).None? <==> HasSheets(f)
  {
    var ns := SheetNames[1..];
    assert ns == ["VARIABLES", "DATA", "SOURCES", "NOTES", "METHODS", "YEARS", "LOGS"];
    assert ns[0] == "VARIABLES" && ns[1] == "DATA" && ns[2] == "SOURCES" && ns[3] == "NOTES";
    assert ns[4] == "METHODS" && ns[5] == "YEARS" && ns[6] == "LOGS";
  }

  /** What `load` puts under each key: the two halves of GENERAL, or the sheet of that name read as a table. */
  function LoadedTable(f: ExcelFile, split: (Frame, Frame), key: string): Frame
    requires HasSheets(f)
  {
    if key == "general" then split.0
    else if key == "dates" then split.1
    else if key == "variables" then ReadTable(f["VARIABLES"])
    else if key == "data" then ReadTable(f["DATA"])
    else if key == "sources" then ReadTable(f["SOURCES"])
    else if key == "notes" then ReadTable(f["NOTES"])
    else if key == "methods" then ReadTable(f["METHODS"])
    else if key == "years" then ReadTable(f["YEARS"])
    else ReadTable(f["LOGS"])
  }

  /** The data dict built from a workbook that has every sheet. */
  function Loaded(f: ExcelFile, split: (Frame, Frame)): (r: DataDict)
    requires HasSheets(f)
    ensures r.Keys == LoadedKeys
    ensures forall key :: key in r ==> r[key] == LoadedTable(f, split, key)
  {
    map key | key in LoadedKeys :: LoadedTable(f, split, key)
  }

  /**
   * `load(file=...)`: GENERAL is read and split first, then the seven table
   * sheets in order; the first failure escapes.
   */
  function Load(file: Option<ExcelFile>): (r: Result<DataDict>)
    ensures file.None? ==> r == Err(ValueError(NoFile))
    ensures r.Ok? <==>
      && file.Some? && "GENERAL" in file.value && SplitGeneral(file.value["GENERAL"]).Ok?
      && HasSheets(file.value)
    ensures r.Ok? ==> r.value == Loaded(file.value, SplitGeneral(file.value["GENERAL"]).value)
    ensures file.Some? && "GENERAL" in file.value && SplitGeneral(file.value["GENERAL"]).Err? ==>
      r == Err(SplitGeneral(file.value["GENERAL"]).error)
    ensures file.Some? && "GENERAL" !in file.value ==> r == Err(ValueError("Worksheet named 'GENERAL' not found"))
    ensures file.Some? && "GENERAL" in file.value && SplitGeneral(file.value["GENERAL"]).Ok? && FirstAbsent(file.value, SheetNames[1..]).Some? ==>
      r == Err(ValueError("Worksheet named '" + FirstAbsent(file.value, SheetNames[1..]).value + "' not found"))
  {
    if file.None? then Err(ValueError(NoFile))
    else
      var f := file.value;
      var g :- ReadSheet(f, "GENERAL");
      var split :- SplitGeneral(g);
      match FirstAbsent(f, SheetNames[1..])
      case Some(n) => ReadSheet(f, n).PropagateFailure()
      case None =>
        PresentSheets(f);
        Ok(Loaded(f, split))
  }

  // ---- store: what each sheet receives ----

  /** What creating one sheet leaves: its name, its cells, and the exception raised while filling it. */
  datatype SheetOutcome = SheetOutcome(name: string, calls: seq<WriteCall>, error: Option<PyError>)

  /** The three title rows, each merged over columns A and B, then the labels down column A from row 4. */
  const LabelCalls: seq<WriteCall> := [
    MergeCall(0, 0, 1, Str(Banner[0])),
    MergeCall(1, 0, 1, Str(Banner[1])),
    MergeCall(2, 0, 1, Str(Banner[2])),
    ColumnCall(4, 0, Strs(GeneralLabels))]

  /** `pd.concat([general.loc[1, :], dates.loc[1, :]], ignore_index=True)` */
  function GeneralValues(d: DataDict): (r: Result<seq<Cell>>)
    ensures r.Ok? <==> "general" in d && 1 in d["general"].index && "dates" in d && 1 in d["dates"].index
    ensures r.Ok? ==> r.value == LocRow(d["general"], 1).value + LocRow(d["dates"], 1).value
  {
    var general :- Get(d, "general");
    var g :- LocRow(general, 1);
    var dates :- Get(d, "dates");
    var t :- LocRow(dates, 1);
    Ok(g + t)
  }

  /** `_create_general_sheet`: the title rows and the labels, then the values down column B from row 4. */
  function GeneralSheet(d: DataDict): SheetOutcome {
    match GeneralValues(d)
    case Err(e) => SheetOutcome("GENERAL", LabelCalls, Some(e))
    case Ok(vs) => SheetOutcome("GENERAL", LabelCalls + [ColumnCall(4, 1, vs)], None)
  }

  /** The fixed header row, then each column of t, with NaN made '', from row 1 down. */
  function VariablesCalls(t: Frame): seq<WriteCall> {
    var filled := FillNa(t, Str(""));
    [RowCall(0, 0, Strs(VariablesHeader))] + ColumnCalls(filled, |filled.columns|)
  }

  /** `_create_variables_sheet` */
  function VariablesSheet(d: DataDict): SheetOutcome {
    match Get(d, "variables")
    case Err(e) => SheetOutcome("VARIABLES", [], Some(e))
    case Ok(t) => SheetOutcome("VARIABLES", VariablesCalls(t), None)
  }

  /** The data dict after `_create_variables_sheet` replaced the variables table by its NaN-free copy. */
  function FilledVariables(d: DataDict): (r: DataDict)
    ensures r.Keys == d.Keys
    ensures forall key :: key in d && key != "variables" ==> r[key] == d[key]
    ensures "variables" in d ==> r["variables"] == FillNa(d["variables"], Str(""))
  {
    if "variables" in d then d["variables" := FillNa(d["variables"], Str(""))] else d
  }

  /** `_create_data_sheet` */
  function DataSheet(d: DataDict): SheetOutcome {
    match Get(d, "data")
    case Err(e) => SheetOutcome("DATA", [], Some(e))
    case Ok(t) => SheetOutcome("DATA", FrameCalls(t), None)
  }

  /** The expected columns the frame lacks, in expected order. */
  function MissingColumns(expected: seq<string>, present: seq<Cell>): (m: seq<string>)
    ensures forall x :: x in m <==> x in expected && Str(x) !in present
    ensures |m| <= |expected|
  {
    if expected == [] then []
    else
      var rest := MissingColumns(expected[..|expected| - 1], present);
      var x := expected[|expected| - 1];
      assert expected == expected[..|expected| - 1] + [x];
      if Str(x) in present then rest else rest + [x]
  }

  function MissingMessage(missing: seq<string>, dataType: string): string {
    "\"" + Join(", ", missing) + "\" column(s) missing from " + dataType + " sheet"
  }

  /**
   * `_validate_sheet_columns(data_type, data, expected)`: KeyError when the
   * table is absent, ValueError naming the missing columns and the table when
   * an expected column is absent; extra columns are never an error.
   */
  function ValidateColumns(dataType: string, d: DataDict, expected: seq<string>): (r: Option<PyError>)
    ensures dataType !in d ==> r == Some(KeyError(dataType))
    ensures dataType in d ==>
      (r.None? <==> forall k :: 0 <= k < |expected| ==> Str(expected[k]) in d[dataType].columns)
    ensures dataType in d && r.Some? ==>
      r == Some(ValueError(MissingMessage(MissingColumns(expected, d[dataType].columns), dataType)))
  {
    if dataType !in d then Some(KeyError(dataType))
    else
      var missing := MissingColumns(expected, d[dataType].columns);
      if |missing| > 0 then
        assert missing[0] in missing;
        Some(ValueError(MissingMessage(missing, dataType)))
      else
        assert forall k :: 0 <= k < |expected| ==> expected[k] in expected;
        None
  }

  /** `_create_<key>_sheet` for the reference sheets and LOGS: validate, project, then write the frame. */
  function ProjectedSheet(d: DataDict, key: string, name: string, expected: seq<string>): SheetOutcome {
    match ValidateColumns(key, d, expected)
    case Some(e) => SheetOutcome(name, [], Some(e))
    case None =>
      assert forall k :: 0 <= k < |expected| ==> Strs(expected)[k] in d[key].columns;
      SheetOutcome(name, FrameCalls(Project(d[key], Strs(expected)).value), None)
  }

  /** Step k of `store`, read against the data dict d. */
  function StoreStep(d: DataDict, k: nat): (o: SheetOutcome)
    requires k < |SheetNames|
    ensures o.name == SheetNames[k]
  {
    if k == 0 then GeneralSheet(d)
    else if k == 1 then VariablesSheet(d)
    else if k == 2 then DataSheet(d)
    else if k < 7 then ProjectedSheet(d, SheetKeys[k], SheetNames[k], ReferenceColumns)
    else ProjectedSheet(d, "logs", "LOGS", LogColumns)
  }

  /** A sheet's name and the cells its calls leave on a new sheet. */
  function Rendered(o: SheetOutcome): (string, Grid) {
    (o.name, Replay(Empty, o.calls))
  }

  /** What each of the eight steps of `store` does, read against the data dict d. */
  function Outcomes(d: DataDict): (os: seq<SheetOutcome>)
    ensures Describes(os, d)
  {
    seq(|SheetNames|, k requires 0 <= k < |SheetNames| => StoreStep(d, k))
  }

  /** os lists, in order, what the steps of `store` do on d. */
  predicate Describes(os: seq<SheetOutcome>, d: DataDict) {
    |os| == |SheetNames| && forall k {:trigger StoreStep(d, k)} :: 0 <= k < |SheetNames| ==> os[k] == StoreStep(d, k)
  }

  /** The exception escaping the first n steps: that of the first step that raised, if any. */
  function Raised(os: seq<SheetOutcome>, n: nat): Option<PyError>
    requires n <= |os|
  {
    if n == 0 then None
    else if Raised(os, n - 1).Some? then Raised(os, n - 1)
    else os[n - 1].error
  }

  /** The sheets in the workbook after the first n steps: every step up to and including the first that raised. */
  function Written(os: seq<SheetOutcome>, n: nat): seq<(string, Grid)>
    requires n <= |os|
  {
    if n == 0 then []
    else if Raised(os, n - 1).Some? then Written(os, n - 1)
    else Written(os, n - 1) + [Rendered(os[n - 1])]
  }

  /** The data dict after `store`: the variables table is NaN-free once its sheet was reached. */
  function AfterStore(d: DataDict): DataDict {
    if GeneralSheet(d).error.None? then FilledVariables(d) else d
  }

  // ---- store: the imperative part ----

  /** The caller's data dict, which `store` updates in place. */
  class Dataset {
    var tables: DataDict

    constructor (tables: DataDict)
      ensures this.tables == tables
    {
      this.tables := tables;
    }
  }

  /** The workbook gained one sheet, last, holding exactly what o describes. */
  ghost predicate Added(wb: Workbook, before: seq<Sheet>, o: SheetOutcome)
    reads wb, wb.sheets
  {
    && |wb.sheets| == |before| + 1 && wb.sheets[..|before|] == before
    && (wb.sheets[|before|].name, wb.sheets[|before|].grid) == Rendered(o)
  }

  method CreateGeneralSheet(d: DataDict, wb: Workbook) returns (raised: Option<PyError>)
    modifies wb
    ensures Added(wb, old(wb.sheets), GeneralSheet(d)) && raised == GeneralSheet(d).error
    ensures wb.closed == old(wb.closed)
  {
    var s := wb.AddWorksheet("GENERAL");
    s.MergeRange(0, 0, 1, Str(Banner[0]));
    ReplaySnoc(Empty, [], LabelCalls[0]);
    s.MergeRange(1, 0, 1, Str(Banner[1]));
    ReplaySnoc(Empty, LabelCalls[..1], LabelCalls[1]);
    s.MergeRange(2, 0, 1, Str(Banner[2]));
    ReplaySnoc(Empty, LabelCalls[..2], LabelCalls[2]);
    s.WriteColumn(4, 0, Strs(GeneralLabels));
    ReplaySnoc(Empty, LabelCalls[..3], LabelCalls[3]);
    assert LabelCalls[..1] == [LabelCalls[0]] && LabelCalls[..2] == LabelCalls[..1] + [LabelCalls[1]];
    assert LabelCalls[..3] == LabelCalls[..2] + [LabelCalls[2]] && LabelCalls == LabelCalls[..3] + [LabelCalls[3]];
    var values := GeneralValues(d);
    if values.Err? {
      return Some(values.error);
    }
    s.WriteColumn(4, 1, values.value);
    ReplaySnoc(Empty, LabelCalls, ColumnCall(4, 1, values.value));
    return None;
  }

  method CreateVariablesSheet(data: Dataset, wb: Workbook) returns (raised: Option<PyError>)
    modifies data, wb
    ensures Added(wb, old(wb.sheets), VariablesSheet(old(data.tables))) && raised == VariablesSheet(old(data.tables)).error
    ensures data.tables == FilledVariables(old(data.tables)) && wb.closed == old(wb.closed)
  {
    var s := wb.AddWorksheet("VARIABLES");
    var found := Get(data.tables, "variables");
    if found.Err? {
      return Some(found.error);
    }
    s.WriteRow(0, 0, Strs(VariablesHeader));
    data.tables := data.tables["variables" := FillNa(found.value, Str(""))];
    s.WriteColumns(data.tables["variables"]);
    ReplayRowThenColumns(Empty, Strs(VariablesHeader), data.tables["variables"]);
    return None;
  }

  method CreateDataSheet(d: DataDict, wb: Workbook) returns (raised: Option<PyError>)
    modifies wb
    ensures Added(wb, old(wb.sheets), DataSheet(d)) && raised == DataSheet(d).error
    ensures wb.closed == old(wb.closed)
  {
    var s := wb.AddWorksheet("DATA");
    var found := Get(d, "data");
    if found.Err? {
      return Some(found.error);
    }
    s.WriteFrame(found.value);
    ReplayFrame(Empty, found.value);
    return None;
  }

  method CreateProjectedSheet(d: DataDict, wb: Workbook, key: string, name: string, expected: seq<string>)
    returns (raised: Option<PyError>)
    modifies wb
    ensures Added(wb, old(wb.sheets), ProjectedSheet(d, key, name, expected))
    ensures raised == ProjectedSheet(d, key, name, expected).error && wb.closed == old(wb.closed)
  {
    var s := wb.AddWorksheet(name);
    raised := ValidateColumns(key, d, expected);
    if raised.Some? {
      return;
    }
    var projected := Project(d[key], Strs(expected));
    s.WriteFrame(projected.value);
    ReplayFrame(Empty, projected.value);
  }

  /**
   * Step k of `store`, k being the position of its sheet, on the data dict
   * that steps 0 .. k - 1 left, which is d except that the variables table is
   * NaN-free once step 1 ran.
   */
  method CreateSheet(data: Dataset, wb: Workbook, k: nat, ghost d: DataDict, ghost os: seq<SheetOutcome>)
    returns (raised: Option<PyError>)
    requires Describes(os, d) && k < |SheetNames| && data.tables == TablesBefore(d, k)
    modifies data, wb
    ensures Snapshot(wb.sheets) == old(Snapshot(wb.sheets)) + [Rendered(os[k])]
    ensures raised == os[k].error
    ensures data.tables == TablesBefore(d, k + 1)
    ensures wb.closed == old(wb.closed)
  {
    var e := data.tables;
    ghost var before := wb.sheets;
    assert os[k] == StoreStep(d, k);
    if k != 1 {
      StepsIgnoreVariables(d, k);
    }
    if k == 0 {
      raised := CreateGeneralSheet(e, wb);
    } else if k == 1 {
      raised := CreateVariablesSheet(data, wb);
    } else if k == 2 {
      raised := CreateDataSheet(e, wb);
    } else if k < 7 {
      raised := CreateProjectedSheet(e, wb, SheetKeys[k], SheetNames[k], ReferenceColumns);
    } else {
      raised := CreateProjectedSheet(e, wb, "logs", "LOGS", LogColumns);
    }
    SnapshotAdded(wb, before, StoreStep(e, k));
  }

  /**
   * `store(data, file=...)`: ValueError without a file; otherwise a new
   * workbook receives the sheets in order until one raises, the caller's
   * variables table is replaced by its NaN-free copy once its sheet is
   * reached, and the workbook is closed (written) only when every sheet was
   * filled. The sheets are created by position; `store` calls the eight
   * `_create_*_sheet` methods one after the other.
   */
  method Store(data: Dataset, file: Option<string>) returns (wb: Workbook?, raised: Option<PyError>)
    modifies data
    ensures file.None? ==> wb == null && raised == Some(ValueError(NoFile)) && data.tables == old(data.tables)
    ensures file.Some? ==>
      && wb != null && fresh(wb) && wb.file == file.value
      && Snapshot(wb.sheets) == Written(Outcomes(old(data.tables)), |SheetNames|)
      && raised == Raised(Outcomes(old(data.tables)), |SheetNames|)
      && (wb.closed <==> raised.None?)
      && data.tables == AfterStore(old(data.tables))
  {
    if file.None? {
      return null, Some(ValueError(NoFile));
    }
    ghost var d := data.tables;
    wb := new Workbook(file.value);
    raised := FillWorkbook(data, wb, d, Outcomes(d));
    assert Outcomes(d)[0] == StoreStep(d, 0);
    if raised.None? {
      wb.Close();
    }
  }

  /** The eight sheet creators of `store`, in order, each run on what the previous ones left, until one raises. */
  method FillWorkbook(data: Dataset, wb: Workbook, ghost d: DataDict, ghost os: seq<SheetOutcome>)
    returns (raised: Option<PyError>)
    requires Describes(os, d) && data.tables == d && wb.sheets == [] && !wb.closed
    modifies data, wb
    ensures Snapshot(wb.sheets) == Written(os, |os|) && raised == Raised(os, |os|)
    ensures data.tables == (if os[0].error.None? then FilledVariables(d) else d) && !wb.closed
  {
    var k := 0;
    raised := None;
    while k < |SheetNames| && raised.None?
      invariant 0 <= k <= |os| && !wb.closed
      invariant raised == Raised(os, k) && Snapshot(wb.sheets) == Written(os, k)
      invariant k >= 2 ==> os[0].error.None?
      invariant data.tables == TablesBefore(d, k)
    {
      StepAdds(os, k);
      raised := CreateSheet(data, wb, k, d, os);
      k := k + 1;
    }
    if k < |SheetNames| {
      StopsAt(os, k, |os|);
    }
    FinalTables(os, d, k);
  }

  /** A step reached with no exception so far adds its sheet and passes on its own exception. */
  lemma StepAdds(os: seq<SheetOutcome>, k: nat)
    requires k < |os| && Raised(os, k).None?
    ensures Written(os, k + 1) == Written(os, k) + [Rendered(os[k])] && Raised(os, k + 1) == os[k].error
  {
  }

  /** The caller's data dict as step k of `store` finds it. */
  function TablesBefore(d: DataDict, k: nat): DataDict {
    if k >= 2 then FilledVariables(d) else d
  }

  lemma FinalTables(os: seq<SheetOutcome>, d: DataDict, k: nat)
    requires 1 <= k <= |os| == |SheetNames| && (k == |os| || Raised(os, k).Some?)
    requires k >= 2 ==> os[0].error.None?
    ensures TablesBefore(d, k) == if os[0].error.None? then FilledVariables(d) else d
  {
    if k == 1 {
      assert Raised(os, 1) == os[0].error;
    }
  }

  /** Once a step raised, no later step adds a sheet or changes the exception. */
  lemma {:induction false} StopsAt(os: seq<SheetOutcome>, n: nat, m: nat)
    requires n <= m <= |os| && Raised(os, n).Some?
    ensures Written(os, m) == Written(os, n) && Raised(os, m) == Raised(os, n)
    decreases m
  {
    if m > n {
      StopsAt(os, n, m - 1);
    }
  }
  /** Only the variables step reads the variables table, so filling it leaves every other step as it was. */
  lemma StepsIgnoreVariables(d: DataDict, k: nat)
    requires k < |SheetNames| && k != 1
    ensures StoreStep(FilledVariables(d), k) == StoreStep(d, k)
  {
    var e := FilledVariables(d);
    if k == 0 {
      assert GeneralValues(e) == GeneralValues(d);
    } else if k == 2 {
      assert Get(e, "data") == Get(d, "data");
    } else if k < 7 {
      ProjectedIgnoresVariables(d, SheetKeys[k], SheetNames[k], ReferenceColumns);
    } else {
      ProjectedIgnoresVariables(d, "logs", "LOGS", LogColumns);
    }
  }

  lemma ProjectedIgnoresVariables(d: DataDict, key: string, name: string, expected: seq<string>)
    requires key != "variables"
    ensures ProjectedSheet(FilledVariables(d), key, name, expected) == ProjectedSheet(d, key, name, expected)
  {
    assert ValidateColumns(key, FilledVariables(d), expected) == ValidateColumns(key, d, expected);
  }

  lemma SnapshotAdded(wb: Workbook, before: seq<Sheet>, o: SheetOutcome)
    requires Added(wb, before, o)
    ensures Snapshot(wb.sheets) == Snapshot(before) + [Rendered(o)]
  {
    assert wb.sheets == before + [wb.sheets[|before|]];
  }
}

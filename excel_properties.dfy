/**
 * What the Excel codec promises across its operations: the order and names
 * of the sheets `store` writes, when it succeeds, what a stored sheet holds,
 * and what `load` gives back for a stored GENERAL sheet.
 */
module ExcelProperties {
  import opened PyValues
  import opened Tables
  import opened Worksheet
  import opened ExcelCodec
  import BasicValidator
  import BasicValidatorProperties

  // ---- the sheets `store` writes ----

  /** No exception escapes the first n steps exactly when none of them raised. */
  lemma {:induction false} RaisedIffSomeStep(os: seq<SheetOutcome>, n: nat)
    requires n <= |os|
    ensures Raised(os, n).None? <==> forall j :: 0 <= j < n ==> os[j].error.None?
  {
    if n > 0 {
      RaisedIffSomeStep(os, n - 1);
    }
  }

  /**
   * The workbook holds the sheets of steps 0, 1, ... in order, each as its
   * step left it, and all n of them when none raised.
   */
  lemma {:induction false} WrittenInOrder(os: seq<SheetOutcome>, n: nat)
    requires n <= |os|
    ensures |Written(os, n)| <= n
    ensures forall j :: 0 <= j < |Written(os, n)| ==> Written(os, n)[j] == Rendered(os[j])
    ensures Raised(os, n).None? ==> |Written(os, n)| == n
  {
    if n > 0 {
      WrittenInOrder(os, n - 1);
    }
  }

  /**
   * When a step raised, the last sheet written is that of the step whose
   * exception escapes, and no earlier step raised.
   */
  lemma {:induction false} WrittenUpToRaise(os: seq<SheetOutcome>, n: nat)
    requires n <= |os| && Raised(os, n).Some?
    ensures 0 < |Written(os, n)| <= n && Raised(os, n) == os[|Written(os, n)| - 1].error
    ensures forall j :: 0 <= j < |Written(os, n)| - 1 ==> os[j].error.None?
  {
    if Raised(os, n - 1).Some? {
      WrittenUpToRaise(os, n - 1);
    } else {
      RaisedIffSomeStep(os, n - 1);
      WrittenInOrder(os, n - 1);
    }
  }

  /**
   * `store` names its sheets GENERAL, VARIABLES, DATA, SOURCES, NOTES,
   * METHODS, YEARS, LOGS in this order, never writes a DATES sheet, and
   * writes all eight exactly when no step raised.
   */
  lemma StoreSheetNames(d: DataDict)
    ensures var w := Written(Outcomes(d), |SheetNames|);
      && |w| <= |SheetNames|
      && (forall j :: 0 <= j < |w| ==> w[j].0 == SheetNames[j] && w[j].0 != "DATES")
      && (|w| == |SheetNames| <== Raised(Outcomes(d), |SheetNames|).None?)
  {
    var os := Outcomes(d);
    WrittenNames(os, d, |SheetNames|);
    NoDatesSheet();
  }

  /** The sheets written by the first n steps carry the names of those steps. */
  lemma WrittenNames(os: seq<SheetOutcome>, d: DataDict, n: nat)
    requires Describes(os, d) && n <= |os|
    ensures |Written(os, n)| <= n && (Raised(os, n).None? ==> |Written(os, n)| == n)
    ensures forall j :: 0 <= j < |Written(os, n)| ==> Written(os, n)[j].0 == SheetNames[j]
  {
    WrittenInOrder(os, n);
    forall j | 0 <= j < |Written(os, n)| ensures Written(os, n)[j].0 == SheetNames[j] {
      assert os[j] == StoreStep(d, j);
    }
  }

  /** No sheet of `store` is called DATES. */
  lemma NoDatesSheet()
    ensures forall j :: 0 <= j < |SheetNames| ==> SheetNames[j] != "DATES"
  {
    forall j | 0 <= j < |SheetNames| ensures SheetNames[j] != "DATES" {
      assert SheetNames[j][0] != 'D' || SheetNames[j][1] != 'A' || SheetNames[j] == "DATA";
    }
  }

  /** Every expected column is among the table's columns. */
  predicate HasColumns(t: Frame, expected: seq<string>) {
    forall c :: 0 <= c < |expected| ==> Str(expected[c]) in t.columns
  }

  /** What step k of `store` needs of the data dict in order not to raise. */
  predicate StepReady(d: DataDict, k: nat)
    requires k < |SheetNames|
  {
    if k == 0 then "general" in d && 1 in d["general"].index && "dates" in d && 1 in d["dates"].index
    else if k == 1 || k == 2 then SheetKeys[k] in d
    else if k < 7 then SheetKeys[k] in d && HasColumns(d[SheetKeys[k]], ReferenceColumns)
    else "logs" in d && HasColumns(d["logs"], LogColumns)
  }

  lemma StepRaisesUnlessReady(d: DataDict, k: nat)
    requires k < |SheetNames|
    ensures StoreStep(d, k).error.None? <==> StepReady(d, k)
  {
    if 3 <= k < 7 {
      ProjectedRaisesUnlessReady(d, SheetKeys[k], SheetNames[k], ReferenceColumns);
    } else if k == 7 {
      ProjectedRaisesUnlessReady(d, "logs", "LOGS", LogColumns);
    }
  }

  lemma ProjectedRaisesUnlessReady(d: DataDict, key: string, name: string, expected: seq<string>)
    ensures ProjectedSheet(d, key, name, expected).error.None? <==> key in d && HasColumns(d[key], expected)
  {
  }

  /**
   * `store` fills every sheet and closes the workbook exactly when every
   * table is present, both general halves have the row labelled 1, and each
   * reference table and the logs have all their expected columns.
   */
  lemma StoreSucceedsIff(d: DataDict)
    ensures Raised(Outcomes(d), |SheetNames|).None? <==> forall k :: 0 <= k < |SheetNames| ==> StepReady(d, k)
  {
    var os := Outcomes(d);
    RaisedIffSomeStep(os, |SheetNames|);
    forall k | 0 <= k < |SheetNames| ensures os[k].error.None? <==> StepReady(d, k) {
      assert os[k] == StoreStep(d, k);
      StepRaisesUnlessReady(d, k);
    }
  }

  // ---- what a stored sheet holds ----

  /** The cells of the sheet step k of `store` leaves. */
  function StepGrid(d: DataDict, k: nat): Grid
    requires k < |SheetNames|
  {
    Rendered(StoreStep(d, k)).1
  }

  /**
   * VARIABLES has the fixed header Variable, Description, Type along row 0,
   * whatever the table's own labels, and below it the table's values, NaN
   * made '', with the j-th value of column i at (j + 1, i); nothing else.
   */
  lemma VariablesSheetCells(d: DataDict, i: nat, j: nat)
    requires "variables" in d
    ensures var t := d["variables"];
      At(StepGrid(d, 1), i, j) ==
        if i == 0 && j < |VariablesHeader| then Some(Str(VariablesHeader[j]))
        else if 1 <= i <= |t.rows| && j < |t.columns| then Some(FillCell(t.rows[i - 1][j], Str("")))
        else None
  {
    var t := d["variables"];
    var filled := FillNa(t, Str(""));
    var header := Strs(VariablesHeader);
    ReplayRowThenColumns(Empty, header, filled);
    PutColumnsAt(PutRow(Empty, 0, 0, header), filled, |filled.columns|, i, j);
    PutRowAt(Empty, 0, 0, header, i, j);
  }

  /** Every cell is `Stable`: it survives a write and a read on any column. */
  predicate StableCells(t: Frame) {
    forall j, i :: 0 <= j < |t.rows| && 0 <= i < |t.columns| ==> Stable(t.rows[j][i])
  }

  /** DATA is the data table itself: reading the stored sheet back gives its labels and values. */
  lemma DataRoundTrip(d: DataDict)
    requires "data" in d && |d["data"].columns| > 0
    requires StableCells(d["data"]) && forall i :: 0 <= i < |d["data"].columns| ==> Stable(d["data"].columns[i])
    ensures ReadTable(StepGrid(d, 2)) == Table(Range(0, |d["data"].rows|), d["data"].columns, d["data"].rows)
  {
    ReplayFrame(Empty, d["data"]);
    ReadBackSheet(d["data"]);
  }

  /** Column lookups do not depend on row labels. */
  lemma ColumnIgnoresIndex(t: Frame, u: Frame, name: Cell)
    requires t.columns == u.columns && t.rows == u.rows
    ensures Column(t, name) == Column(u, name)
  {
    if name in t.columns {
      var i := Pos(t.columns, name).value;
      assert ColumnAt(t, i) == ColumnAt(u, i);
    }
  }

  /** Every name is `Stable` text. */
  predicate StableNames(names: seq<string>) {
    forall c :: 0 <= c < |names| ==> Stable(Str(names[c]))
  }

  /**
   * A projected sheet holds exactly the expected columns, in the expected
   * order: reading it back gives those labels, and under each the values of
   * that column of the table.
   */
  lemma ProjectedReadBack(d: DataDict, key: string, name: string, expected: seq<string>)
    requires key in d && HasColumns(d[key], expected)
    requires |expected| > 0 && StableNames(expected) && StableCells(d[key])
    ensures var t := ReadTable(Replay(Empty, ProjectedSheet(d, key, name, expected).calls));
      && t.columns == Strs(expected) && t.index == Range(0, |d[key].rows|)
      && forall c :: 0 <= c < |expected| ==> Column(t, Str(expected[c])) == Column(d[key], Str(expected[c]))
  {
    var names := Strs(expected);
    ProjectedCalls(d, key, name, expected);
    var p := Project(d[key], names).value;
    ProjectedStable(d[key], expected, p);
    ReplayFrame(Empty, p);
    ReadBackSheet(p);
    var t := ReadTable(Replay(Empty, FrameCalls(p)));
    forall c | 0 <= c < |expected| ensures Column(t, Str(expected[c])) == Column(d[key], Str(expected[c])) {
      ColumnIgnoresIndex(t, p, names[c]);
    }
  }

  /** With every expected column present, the sheet's calls write the projection. */
  lemma ProjectedCalls(d: DataDict, key: string, name: string, expected: seq<string>)
    requires key in d && HasColumns(d[key], expected)
    ensures Project(d[key], Strs(expected)).Ok?
    ensures ProjectedSheet(d, key, name, expected).calls == FrameCalls(Project(d[key], Strs(expected)).value)
  {
    assert ValidateColumns(key, d, expected).None?;
  }

  /** The projection of a table with stable cells onto stable names has stable labels and cells. */
  lemma ProjectedStable(t: Frame, expected: seq<string>, p: Frame)
    requires HasColumns(t, expected) && StableNames(expected) && StableCells(t)
    requires Project(t, Strs(expected)) == Ok(p)
    ensures forall i :: 0 <= i < |p.columns| ==> Stable(p.columns[i])
    ensures forall j, i :: 0 <= j < |p.rows| && 0 <= i < |p.columns| ==> Stable(p.rows[j][i])
  {
    forall j, i | 0 <= j < |p.rows| && 0 <= i < |p.columns| ensures Stable(p.rows[j][i]) {
      var q := Pos(t.columns, Str(expected[i])).value;
      assert p.rows[j][i] == t.rows[j][q];
    }
  }

  /**
   * SOURCES, NOTES, METHODS and YEARS hold exactly iso, strata_variable,
   * strata_value, applyto_variable and value, in this order, each with the
   * values of that column of its table; other columns are dropped.
   */
  lemma ReferenceRoundTrip(d: DataDict, k: nat)
    requires 3 <= k < 7 && SheetKeys[k] in d && HasColumns(d[SheetKeys[k]], ReferenceColumns) && StableCells(d[SheetKeys[k]])
    ensures var t := ReadTable(StepGrid(d, k));
      && t.columns == Strs(ReferenceColumns) && t.index == Range(0, |d[SheetKeys[k]].rows|)
      && forall c :: 0 <= c < |ReferenceColumns| ==>
        Column(t, Str(ReferenceColumns[c])) == Column(d[SheetKeys[k]], Str(ReferenceColumns[c]))
  {
    assert StoreStep(d, k) == ProjectedSheet(d, SheetKeys[k], SheetNames[k], ReferenceColumns);
    ReferenceNamesStable();
    ProjectedReadBack(d, SheetKeys[k], SheetNames[k], ReferenceColumns);
  }

  /** LOGS holds exactly the ten log columns, in their order, each with the values of that column of the logs table. */
  lemma LogsRoundTrip(d: DataDict)
    requires "logs" in d && HasColumns(d["logs"], LogColumns) && StableCells(d["logs"])
    ensures var t := ReadTable(StepGrid(d, 7));
      && t.columns == Strs(LogColumns) && t.index == Range(0, |d["logs"].rows|)
      && forall c :: 0 <= c < |LogColumns| ==> Column(t, Str(LogColumns[c])) == Column(d["logs"], Str(LogColumns[c]))
  {
    assert StoreStep(d, 7) == ProjectedSheet(d, "logs", "LOGS", LogColumns);
    LogNamesStable();
    ProjectedReadBack(d, "logs", "LOGS", LogColumns);
  }

  lemma ReferenceNamesStable()
    ensures StableNames(ReferenceColumns)
  {
    NamesStable(ReferenceColumns);
  }

  lemma LogNamesStable()
    ensures StableNames(LogColumns)
  {
    NamesStable(LogColumns);
  }

  /** Column names in lower-case letters and `_`, starting with a letter, none of them NA text or a parsed word. */
  lemma NamesStable(names: seq<string>)
    requires forall c :: 0 <= c < |names| ==> 0 < |names[c]| <= MaxCellText && 'a' <= names[c][0] <= 'z'
    requires forall c, i :: 0 <= c < |names| && 0 <= i < |names[c]| ==> 'a' <= names[c][i] <= 'z' || names[c][i] == '_'
    requires forall c :: 0 <= c < |names| ==> names[c] !in NaText && names[c] !in ParsedWords
    ensures StableNames(names)
  {
    forall c | 0 <= c < |names| ensures Stable(Str(names[c])) {
      LowerCaseName(names[c]);
      NoColonNoUrl(names[c]);
    }
  }

  /** Text without a colon is no URL. */
  lemma NoColonNoUrl(s: string)
    requires forall i :: 0 <= i < |s| ==> s[i] != ':'
    ensures !IsUrlText(s)
  {
    if IsUrlText(s) {
      UrlHasColon(s);
      assert false;
    }
  }

  /** Every URL prefix ends in ':' or '://'. */
  lemma UrlHasColon(s: string)
    requires IsUrlText(s)
    ensures exists i :: 0 <= i < |s| && s[i] == ':'
  {
    if "http://" <= s { assert s[4] == ':'; }
    else if "https://" <= s { assert s[5] == ':'; }
    else if "ftp://" <= s { assert s[3] == ':'; }
    else if "ftps://" <= s { assert s[4] == ':'; }
    else if "mailto:" <= s { assert s[6] == ':'; }
    else { assert s[8] == ':'; }
  }

  /** A name in lower-case letters and `_` is its own lower case. */
  lemma {:induction false} LowerCaseName(s: string)
    requires forall i :: 0 <= i < |s| ==> 'a' <= s[i] <= 'z' || s[i] == '_'
    ensures Lower(s) == s
  {
    if s != [] {
      LowerCaseName(s[1..]);
    }
  }

  // ---- GENERAL: store, then load ----

  /** The eight GENERAL values `store` writes down column B. */
  lemma GeneralSheetCells(d: DataDict, k: nat)
    requires GeneralValues(d).Ok? && k < |GeneralValues(d).value|
    ensures At(StepGrid(d, 0), 4 + k, 1) == Some(GeneralValues(d).value[k])
    ensures |GeneralValues(d).value| >= 8 ==> StepGrid(d, 0).nrows >= 12 && StepGrid(d, 0).ncols >= 2
  {
    var vs := GeneralValues(d).value;
    ReplayAppend(Empty, LabelCalls, [ColumnCall(4, 1, vs)]);
    assert [ColumnCall(4, 1, vs)][..0] == [];
    PutColumnAt(Replay(Empty, LabelCalls), 4, 1, vs, 4 + k, 1);
  }

  /**
   * load after store gives back the eight GENERAL values in their order: the
   * first four as the general row, the last four as the dates row.
   */
  lemma GeneralRoundTrip(d: DataDict)
    requires GeneralValues(d).Ok? && |GeneralValues(d).value| == 8
    requires forall k :: 0 <= k < 8 ==> Stable(GeneralValues(d).value[k])
    ensures SplitGeneral(StepGrid(d, 0)).Ok?
    ensures SplitGeneral(StepGrid(d, 0)).value.0.rows == [GeneralValues(d).value[..4]]
    ensures SplitGeneral(StepGrid(d, 0)).value.1.rows == [GeneralValues(d).value[4..]]
  {
    var vs := GeneralValues(d).value;
    var g := StepGrid(d, 0);
    GeneralSheetCells(d, 0);
    GeneralSheetCells(d, 7);
    InsideExtent(g, 11, 1);
    forall k | 0 <= k < 8 ensures GeneralCell(g, k) == vs[k] {
      GeneralSheetCells(d, k);
    }
    var r := SplitGeneral(g).value;
    assert r.0.rows[0] == vs[..4];
    assert r.1.rows[0] == vs[4..];
  }

  /**
   * A general and a dates table as `load` builds them, one row labelled 1
   * under the eight field names, come back unchanged from load after store.
   */
  lemma GeneralTablesRoundTrip(d: DataDict)
    requires "general" in d && d["general"].index == [1] && d["general"].columns == Strs(GeneralColumns)
    requires "dates" in d && d["dates"].index == [1] && d["dates"].columns == Strs(DateColumns)
    requires StableCells(d["general"]) && StableCells(d["dates"])
    ensures SplitGeneral(StepGrid(d, 0)) == Ok((d["general"], d["dates"]))
  {
    var g := d["general"];
    var t := d["dates"];
    assert |g.rows| == 1 && |t.rows| == 1;
    assert LocRow(g, 1).value == g.rows[0] && LocRow(t, 1).value == t.rows[0];
    var vs := GeneralValues(d).value;
    assert vs == g.rows[0] + t.rows[0];
    forall k | 0 <= k < 8 ensures Stable(vs[k]) {
      if k < 4 {
        assert vs[k] == g.rows[0][k];
      } else {
        assert vs[k] == t.rows[0][k - 4];
      }
    }
    GeneralRoundTrip(d);
    assert vs[..4] == g.rows[0] && vs[4..] == t.rows[0];
    assert g.rows == [g.rows[0]] && t.rows == [t.rows[0]];
  }

  /** The three merged title rows of GENERAL. */
  function Titled(): Grid {
    Apply(Apply(Apply(Empty, LabelCalls[0]), LabelCalls[1]), LabelCalls[2])
  }

  /** The title rows and the labels of GENERAL, call by call. */
  lemma LabelGrid()
    ensures Replay(Empty, LabelCalls) == PutColumn(Titled(), 4, 0, Strs(GeneralLabels))
  {
    var m0, m1, m2 := LabelCalls[0], LabelCalls[1], LabelCalls[2];
    ReplaySnoc(Empty, [], m0);
    ReplaySnoc(Empty, [m0], m1);
    ReplaySnoc(Empty, [m0, m1], m2);
    ReplaySnoc(Empty, [m0, m1, m2], LabelCalls[3]);
    assert [] + [m0] == [m0] && [m0] + [m1] == [m0, m1] && [m0, m1] + [m2] == [m0, m1, m2];
    assert [m0, m1, m2] + [LabelCalls[3]] == LabelCalls;
  }

  /** Each merged title leaves a blank in column B of its row. */
  lemma TitledColumnB(r: nat)
    ensures At(Titled(), r, 1) == if r < 3 then Some(Null) else None
    ensures Titled().ncols == 2
  {
  }

  /** Column B of GENERAL: blanks on the merged title rows, the values from row 4 down, nothing else. */
  lemma GeneralColumnB(d: DataDict, r: nat)
    requires GeneralValues(d).Ok?
    ensures var vs := GeneralValues(d).value;
      At(StepGrid(d, 0), r, 1) == if r < 3 then Some(Null) else if 4 <= r < 4 + |vs| then Some(vs[r - 4]) else None
    ensures StepGrid(d, 0).ncols == 2
  {
    var vs := GeneralValues(d).value;
    var labelled := PutColumn(Titled(), 4, 0, Strs(GeneralLabels));
    LabelGrid();
    ReplayAppend(Empty, LabelCalls, [ColumnCall(4, 1, vs)]);
    assert [ColumnCall(4, 1, vs)][..0] == [];
    PutColumnAt(labelled, 4, 1, vs, r, 1);
    PutColumnAt(Titled(), 4, 0, Strs(GeneralLabels), r, 1);
    TitledColumnB(r);
  }

  /**
   * A general and dates row whose every value is empty or None leaves column
   * B of GENERAL blank; the reader drops it, so loading the stored GENERAL
   * sheet raises KeyError.
   */
  lemma BlankGeneralUnreadable(d: DataDict)
    requires GeneralValues(d).Ok?
    requires forall k :: 0 <= k < |GeneralValues(d).value| ==> GeneralValues(d).value[k] in {Null, Str("")}
    ensures SplitGeneral(StepGrid(d, 0)) == Err(KeyError("[1]"))
  {
    var g := StepGrid(d, 0);
    GeneralColumnB(d, 0);
    forall r: nat | r < g.nrows ensures IsBlank(g, r, 1) {
      GeneralColumnB(d, r);
    }
    assert BlankColumn(g, 1);
  }

  // ---- load, then validate ----

  /**
   * `load` labels the single dates row 1 while the basic validator reads the
   * row labelled 0, so every date field of a loaded workbook is reported as
   * not defined, whatever the sheet holds.
   */
  lemma LoadedDatesNotFound(file: Option<ExcelFile>)
    requires Load(file).Ok?
    ensures BasicValidator.Dates(Load(file).value) == BasicValidator.Outcome([], [
      BasicValidator.NoDate("date_accessed"), BasicValidator.NoDate("date_closing"),
      BasicValidator.NoDate("date_published"), BasicValidator.NoDate("date_delivery")], None)
  {
    var f := file.value;
    var split := SplitGeneral(f["GENERAL"]).value;
    assert Load(file).value["dates"] == split.1;
    BasicValidatorProperties.DatesNeedRowZero(Load(file).value, 1);
  }
}

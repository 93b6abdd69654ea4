/**
 * What the old-template `load` promises: the error it raises for each kind of
 * bad input, the names and types every variable ends up with, the numbered
 * `id` column, and the four date columns rewritten from row 0.
 */
module OldExcelProperties {
  import opened PyValues
  import opened Tables
  import opened Worksheet
  import ExcelCodec
  import DateFormat
  import opened OldExcelCodec

  // ---- load, stage by stage ----

  /** Without a file `load` raises ValueError before reading anything. */
  lemma LoadWithoutFile(kwargs: map<string, string>, published: seq<Cell>)
    ensures LoadSpec(None, kwargs, published) == Err(ValueError(ExcelCodec.NoFile))
  {
  }

  /** The sheet stages `load` runs before it looks at the database parameters. */
  predicate SheetsRead(f: ExcelCodec.ExcelFile) {
    && "WELCOME" in f && Welcome(f["WELCOME"]).Ok?
    && DataAndVariables(f).Ok? && RenamedAll(f, RenamedSheets).Ok?
  }

  /**
   * Once every sheet has been read, the first of host, db, user and password
   * that is missing raises KeyError, in that order; with all four present the
   * outcome is the date loop's.
   */
  lemma CredentialsChecked(f: ExcelCodec.ExcelFile, kwargs: map<string, string>, published: seq<Cell>)
    requires SheetsRead(f)
    ensures "host" !in kwargs ==> LoadSpec(Some(f), kwargs, published) == Err(KeyError("host"))
    ensures "host" in kwargs && "db" !in kwargs ==> LoadSpec(Some(f), kwargs, published) == Err(KeyError("db"))
    ensures "host" in kwargs && "db" in kwargs && "user" !in kwargs ==> LoadSpec(Some(f), kwargs, published) == Err(KeyError("user"))
    ensures "host" in kwargs && "db" in kwargs && "user" in kwargs && "password" !in kwargs ==>
      LoadSpec(Some(f), kwargs, published) == Err(KeyError("password"))
    ensures (forall k :: 0 <= k < |Credentials| ==> Credentials[k] in kwargs) ==> Prepare(Some(f), kwargs, published).Ok?
  {
    assert Credentials == ["host", "db", "user", "password"];
    var c := Credentials;
    assert c[0] == "host" && c[1] == "db" && c[2] == "user" && c[3] == "password";
    assert c[1..][0] == "db" && c[2..][0] == "user" && c[3..][0] == "password" && c[4..] == [];
    assert FirstMissing(kwargs, c[4..]) == None;
  }

  /** WELCOME missing, or not eight rows deep with a second column, stops `load` at once. */
  lemma WelcomeChecked(f: ExcelCodec.ExcelFile, kwargs: map<string, string>, published: seq<Cell>)
    ensures "WELCOME" !in f ==> LoadSpec(Some(f), kwargs, published) == Err(ValueError("Worksheet named 'WELCOME' not found"))
    ensures "WELCOME" in f && ExcelCodec.GeneralBlock(f["WELCOME"]).Err? ==>
      LoadSpec(Some(f), kwargs, published) == Err(ExcelCodec.GeneralBlock(f["WELCOME"]).error)
  {
  }

  /** A successful `load` got through every stage before the date loop, and through the loop. */
  lemma LoadPrepared(file: Option<ExcelCodec.ExcelFile>, kwargs: map<string, string>, published: seq<Cell>)
    requires LoadSpec(file, kwargs, published).Ok?
    ensures Prepare(file, kwargs, published).Ok?
    ensures Rewritten(Prepare(file, kwargs, published).value.dates, |RewrittenFields|).Ok?
    ensures LoadSpec(file, kwargs, published).value ==
      Assemble(Prepare(file, kwargs, published).value, Rewritten(Prepare(file, kwargs, published).value.dates, |RewrittenFields|).value)
  {
  }

  /**
   * The stages before the date loop succeed only on a file with every sheet
   * and all four database parameters, and the parts are what the stages read.
   */
  lemma PreparedParts(file: Option<ExcelCodec.ExcelFile>, kwargs: map<string, string>, published: seq<Cell>)
    requires Prepare(file, kwargs, published).Ok?
    ensures file.Some? && SheetsRead(file.value)
    ensures forall k :: 0 <= k < |Credentials| ==> Credentials[k] in kwargs
    ensures var f := file.value; var p := Prepare(file, kwargs, published).value; var refs := RenamedAll(f, RenamedSheets).value;
      && p.general == Welcome(f["WELCOME"]).value
      && (p.data, p.variables) == DataAndVariables(f).value
      && |refs| == 5
      && p.sources == refs[0] && p.notes == refs[1] && p.methods == refs[2] && p.years == refs[3]
      && p.dates == WithPublished(refs[4], published)
  {
  }

  // ---- variables and data ----

  /** A fallback name `_var<i>` is never 'id'. */
  lemma FallbackNotId(i: nat)
    ensures Str("_var" + NatToString(i)) != Str("id")
  {
    assert ("_var" + NatToString(i))[0] == '_';
  }

  /**
   * VARIABLES as `load` leaves it (before NaN is made ''): six columns were
   * read and `type` added; the `id` row comes first, then every variable with
   * its name completed and typed 'string'.
   */
  lemma NumberedVariables(src: Frame, sheet: Frame)
    requires Numbered(src, sheet).Ok?
    ensures var vars := Numbered(src, sheet).value.1;
      && |sheet.columns| == |VariableColumns|
      && vars.columns == ExcelCodec.Strs(VariableColumns) + [Str("type")]
      && vars.index == Range(0, |sheet.rows| + 1) && |vars.rows| == |sheet.rows| + 1 && vars.rows[0] == IdRow
      && (forall j :: 0 <= j < |sheet.rows| ==>
          && vars.rows[j + 1][1] == VariableName(sheet.rows[j][1], j)
          && vars.rows[j + 1][6] == VariableType(vars.rows[j + 1][1])
          && forall i :: 0 <= i < 6 && i != 1 ==> vars.rows[j + 1][i] == sheet.rows[j][i])
  {
    var raw := SetColumns(sheet, ExcelCodec.Strs(VariableColumns)).value;
    var named := NameVariables(raw);
    var vars := WithIdRow(named);
    assert Numbered(src, sheet).value.1 == vars;
    forall j | 0 <= j < |sheet.rows| ensures vars.rows[j + 1] == named.rows[j] {
    }
  }

  /** No variable of a successful load is named 'id': such a name would already label a data column. */
  lemma NumberedNoIdVariable(src: Frame, sheet: Frame)
    requires Numbered(src, sheet).Ok?
    ensures |sheet.columns| == |VariableColumns|
    ensures forall j :: 0 <= j < |sheet.rows| ==> VariableName(sheet.rows[j][1], j) != Str("id")
  {
    var raw := SetColumns(sheet, ExcelCodec.Strs(VariableColumns)).value;
    var named := NameVariables(raw);
    var renamed := SetColumns(StrCells(src), ColumnAt(named, 1)).value;
    assert !HasRowLabel(named, Str("id"));
    assert InsertId(renamed).Ok?;
    forall j | 0 <= j < |sheet.rows| ensures VariableName(sheet.rows[j][1], j) != Str("id") {
      if IsNa(sheet.rows[j][1]) {
        FallbackNotId(j);
      } else {
        assert named.rows[j][1] == renamed.columns[j];
      }
    }
  }

  /**
   * DATA as `load` leaves it: one column per variable was read; the `id`
   * column 1, 2, ... comes first, the columns are named after the variables,
   * and every other value is its text.
   */
  lemma NumberedData(src: Frame, sheet: Frame)
    requires Numbered(src, sheet).Ok?
    ensures var data := Numbered(src, sheet).value.0; var vars := Numbered(src, sheet).value.1;
      && |src.columns| == |sheet.rows| && |vars.rows| == |sheet.rows| + 1 && |vars.columns| == 7
      && data.index == src.index && |data.rows| == |src.rows|
      && |data.columns| == |sheet.rows| + 1 && data.columns[0] == Str("id")
      && (forall i :: 1 <= i <= |sheet.rows| ==> data.columns[i] == vars.rows[i][1])
      && (forall j :: 0 <= j < |src.rows| ==> data.rows[j][0] == Int(j + 1))
      && (forall j, i :: 0 <= j < |src.rows| && 0 <= i < |sheet.rows| ==> data.rows[j][i + 1] == Str(CellText(src, j, i)))
  {
    var raw := SetColumns(sheet, ExcelCodec.Strs(VariableColumns)).value;
    var named := NameVariables(raw);
    var renamed := SetColumns(StrCells(src), ColumnAt(named, 1)).value;
    assert !HasRowLabel(named, Str("id"));
    var data := InsertId(renamed).value;
    var vars := WithIdRow(named);
    assert Numbered(src, sheet) == Ok((data, vars));
    forall i | 1 <= i <= |sheet.rows| ensures data.columns[i] == vars.rows[i][1] {
      assert data.columns[i] == renamed.columns[i - 1];
    }
  }

  /**
   * `astype(str)` of a column pandas reads as datetime64 gives each date
   * without the midnight time `str` would print, and 'NaT' for NaN; every
   * other column gets `str(value)`, 'nan' for NaN.
   */
  lemma StrCellsDates(t: Frame, j: nat, i: nat)
    requires j < |t.rows| && i < |t.columns|
    ensures var c := t.rows[j][i]; var r := StrCells(t).rows[j][i];
      && r.Str?
      && (DateColumn(t, i) && c.DateTime? ==> r.s + " 00:00:00" == PyStr(c))
      && (DateColumn(t, i) && !c.DateTime? ==> IsNa(c) && r.s == "NaT")
      && (!DateColumn(t, i) ==> r.s == PyStr(c))
  {
  }

  /** A column holding a date and a NaN becomes '2020-01-02' and 'NaT'. */
  lemma StrCellsDateExample()
    ensures var t: Frame := Table([0, 1], [Str("d")], [[DateTime(2020, 1, 2)], [Missing]]);
      StrCells(t).rows == [[Str("2020-01-02")], [Str("NaT")]]
  {
    var t: Frame := Table([0, 1], [Str("d")], [[DateTime(2020, 1, 2)], [Missing]]);
    assert DateColumn(t, 0) by {
      assert t.rows[0][0].DateTime?;
    }
    assert ZeroPad(2020, 4) == "2020" && ZeroPad(1, 2) == "01" && ZeroPad(2, 2) == "02";
    assert CellText(t, 0, 0) == "2020-01-02" && CellText(t, 1, 0) == "NaT";
    var r := StrCells(t);
    assert r.rows[0] == [Str("2020-01-02")] && r.rows[1] == [Str("NaT")];
  }

  /**
   * A variable named 'id' in VARIABLES makes `load` raise: the data already
   * has a column `id` when the row numbers are inserted.
   */
  lemma IdVariableRaises(src: Frame, sheet: Frame, j: nat)
    requires |sheet.columns| == |VariableColumns| && |src.columns| == |sheet.rows|
    requires j < |sheet.rows| && sheet.rows[j][1] == Str("id")
    ensures Numbered(src, sheet) == Err(ValueError("cannot insert id, already exists"))
  {
    var raw := SetColumns(sheet, ExcelCodec.Strs(VariableColumns)).value;
    var named := NameVariables(raw);
    var renamed := SetColumns(StrCells(src), ColumnAt(named, 1)).value;
    assert renamed.columns[j] == Str("id");
  }

  /**
   * The variables table `load` returns (NaN made ''): the `id` row first, the
   * only row typed 'integer', and no NaN anywhere.
   */
  lemma FilledVariables(src: Frame, sheet: Frame)
    requires Numbered(src, sheet).Ok?
    ensures var vars := FillNa(Numbered(src, sheet).value.1, Str(""));
      && |vars.rows| > 0 && vars.rows[0] == IdRow
      && vars.columns == ExcelCodec.Strs(VariableColumns) + [Str("type")]
      && (forall j :: 0 <= j < |vars.rows| ==> (vars.rows[j][6] == Str("integer") <==> j == 0))
      && (forall j, i :: 0 <= j < |vars.rows| && 0 <= i < |vars.columns| ==> !IsNa(vars.rows[j][i]))
  {
    NumberedVariables(src, sheet);
    NumberedNoIdVariable(src, sheet);
    FilledTypes(Numbered(src, sheet).value.1, sheet);
  }

  /** Filling the NaN of numbered variables keeps the `id` row in front and every type. */
  lemma FilledTypes(vars: Frame, sheet: Frame)
    requires |vars.columns| == 7 && |sheet.columns| == |VariableColumns|
    requires |vars.rows| == |sheet.rows| + 1 && vars.rows[0] == IdRow
    requires forall j :: 0 <= j < |sheet.rows| ==> VariableName(sheet.rows[j][1], j) != Str("id")
    requires forall j :: 0 <= j < |sheet.rows| ==>
      && vars.rows[j + 1][1] == VariableName(sheet.rows[j][1], j)
      && vars.rows[j + 1][6] == VariableType(vars.rows[j + 1][1])
    ensures var filled := FillNa(vars, Str(""));
      && |filled.rows| > 0 && filled.rows[0] == IdRow
      && (forall j :: 0 <= j < |filled.rows| ==> (filled.rows[j][6] == Str("integer") <==> j == 0))
      && (forall j, i :: 0 <= j < |filled.rows| && 0 <= i < |filled.columns| ==> !IsNa(filled.rows[j][i]))
  {
    var filled := FillNa(vars, Str(""));
    assert filled.rows[0] == IdRow;
    forall j | 0 <= j < |vars.rows| ensures filled.rows[j][6] == Str("integer") <==> j == 0 {
      if j > 0 {
        var k := j - 1;
        assert vars.rows[k + 1][6] == VariableType(VariableName(sheet.rows[k][1], k));
        assert VariableName(sheet.rows[k][1], k) != Str("id");
      }
    }
  }

  /** The variables and data tables of a successful `load` are what DATA and VARIABLES were numbered into. */
  lemma LoadedNumbered(file: Option<ExcelCodec.ExcelFile>, kwargs: map<string, string>, published: seq<Cell>)
    requires LoadSpec(file, kwargs, published).Ok?
    ensures file.Some? && "DATA" in file.value && "VARIABLES" in file.value
    ensures var f := file.value; var n := Numbered(ReadTable(f["DATA"]), ReadTable(f["VARIABLES"]));
      && n.Ok?
      && LoadSpec(file, kwargs, published).value["variables"] == FillNa(n.value.1, Str(""))
      && LoadSpec(file, kwargs, published).value["data"] == n.value.0
  {
    LoadPrepared(file, kwargs, published);
    PreparedParts(file, kwargs, published);
    DataAndVariablesRead(file.value);
  }

  /**
   * After a successful `load`, the only variable typed 'integer' is the `id`
   * row in front, and no value of `variables` is NaN.
   */
  lemma LoadedVariableTypes(file: Option<ExcelCodec.ExcelFile>, kwargs: map<string, string>, published: seq<Cell>)
    requires LoadSpec(file, kwargs, published).Ok?
    ensures var vars := LoadSpec(file, kwargs, published).value["variables"];
      && |vars.rows| > 0 && vars.rows[0] == IdRow
      && vars.columns == ExcelCodec.Strs(VariableColumns) + [Str("type")]
      && (forall j :: 0 <= j < |vars.rows| ==> (vars.rows[j][6] == Str("integer") <==> j == 0))
      && (forall j, i :: 0 <= j < |vars.rows| && 0 <= i < |vars.columns| ==> !IsNa(vars.rows[j][i]))
  {
    LoadedNumbered(file, kwargs, published);
    var f := file.value;
    FilledVariables(ReadTable(f["DATA"]), ReadTable(f["VARIABLES"]));
  }

  /** After a successful `load`, `data` starts with the column `id` holding 1, 2, ... */
  lemma LoadedRowIds(file: Option<ExcelCodec.ExcelFile>, kwargs: map<string, string>, published: seq<Cell>)
    requires LoadSpec(file, kwargs, published).Ok?
    ensures var data := LoadSpec(file, kwargs, published).value["data"];
      && |data.columns| > 0 && data.columns[0] == Str("id")
      && (forall j :: 0 <= j < |data.rows| ==> data.rows[j][0] == Int(j + 1))
  {
    LoadedNumbered(file, kwargs, published);
    var f := file.value;
    NumberedData(ReadTable(f["DATA"]), ReadTable(f["VARIABLES"]));
  }

  // ---- the date rewrite ----

  /** Dropping the first character shifts every window by one. */
  lemma YmdShift(s: string, i: nat)
    requires |s| > 0 && i + 11 <= |s|
    ensures YmdAt(s[1..], i) == YmdAt(s, i + 1)
  {
  }

  /** FindYmd finds nothing exactly when no ten characters of s read `dddd-dd-dd`. */
  lemma {:induction false} FindYmdEmpty(s: string)
    ensures FindYmd(s) == [] <==> forall i :: 0 <= i && i + 10 <= |s| ==> !YmdAt(s, i)
    decreases |s|
  {
    if |s| >= 10 && !YmdAt(s, 0) {
      FindYmdEmpty(s[1..]);
      if FindYmd(s) == [] {
        forall i | 0 < i && i + 10 <= |s| ensures !YmdAt(s, i) {
          YmdShift(s, i - 1);
        }
      } else {
        var i :| 0 <= i && i + 10 <= |s[1..]| && YmdAt(s[1..], i);
        YmdShift(s, i);
      }
    }
  }

  /** A leading match is the first one found, and the search goes on after it. */
  lemma FindYmdHead(a: string, b: string, c: string, rest: string)
    requires |a| == 4 && |b| == 2 && |c| == 2 && AllDigits(a) && AllDigits(b) && AllDigits(c)
    ensures FindYmd(a + "-" + b + "-" + c + rest) == [(a, b, c)] + FindYmd(rest)
  {
    var s := a + "-" + b + "-" + c + rest;
    assert s[..4] == a && s[5..7] == b && s[8..10] == c && s[10..] == rest;
    assert s[4] == '-' && s[7] == '-';
    assert IsDigit(s[0]) && IsDigit(s[1]) && IsDigit(s[2]) && IsDigit(s[3]);
    assert IsDigit(s[5]) && IsDigit(s[6]) && IsDigit(s[8]) && IsDigit(s[9]);
  }

  /** Every match is four digits, two digits and two digits. */
  lemma {:induction false} FindYmdDigits(s: string)
    ensures forall m :: m in FindYmd(s) ==>
      |m.0| == 4 && |m.1| == 2 && |m.2| == 2 && AllDigits(m.0) && AllDigits(m.1) && AllDigits(m.2)
    decreases |s|
  {
    if |s| >= 10 {
      if YmdAt(s, 0) {
        FindYmdDigits(s[10..]);
      } else {
        FindYmdDigits(s[1..]);
      }
    }
  }

  /** A value that is one date `dddd-dd-dd` and nothing else becomes `dd/mm/dddd`. */
  lemma ReformatIso(a: string, b: string, c: string)
    requires |a| == 4 && |b| == 2 && |c| == 2 && AllDigits(a) && AllDigits(b) && AllDigits(c)
    ensures Reformat(Str(a + "-" + b + "-" + c)) == Str(c + "/" + b + "/" + a)
  {
    FindYmdHead(a, b, c, "");
    assert a + "-" + b + "-" + c + "" == a + "-" + b + "-" + c;
  }

  /** Two digits are enough for a number below 100. */
  lemma TwoDigitWidth(n: nat)
    requires n <= 99
    ensures |ZeroPad(n, 2)| == 2
  {
    if n >= 10 {
      assert NatToString(n) == NatToString(n / 10) + [DigitChar(n % 10)];
    }
  }

  /** A timestamp (printed with its midnight time) becomes its day, month and year. */
  lemma ReformatDateTime(y: nat, m: nat, d: nat)
    requires y <= 9999 && m <= 99 && d <= 99
    ensures Reformat(DateTime(y, m, d)) == Str(ZeroPad(d, 2) + "/" + ZeroPad(m, 2) + "/" + ZeroPad(y, 4))
  {
    DateFormat.YearWidth(y);
    TwoDigitWidth(m);
    TwoDigitWidth(d);
    FindYmdHead(ZeroPad(y, 4), ZeroPad(m, 2), ZeroPad(d, 2), " 00:00:00");
  }

  /** NaN prints as 'nan' and None as 'None': neither holds a date, so both become None. */
  lemma ReformatMissing()
    ensures Reformat(Missing) == Null && Reformat(Null) == Null
  {
  }

  /** A character that is not a digit starts no match. */
  lemma FindYmdSkip(s: string)
    requires |s| >= 10 && !IsDigit(s[0])
    ensures FindYmd(s) == FindYmd(s[1..])
  {
  }

  /** Text holding two dates, one space apart, matches twice, and is taken as neither. */
  lemma ReformatTwoDates(a: string, b: string, c: string, a': string, b': string, c': string)
    requires |a| == 4 && |b| == 2 && |c| == 2 && AllDigits(a) && AllDigits(b) && AllDigits(c)
    requires |a'| == 4 && |b'| == 2 && |c'| == 2 && AllDigits(a') && AllDigits(b') && AllDigits(c')
    ensures Reformat(Str(a + "-" + b + "-" + c + " " + a' + "-" + b' + "-" + c')) == Null
  {
    var second := a' + "-" + b' + "-" + c';
    FindYmdHead(a', b', c', "");
    assert second + "" == second;
    FindYmdSkip(" " + second);
    assert (" " + second)[1..] == second;
    FindYmdHead(a, b, c, " " + second);
    assert a + "-" + b + "-" + c + " " + a' + "-" + b' + "-" + c' == a + "-" + b + "-" + c + (" " + second);
  }

  /** The four date fields are distinct names. */
  lemma FieldsDistinct(k: nat, k': nat)
    requires k < |RewrittenFields| && k' < |RewrittenFields| && k != k'
    ensures RewrittenFields[k] != RewrittenFields[k'] && Str(RewrittenFields[k]) != Str(RewrittenFields[k'])
  {
  }

  /** The table has a column for each of the four date fields. */
  predicate HasDateFields(t: Frame) {
    forall k :: 0 <= k < |RewrittenFields| ==> Str(RewrittenFields[k]) in t.columns
  }

  /** Setting a column that exists changes that column in every row and nothing else. */
  lemma SetColumnCells(t: Frame, name: Cell, v: Cell)
    requires name in t.columns
    ensures var r := SetColumn(t, name, v);
      forall j, i :: 0 <= j < |t.rows| && 0 <= i < |t.columns| ==>
        r.rows[j][i] == if i == Pos(t.columns, name).value then v else t.rows[j][i]
  {
  }

  /** The loop raises KeyError('0') on its first pass when there is no row labelled 0, and otherwise never. */
  lemma {:induction false} RewrittenOk(t: Frame, n: nat)
    requires 0 < n <= |RewrittenFields| && HasDateFields(t)
    ensures Rewritten(t, n).Ok? <==> 0 in t.index
    ensures 0 !in t.index ==> Rewritten(t, n) == Err(KeyError("0"))
  {
    if n > 1 {
      RewrittenOk(t, n - 1);
    } else {
      assert IntToString(0) == "0";
    }
  }

  /** With a row labelled 0 every pass succeeds and keeps the labels and the number of rows. */
  lemma {:induction false} RewrittenShape(t: Frame, n: nat)
    requires n <= |RewrittenFields| && HasDateFields(t) && 0 in t.index
    ensures Rewritten(t, n).Ok?
    ensures Rewritten(t, n).value.index == t.index && Rewritten(t, n).value.columns == t.columns
    ensures |Rewritten(t, n).value.rows| == |t.rows|
  {
    if n > 0 {
      RewrittenOk(t, n);
    }
  }

  /**
   * After n passes, each of the first n date columns holds in every row the
   * reformatted value row 0 had at the start.
   */
  lemma RewrittenFieldCells(t: Frame, n: nat)
    requires n <= |RewrittenFields| && HasDateFields(t) && 0 in t.index
    ensures Rewritten(t, n).Ok? && |Rewritten(t, n).value.rows| == |t.rows| && Rewritten(t, n).value.columns == t.columns
    ensures forall k, j :: 0 <= k < n && 0 <= j < |t.rows| ==>
      Rewritten(t, n).value.rows[j][Pos(t.columns, Str(RewrittenFields[k])).value] == Reformat(Loc(t, 0, Str(RewrittenFields[k])).value)
  {
    RewrittenShape(t, n);
    forall k, j | 0 <= k < n && 0 <= j < |t.rows|
      ensures Rewritten(t, n).value.rows[j][Pos(t.columns, Str(RewrittenFields[k])).value] == Reformat(Loc(t, 0, Str(RewrittenFields[k])).value)
    {
      RewrittenFieldCell(t, n, k, j);
    }
  }

  /** One cell of `RewrittenFieldCells`, by induction on the number of passes. */
  lemma {:induction false} RewrittenFieldCell(t: Frame, n: nat, k: nat, j: nat)
    requires k < n <= |RewrittenFields| && HasDateFields(t) && 0 in t.index && j < |t.rows|
    requires Rewritten(t, n).Ok? && |Rewritten(t, n).value.rows| == |t.rows| && Rewritten(t, n).value.columns == t.columns
    ensures Rewritten(t, n).value.rows[j][Pos(t.columns, Str(RewrittenFields[k])).value] == Reformat(Loc(t, 0, Str(RewrittenFields[k])).value)
    decreases n, 1
  {
    if k < n - 1 {
      FieldCellKept(t, n, k, j);
    } else {
      PassFillsField(t, n, k, j);
    }
  }

  /** An earlier field's cell, set by an earlier pass, survives pass n. */
  lemma {:induction false} FieldCellKept(t: Frame, n: nat, k: nat, j: nat)
    requires k < n - 1 && n <= |RewrittenFields| && HasDateFields(t) && 0 in t.index && j < |t.rows|
    requires Rewritten(t, n).Ok? && |Rewritten(t, n).value.rows| == |t.rows| && Rewritten(t, n).value.columns == t.columns
    ensures Rewritten(t, n).value.rows[j][Pos(t.columns, Str(RewrittenFields[k])).value] == Reformat(Loc(t, 0, Str(RewrittenFields[k])).value)
    decreases n, 0
  {
    PassKeepsField(t, n, k, j);
    RewrittenFieldCell(t, n - 1, k, j);
  }

  /** Pass n leaves the column of an earlier date field alone. */
  lemma PassKeepsField(t: Frame, n: nat, k: nat, j: nat)
    requires k < n - 1 && n <= |RewrittenFields| && HasDateFields(t) && 0 in t.index && j < |t.rows|
    requires Rewritten(t, n).Ok? && Rewritten(t, n).value.columns == t.columns && |Rewritten(t, n).value.rows| == |t.rows|
    ensures Rewritten(t, n - 1).Ok?
    ensures Rewritten(t, n - 1).value.columns == t.columns && |Rewritten(t, n - 1).value.rows| == |t.rows|
    ensures Rewritten(t, n).value.rows[j][Pos(t.columns, Str(RewrittenFields[k])).value]
      == Rewritten(t, n - 1).value.rows[j][Pos(t.columns, Str(RewrittenFields[k])).value]
  {
    RewrittenShape(t, n);
    RewrittenShape(t, n - 1);
    var name := Str(RewrittenFields[n - 1]);
    var before := Rewritten(t, n - 1).value;
    RewrittenSnoc(t, n);
    var p := Pos(t.columns, Str(RewrittenFields[k])).value;
    FieldsDistinct(k, n - 1);
    OtherCellKept(before, name, Reformat(Loc(t, 0, name).value), j, p);
  }

  /** Pass k + 1 fills the column of date field k. */
  lemma PassFillsField(t: Frame, n: nat, k: nat, j: nat)
    requires k == n - 1 && 0 < n <= |RewrittenFields| && HasDateFields(t) && 0 in t.index && j < |t.rows|
    ensures Rewritten(t, n).Ok? && Rewritten(t, n).value.columns == t.columns && |Rewritten(t, n).value.rows| == |t.rows|
    ensures Rewritten(t, n).value.rows[j][Pos(t.columns, Str(RewrittenFields[k])).value] == Reformat(Loc(t, 0, Str(RewrittenFields[k])).value)
  {
    RewrittenShape(t, n);
    RewrittenShape(t, n - 1);
    var name := Str(RewrittenFields[n - 1]);
    RewrittenSnoc(t, n);
    SetCellFilled(Rewritten(t, n - 1).value, name, Reformat(Loc(t, 0, name).value), j);
  }

  /** After n passes every cell in a column labelled other than the first n date fields is as it was. */
  lemma RewrittenOtherCells(t: Frame, n: nat)
    requires n <= |RewrittenFields| && HasDateFields(t) && 0 in t.index
    ensures Rewritten(t, n).Ok? && |Rewritten(t, n).value.rows| == |t.rows| && Rewritten(t, n).value.columns == t.columns
    ensures forall j, i :: 0 <= j < |t.rows| && 0 <= i < |t.columns| && !IsFieldLabel(t.columns[i], n) ==>
      Rewritten(t, n).value.rows[j][i] == t.rows[j][i]
  {
    RewrittenShape(t, n);
    forall j, i | 0 <= j < |t.rows| && 0 <= i < |t.columns| && !IsFieldLabel(t.columns[i], n)
      ensures Rewritten(t, n).value.rows[j][i] == t.rows[j][i]
    {
      RewrittenOtherCell(t, n, j, i);
    }
  }

  /** One cell of `RewrittenOtherCells`, by induction on the number of passes. */
  lemma {:induction false} RewrittenOtherCell(t: Frame, n: nat, j: nat, i: nat)
    requires n <= |RewrittenFields| && HasDateFields(t) && 0 in t.index
    requires j < |t.rows| && i < |t.columns| && !IsFieldLabel(t.columns[i], n)
    ensures Rewritten(t, n).Ok? && |Rewritten(t, n).value.rows| == |t.rows| && Rewritten(t, n).value.columns == t.columns
    ensures Rewritten(t, n).value.rows[j][i] == t.rows[j][i]
  {
    RewrittenShape(t, n);
    if n > 0 {
      RewrittenShape(t, n - 1);
      var name := Str(RewrittenFields[n - 1]);
      var before := Rewritten(t, n - 1).value;
      var v := Reformat(Loc(t, 0, name).value);
      RewrittenSnoc(t, n);
      RewrittenOtherCell(t, n - 1, j, i);
      OtherCellKept(before, name, v, j, i);
    }
  }

  /** Setting one column leaves a cell of another column as it was. */
  lemma OtherCellKept(t: Frame, name: Cell, v: Cell, j: nat, i: nat)
    requires name in t.columns && j < |t.rows| && i < |t.columns| && t.columns[i] != name
    ensures SetColumn(t, name, v).rows[j][i] == t.rows[j][i]
  {
  }

  /** Setting a column puts the value in that column's cell of every row. */
  lemma SetCellFilled(t: Frame, name: Cell, v: Cell, j: nat)
    requires name in t.columns && j < |t.rows|
    ensures SetColumn(t, name, v).rows[j][Pos(t.columns, name).value] == v
  {
  }

  /** The label is one of the first n date fields. */
  predicate IsFieldLabel(c: Cell, n: nat)
    requires n <= |RewrittenFields|
  {
    n > 0 && (c == Str(RewrittenFields[n - 1]) || IsFieldLabel(c, n - 1))
  }

  /** One more pass sets its column from row 0 of the original table. */
  lemma RewrittenSnoc(t: Frame, n: nat)
    requires 0 < n <= |RewrittenFields| && Rewritten(t, n - 1).Ok? && Loc(t, 0, Str(RewrittenFields[n - 1])).Ok?
    ensures Rewritten(t, n) == Ok(SetColumn(Rewritten(t, n - 1).value, Str(RewrittenFields[n - 1]),
      Reformat(Loc(t, 0, Str(RewrittenFields[n - 1])).value)))
  {
  }

  /** The DATES table renamed and given its date_published column, as the loop finds it. */
  function DatesBefore(src: Frame, published: seq<Cell>): Frame
    requires |src.columns| == |DatesColumns|
  {
    WithPublished(Table(src.index, ExcelCodec.Strs(DatesColumns), src.rows), published)
  }

  /**
   * The loop on a DATES table with rows 0, 1, ...: the six leading columns
   * are kept, date_accessed, date_closing and date_delivery are each filled
   * with the reformatted value of row 0, and date_published with the
   * reformatted first publication date (NaN when the query returned none).
   */
  lemma DatesRewritten(src: Frame, published: seq<Cell>)
    requires |src.columns| == |DatesColumns| && |src.rows| > 0 && src.index == Range(0, |src.rows|)
    ensures Rewritten(DatesBefore(src, published), |RewrittenFields|).Ok?
    ensures var dates := Rewritten(DatesBefore(src, published), |RewrittenFields|).value;
      && dates.columns == ExcelCodec.Strs(DatesColumns) + [Str("date_published")]
      && dates.index == src.index && |dates.rows| == |src.rows|
      && (forall j, i :: 0 <= j < |src.rows| && 0 <= i < 6 ==> dates.rows[j][i] == src.rows[j][i])
      && (forall j, i :: 0 <= j < |src.rows| && 6 <= i < 9 ==> dates.rows[j][i] == Reformat(src.rows[0][i]))
      && (forall j :: 0 <= j < |src.rows| ==> dates.rows[j][9] == Reformat(if |published| > 0 then published[0] else Missing))
  {
    var t := DatesBefore(src, published);
    DatesBeforeShaped(src, published);
    LoopKeepsLeading(t);
    LoopFillsFields(t);
  }

  /** The DATES sheet relabelled and given date_published, before the loop. */
  lemma DatesBeforeShaped(src: Frame, published: seq<Cell>)
    requires |src.columns| == |DatesColumns| && |src.rows| > 0 && src.index == Range(0, |src.rows|)
    ensures var t := DatesBefore(src, published);
      && DatesShaped(t) && t.index == src.index && |t.rows| == |src.rows|
      && (forall j, i :: 0 <= j < |src.rows| && 0 <= i < 9 ==> t.rows[j][i] == src.rows[j][i])
      && t.rows[0][9] == (if |published| > 0 then published[0] else Missing)
  {
    var t := DatesBefore(src, published);
    DatesLabelsAre();
    assert t.index[0] == 0;
  }

  /** A table labelled like DATES after date_published is added, with row 0 first. */
  predicate DatesShaped(t: Frame) {
    t.columns == DatesLabels && |t.index| > 0 && t.index[0] == 0
  }

  /** Such a table has a column for each date field, and row 0 is its first row. */
  lemma DatesShapedFields(t: Frame)
    requires DatesShaped(t)
    ensures HasDateFields(t) && 0 in t.index && Pos(t.index, 0) == Some(0)
  {
    forall k | 0 <= k < |RewrittenFields| ensures Str(RewrittenFields[k]) in t.columns {
      DatesLabelPosition(t.columns, k);
    }
  }

  /** On such a table the loop keeps the six leading columns. */
  lemma LoopKeepsLeading(t: Frame)
    requires DatesShaped(t)
    ensures Rewritten(t, |RewrittenFields|).Ok?
    ensures var d := Rewritten(t, |RewrittenFields|).value;
      d.index == t.index && d.columns == t.columns && |d.rows| == |t.rows|
      && forall j, i :: 0 <= j < |t.rows| && 0 <= i < 6 ==> d.rows[j][i] == t.rows[j][i]
  {
    DatesShapedFields(t);
    RewrittenShape(t, |RewrittenFields|);
    DatesLeadingLabels(t.columns);
    forall j, i | 0 <= j < |t.rows| && 0 <= i < 6
      ensures Rewritten(t, |RewrittenFields|).value.rows[j][i] == t.rows[j][i]
    {
      RewrittenOtherCell(t, |RewrittenFields|, j, i);
    }
  }

  /** On such a table the loop fills each date column with the rewrite of its row-0 cell. */
  lemma LoopFillsFields(t: Frame)
    requires DatesShaped(t)
    ensures Rewritten(t, |RewrittenFields|).Ok?
    ensures var d := Rewritten(t, |RewrittenFields|).value;
      d.columns == t.columns && |d.rows| == |t.rows|
      && forall j, i :: 0 <= j < |t.rows| && 6 <= i < 10 ==> d.rows[j][i] == Reformat(t.rows[0][i])
  {
    LoopFillsCell(t, 0, 6);
    forall j, i | 0 <= j < |t.rows| && 6 <= i < 10
      ensures Rewritten(t, |RewrittenFields|).value.rows[j][i] == Reformat(t.rows[0][i])
    {
      LoopFillsCell(t, j, i);
    }
  }

  /** One cell of LoopFillsFields: column i of row j holds the rewrite of row 0's cell there. */
  lemma LoopFillsCell(t: Frame, j: nat, i: nat)
    requires DatesShaped(t) && j < |t.rows| && 6 <= i < 10
    ensures Rewritten(t, |RewrittenFields|).Ok?
    ensures |Rewritten(t, |RewrittenFields|).value.rows| == |t.rows| && Rewritten(t, |RewrittenFields|).value.columns == t.columns
    ensures Rewritten(t, |RewrittenFields|).value.rows[j][i] == Reformat(t.rows[0][i])
  {
    DatesShapedFields(t);
    RewrittenShape(t, |RewrittenFields|);
    DatesLabelPosition(t.columns, i - 6);
    LocAt(t, 0, Str(RewrittenFields[i - 6]), 0, i);
    RewrittenFieldCell(t, |RewrittenFields|, i - 6, j);
  }

  /** `loc` at labels found at positions j and i is the cell there. */
  lemma LocAt(t: Frame, row: int, col: Cell, j: nat, i: nat)
    requires Pos(t.index, row) == Some(j) && Pos(t.columns, col) == Some(i)
    ensures Loc(t, row, col) == Ok(t.rows[j][i])
  {
  }

  /** The labels the loop finds, written out. */
  lemma DatesLabelsAre()
    ensures ExcelCodec.Strs(DatesColumns) + [Str("date_published")] == DatesLabels
  {
  }

  /** None of the six leading labels is a date field. */
  lemma DatesLeadingLabels(cols: seq<Cell>)
    requires cols == DatesLabels
    ensures forall i :: 0 <= i < 6 ==> !IsFieldLabel(cols[i], |RewrittenFields|)
  {
    forall i | 0 <= i < 6 ensures !IsFieldLabel(cols[i], |RewrittenFields|) {
      forall k | 0 <= k < |RewrittenFields| ensures cols[i] != Str(RewrittenFields[k]) {
        LeadingNotField(i, k);
      }
      NotFieldLabel(cols[i], |RewrittenFields|);
    }
  }

  /** The six leading labels start with another letter than the date fields' 'd'. */
  lemma LeadingNotField(i: nat, k: nat)
    requires i < 6 && k < |RewrittenFields|
    ensures DatesLabels[i] != Str(RewrittenFields[k])
  {
    assert RewrittenFields[k][0] == 'd';
    assert DatesLabels[i].s[0] != 'd';
  }

  /** A label equal to none of the first n date fields is not one of them. */
  lemma {:induction false} NotFieldLabel(c: Cell, n: nat)
    requires n <= |RewrittenFields| && forall k :: 0 <= k < n ==> c != Str(RewrittenFields[k])
    ensures !IsFieldLabel(c, n)
  {
    if n > 0 {
      NotFieldLabel(c, n - 1);
    }
  }

  /** The column labels of the DATES table once renamed and given date_published. */
  const DatesLabels: seq<Cell> := [Str("__description"), Str("iso"), Str("strata_variable"), Str("strata_value"),
    Str("applyto_variable"), Str("__table"), Str("date_accessed"), Str("date_closing"), Str("date_delivery"),
    Str("date_published")]

  /** Where the k-th date field sits among those labels. */
  lemma DatesLabelPosition(cols: seq<Cell>, k: nat)
    requires cols == DatesLabels && k < |RewrittenFields|
    ensures Pos(cols, Str(RewrittenFields[k])) == Some(6 + k)
  {
    var name := Str(RewrittenFields[k]);
    assert cols[6 + k] == name;
    forall i | 0 <= i < 6 + k ensures cols[i] != name {
      if i >= 6 {
        FieldsDistinct(i - 6, k);
      } else {
        LeadingNotField(i, k);
      }
    }
    assert name !in cols[..6 + k];
    PosIsFirst(cols, name, 6 + k);
  }

  /**
   * A DATES sheet with no rows, when the query returns no publication date
   * either, makes the loop's first pass raise KeyError('0').
   */
  lemma DatesNeedRowZero(src: Frame, published: seq<Cell>)
    requires |src.columns| == |DatesColumns| && |src.rows| == 0 && |published| == 0
    ensures Rewritten(DatesBefore(src, published), |RewrittenFields|) == Err(KeyError("0"))
  {
    var t := DatesBefore(src, published);
    var cols := ExcelCodec.Strs(DatesColumns) + [Str("date_published")];
    assert t.columns == cols;
    assert cols[6] == Str(RewrittenFields[0]) && cols[7] == Str(RewrittenFields[1]);
    assert cols[8] == Str(RewrittenFields[2]) && cols[9] == Str(RewrittenFields[3]);
    RewrittenOk(t, |RewrittenFields|);
  }

  /**
   * A DATES sheet with no rows, when the query returns n > 0 publication
   * dates, is reindexed to rows 0 .. n-1 of NaN; the loop then succeeds:
   * the six leading columns stay NaN, the three sheet date fields become
   * None, and date_published holds the rewrite of the first date.
   */
  lemma DatesFromPublished(src: Frame, published: seq<Cell>)
    requires |src.columns| == |DatesColumns| && |src.rows| == 0 && |published| > 0
    ensures Rewritten(DatesBefore(src, published), |RewrittenFields|).Ok?
    ensures var dates := Rewritten(DatesBefore(src, published), |RewrittenFields|).value;
      && dates.columns == ExcelCodec.Strs(DatesColumns) + [Str("date_published")]
      && dates.index == Range(0, |published|) && |dates.rows| == |published|
      && (forall j, i :: 0 <= j < |published| && 0 <= i < 6 ==> dates.rows[j][i] == Missing)
      && (forall j, i :: 0 <= j < |published| && 6 <= i < 9 ==> dates.rows[j][i] == Null)
      && (forall j :: 0 <= j < |published| ==> dates.rows[j][9] == Reformat(published[0]))
  {
    var t := DatesBefore(src, published);
    EmptyDatesShaped(src, published);
    LoopKeepsLeading(t);
    LoopFillsFields(t);
    ReformatMissing();
    var dates := Rewritten(t, |RewrittenFields|).value;
    DatesLabelsAre();
    forall j, i | 0 <= j < |published| && 6 <= i < 9 ensures dates.rows[j][i] == Null {
      assert dates.rows[j][i] == Reformat(t.rows[0][i]) && t.rows[0][i] == Missing;
    }
  }

  /** The reindexed DATES table, before the loop: NaN but for date_published. */
  lemma EmptyDatesShaped(src: Frame, published: seq<Cell>)
    requires |src.columns| == |DatesColumns| && |src.rows| == 0 && |published| > 0
    ensures var t := DatesBefore(src, published);
      && DatesShaped(t) && t.index == Range(0, |published|) && |t.rows| == |published|
      && (forall j, i :: 0 <= j < |published| && 0 <= i < 9 ==> t.rows[j][i] == Missing)
      && t.rows[0][9] == published[0]
  {
    var t := DatesBefore(src, published);
    DatesLabelsAre();
    assert t.index[0] == 0;
  }

  /** DATA and VARIABLES are read as they stand and then numbered. */
  lemma DataAndVariablesRead(f: ExcelCodec.ExcelFile)
    requires DataAndVariables(f).Ok?
    ensures "DATA" in f && "VARIABLES" in f
    ensures DataAndVariables(f) == Numbered(ReadTable(f["DATA"]), ReadTable(f["VARIABLES"]))
  {
  }

  /** The dates table the loop starts from is DATES read as text, renamed, with date_published added. */
  lemma PreparedDates(file: Option<ExcelCodec.ExcelFile>, kwargs: map<string, string>, published: seq<Cell>)
    requires Prepare(file, kwargs, published).Ok?
    ensures file.Some? && "DATES" in file.value
    ensures var src := ReadText(file.value["DATES"]);
      && |src.columns| == |DatesColumns|
      && Prepare(file, kwargs, published).value.dates == DatesBefore(src, published)
  {
    PreparedParts(file, kwargs, published);
    var f := file.value;
    var refs := RenamedAll(f, RenamedSheets).value;
    assert RenamedSheets[4] == ("DATES", DatesColumns);
    assert Renamed(f, "DATES", DatesColumns) == Ok(refs[4]);
  }

  /** The `dates` table of a successful `load` is the DATES sheet, as text, through the loop. */
  lemma LoadedDates(file: Option<ExcelCodec.ExcelFile>, kwargs: map<string, string>, published: seq<Cell>)
    requires LoadSpec(file, kwargs, published).Ok?
    ensures file.Some? && "DATES" in file.value
    ensures var src := ReadText(file.value["DATES"]);
      && |src.columns| == |DatesColumns| && src.index == Range(0, |src.rows|)
      && Rewritten(DatesBefore(src, published), |RewrittenFields|) == Ok(LoadSpec(file, kwargs, published).value["dates"])
  {
    LoadPrepared(file, kwargs, published);
    PreparedDates(file, kwargs, published);
    var p := Prepare(file, kwargs, published).value;
    var dates := Rewritten(p.dates, |RewrittenFields|).value;
    AssembledDates(p, dates);
  }

  /**
   * Once the sheets and parameters are in place, an empty DATES sheet does
   * not stop `load` when the query returns dates: the dates table has one
   * row per publication date (DatesFromPublished gives its cells).
   */
  lemma LoadedFromPublished(file: Option<ExcelCodec.ExcelFile>, kwargs: map<string, string>, published: seq<Cell>)
    requires Prepare(file, kwargs, published).Ok? && file.Some? && "DATES" in file.value
    requires |ReadText(file.value["DATES"]).rows| == 0 && |published| > 0
    ensures LoadSpec(file, kwargs, published).Ok? && "dates" in LoadSpec(file, kwargs, published).value
    ensures LoadSpec(file, kwargs, published).value["dates"].index == Range(0, |published|)
  {
    PreparedDates(file, kwargs, published);
    var src := ReadText(file.value["DATES"]);
    DatesFromPublished(src, published);
    var p := Prepare(file, kwargs, published).value;
    var dates := Rewritten(p.dates, |RewrittenFields|).value;
    AssembledDates(p, dates);
  }

  /** The `dates` entry of the assembled dict is the rewritten DATES table. */
  lemma AssembledDates(p: Parts, dates: Frame)
    ensures "dates" in Assemble(p, dates) && Assemble(p, dates)["dates"] == dates
  {
    assert "dates" in LoadedKeys;
  }

  /** A successful `load` had DATES rows or publication dates to give the dates table its row 0. */
  lemma LoadedDatesFilled(file: Option<ExcelCodec.ExcelFile>, kwargs: map<string, string>, published: seq<Cell>)
    requires LoadSpec(file, kwargs, published).Ok?
    ensures file.Some? && "DATES" in file.value
    ensures |ReadText(file.value["DATES"]).rows| > 0 || |published| > 0
  {
    LoadedDates(file, kwargs, published);
    var src := ReadText(file.value["DATES"]);
    if |src.rows| == 0 && |published| == 0 {
      DatesNeedRowZero(src, published);
    }
  }
}

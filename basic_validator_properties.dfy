/**
 * What the basic validator reports, check by check, proved from the
 * specification functions in module BasicValidator.
 */
module BasicValidatorProperties {
  import opened PyValues
  import opened PyInt
  import opened DateFormat
  import opened Tables
  import opened ValidationReport
  import opened BasicValidator

  // ---- order-preserving selection ----

  /** The positions j with keep[j], in increasing order. */
  function Kept(keep: seq<bool>): (ps: seq<nat>)
    ensures forall t :: 0 <= t < |ps| ==> ps[t] < |keep| && keep[ps[t]]
    ensures forall t, u :: 0 <= t < u < |ps| ==> ps[t] < ps[u]
    ensures forall j :: 0 <= j < |keep| && keep[j] ==> j in ps
  {
    if keep == [] then []
    else
      var n := |keep| - 1;
      var ps := Kept(keep[..n]);
      assert forall t :: 0 <= t < |ps| ==> ps[t] < n && keep[ps[t]];
      if keep[n] then ps + [n] else ps
  }

  /** Select keeps exactly the elements at the kept positions, in their order. */
  lemma {:induction false} SelectKept<T>(xs: seq<T>, keep: seq<bool>)
    requires |keep| == |xs|
    ensures |Select(xs, keep)| == |Kept(keep)|
    ensures forall t :: 0 <= t < |Kept(keep)| ==> Select(xs, keep)[t] == xs[Kept(keep)[t]]
  {
    if xs != [] {
      SelectKept(xs[..|xs| - 1], keep[..|xs| - 1]);
    }
  }

  /** The cells of xs at the positions where keep holds, in order. */
  function AtKept<T>(xs: seq<T>, keep: seq<bool>): (r: seq<T>)
    requires |keep| == |xs|
    ensures |r| == |Kept(keep)|
  {
    var ps := Kept(keep);
    seq(|ps|, t requires 0 <= t < |ps| => xs[ps[t]])
  }

  lemma SelectIsAtKept<T>(xs: seq<T>, keep: seq<bool>)
    requires |keep| == |xs|
    ensures Select(xs, keep) == AtKept(xs, keep)
  {
    SelectKept(xs, keep);
  }

  // ---- steps run in sequence ----

  /** Every message recorded by a run of steps was recorded by one of the steps. */
  lemma {:induction false} SequenceMessages(os: seq<Outcome>)
    ensures forall m :: m in Sequence(os).warnings ==> exists k :: 0 <= k < |os| && m in os[k].warnings
    ensures forall m :: m in Sequence(os).errors ==> exists k :: 0 <= k < |os| && m in os[k].errors
  {
    if os != [] {
      var p := os[..|os| - 1];
      SequenceMessages(p);
      assert forall k :: 0 <= k < |p| ==> p[k] == os[k];
    }
  }

  /** Steps that warn about nothing warn about nothing when run in sequence. */
  lemma {:induction false} SequenceNoWarnings(os: seq<Outcome>)
    requires forall k :: 0 <= k < |os| ==> os[k].warnings == []
    ensures Sequence(os).warnings == []
  {
    if os != [] {
      SequenceNoWarnings(os[..|os| - 1]);
    }
  }

  /** The report carries the accumulated messages, and the info line exactly when there are none. */
  lemma ReportShape(d: DataDict)
    ensures ValidateSpec(d).Ok? <==> Checks(d).raised.None?
    ensures ValidateSpec(d).Err? ==> ValidateSpec(d).error == Checks(d).raised.value
    ensures ValidateSpec(d).Ok? ==>
      var r := ValidateSpec(d).value;
      && r.warnings == Checks(d).warnings && r.errors == Checks(d).errors
      && (r.info == [NoProblems] <==> r.warnings == [] && r.errors == [])
      && (r.info != [NoProblems] ==> r.info == [])
  {
  }

  /**
   * The checks run in a fixed order: when none raises, the errors are those of
   * the variable-match, general-row, invalid-name and date checks, in this
   * order, and the warnings those of the contents and the description checks.
   */
  lemma ChecksInOrder(d: DataDict)
    requires Checks(d).raised.None?
    ensures Checks(d).errors == VarsMatch(d).errors + GeneralRow(d).errors + InvalidVars(d).errors + Dates(d).errors
    ensures Checks(d).warnings == ContentDescription(d).warnings + NoDescriptionVars(d).warnings
  {
    StepsAre(d);
    WarningFreeChecks(d);
    ErrorFreeChecks(d);
    SixSteps(Steps(d));
    Grouped(Steps(d), VarsMatch(d), GeneralRow(d), ContentDescription(d), NoDescriptionVars(d), InvalidVars(d), Dates(d));
  }

  /** Six steps where only the third and fourth warn and only those two never err. */
  lemma Grouped(os: seq<Outcome>, a: Outcome, b: Outcome, c: Outcome, e: Outcome, f: Outcome, g: Outcome)
    requires |os| == 6 && os[0] == a && os[1] == b && os[2] == c && os[3] == e && os[4] == f && os[5] == g
    requires a.warnings == [] && b.warnings == [] && f.warnings == [] && g.warnings == []
    requires c.errors == [] && e.errors == []
    ensures os[0].errors + os[1].errors + os[2].errors + os[3].errors + os[4].errors + os[5].errors
      == a.errors + b.errors + f.errors + g.errors
    ensures os[0].warnings + os[1].warnings + os[2].warnings + os[3].warnings + os[4].warnings + os[5].warnings
      == c.warnings + e.warnings
  {
    assert a.errors + b.errors + [] + [] == a.errors + b.errors;
    assert [] + [] + c.warnings + e.warnings == c.warnings + e.warnings;
  }

  /** The steps of `validate`, one by one. */
  lemma StepsAre(d: DataDict)
    ensures |Steps(d)| == 6
    ensures Steps(d)[0] == VarsMatch(d) && Steps(d)[1] == GeneralRow(d) && Steps(d)[2] == ContentDescription(d)
    ensures Steps(d)[3] == NoDescriptionVars(d) && Steps(d)[4] == InvalidVars(d) && Steps(d)[5] == Dates(d)
  {
  }

  /** The errors of the first n steps of os, one step after the other. */
  function AllErrors(os: seq<Outcome>, n: nat): seq<string>
    requires n <= |os|
  {
    if n == 0 then [] else AllErrors(os, n - 1) + os[n - 1].errors
  }

  /** The warnings of the first n steps of os, one step after the other. */
  function AllWarnings(os: seq<Outcome>, n: nat): seq<string>
    requires n <= |os|
  {
    if n == 0 then [] else AllWarnings(os, n - 1) + os[n - 1].warnings
  }

  /** Steps run in sequence without raising record every step's messages, in step order. */
  lemma {:induction false} SequenceAccumulates(os: seq<Outcome>)
    requires Sequence(os).raised.None?
    ensures Sequence(os).errors == AllErrors(os, |os|) && Sequence(os).warnings == AllWarnings(os, |os|)
  {
    if os != [] {
      var p := os[..|os| - 1];
      SequenceAccumulates(p);
      PrefixMessages(p, os, |p|);
    }
  }

  /** The messages of the first n steps depend only on those steps. */
  lemma {:induction false} PrefixMessages(p: seq<Outcome>, os: seq<Outcome>, n: nat)
    requires n <= |p| <= |os| && p == os[..|p|]
    ensures AllErrors(p, n) == AllErrors(os, n) && AllWarnings(p, n) == AllWarnings(os, n)
  {
    if n > 0 {
      PrefixMessages(p, os, n - 1);
      assert p[n - 1] == os[n - 1];
    }
  }

  /** Six steps none of which raises record their messages one after the other. */
  lemma SixSteps(os: seq<Outcome>)
    requires |os| == 6 && Sequence(os).raised.None?
    ensures Sequence(os).errors == os[0].errors + os[1].errors + os[2].errors + os[3].errors + os[4].errors + os[5].errors
    ensures Sequence(os).warnings == os[0].warnings + os[1].warnings + os[2].warnings + os[3].warnings + os[4].warnings + os[5].warnings
  {
    SequenceAccumulates(os);
    SixErrors(os);
    SixWarnings(os);
  }

  /** The errors of six steps, spelled out. */
  lemma SixErrors(os: seq<Outcome>)
    requires |os| == 6
    ensures AllErrors(os, 6) == os[0].errors + os[1].errors + os[2].errors + os[3].errors + os[4].errors + os[5].errors
  {
    assert AllErrors(os, 1) == os[0].errors;
    assert AllErrors(os, 2) == AllErrors(os, 1) + os[1].errors;
    assert AllErrors(os, 3) == AllErrors(os, 2) + os[2].errors;
    assert AllErrors(os, 4) == AllErrors(os, 3) + os[3].errors;
    assert AllErrors(os, 5) == AllErrors(os, 4) + os[4].errors;
  }

  /** The warnings of six steps, spelled out. */
  lemma SixWarnings(os: seq<Outcome>)
    requires |os| == 6
    ensures AllWarnings(os, 6) == os[0].warnings + os[1].warnings + os[2].warnings + os[3].warnings + os[4].warnings + os[5].warnings
  {
    assert AllWarnings(os, 1) == os[0].warnings;
    assert AllWarnings(os, 2) == AllWarnings(os, 1) + os[1].warnings;
    assert AllWarnings(os, 3) == AllWarnings(os, 2) + os[2].warnings;
    assert AllWarnings(os, 4) == AllWarnings(os, 3) + os[3].warnings;
    assert AllWarnings(os, 5) == AllWarnings(os, 4) + os[4].warnings;
  }

  /** Only the contents and the description checks warn. */
  lemma WarningFreeChecks(d: DataDict)
    ensures VarsMatch(d).warnings == [] && GeneralRow(d).warnings == []
    ensures InvalidVars(d).warnings == [] && Dates(d).warnings == []
  {
    DatesCases(d);
  }

  /** The contents and the description checks never report an error. */
  lemma ErrorFreeChecks(d: DataDict)
    ensures ContentDescription(d).errors == [] && NoDescriptionVars(d).errors == []
  {
  }

  // ---- the checks one by one ----

  /** `_check_vars_match`: the error exactly when the variable names differ from the data columns. */
  lemma VarsMatchCases(d: DataDict)
    ensures "variables" !in d ==> VarsMatch(d) == Outcome([], [], Some(KeyError("variables")))
    ensures "variables" in d && Str("variable") !in d["variables"].columns ==>
      VarsMatch(d) == Outcome([], [], Some(KeyError("variable")))
    ensures "variables" in d && Str("variable") in d["variables"].columns && "data" !in d ==>
      VarsMatch(d) == Outcome([], [], Some(KeyError("data")))
    ensures "variables" in d && Str("variable") in d["variables"].columns && "data" in d ==>
      var names := Column(d["variables"], Str("variable")).value;
      var cols := d["data"].columns;
      && VarsMatch(d).raised == None && VarsMatch(d).warnings == []
      && (VarsMatch(d).errors == [VarsMismatch] <==> |names| != |cols| || exists k :: 0 <= k < |names| && k < |cols| && names[k] != cols[k])
      && (VarsMatch(d).errors == [] <==> names == cols)
  {
    if "variables" in d && Str("variable") in d["variables"].columns && "data" in d {
      var names := Column(d["variables"], Str("variable")).value;
      var cols := d["data"].columns;
      if |names| == |cols| && forall k :: 0 <= k < |names| ==> names[k] == cols[k] {
        assert names == cols;
      }
    }
  }

  /** `_check_general_row`: one error for no row, another for several rows, none for one. */
  lemma GeneralRowCases(d: DataDict)
    ensures "general" !in d ==> GeneralRow(d) == Outcome([], [], Some(KeyError("general")))
    ensures "general" in d ==> GeneralRow(d).raised == None && GeneralRow(d).warnings == []
    ensures "general" in d ==> (GeneralRow(d).errors == [GeneralMissing] <==> |d["general"].rows| == 0)
    ensures "general" in d ==> (GeneralRow(d).errors == [GeneralDuplicated] <==> |d["general"].rows| > 1)
    ensures "general" in d ==> (GeneralRow(d).errors == [] <==> |d["general"].rows| == 1)
  {
    assert GeneralMissing[0] != GeneralDuplicated[0];
  }

  /** `_check_table_content_description`: the warning exactly when the first description is ''. */
  lemma ContentDescriptionCases(d: DataDict)
    requires "general" in d && Str("contents") in d["general"].columns && |d["general"].rows| > 0
    ensures ContentDescription(d).raised == None && ContentDescription(d).errors == []
    ensures ContentDescription(d).warnings == [ContentsEmpty] <==> Column(d["general"], Str("contents")).value[0] == Str("")
    ensures ContentDescription(d).warnings == [] <==> Column(d["general"], Str("contents")).value[0] != Str("")
  {
  }

  /**
   * An empty general table makes `validate` raise: the content check reads
   * its first row, so the general-info-missing error is never returned.
   */
  lemma EmptyGeneralRaises(d: DataDict)
    requires "general" in d && |d["general"].rows| == 0
    ensures ValidateSpec(d).Err?
    ensures VarsMatch(d).raised.None? ==>
      ValidateSpec(d) == Err(if Str("contents") in d["general"].columns then IndexError else KeyError("contents"))
  {
    var os := Steps(d);
    assert os[0] == VarsMatch(d);
    if VarsMatch(d).raised.Some? {
      FirstRaise(os, 0);
    } else {
      assert os[1] == GeneralRow(d) && os[2] == ContentDescription(d);
      EmptyGeneralSteps(d);
      FirstRaise(os, 2);
    }
  }

  /** A sequence of steps raises what its first raising step raises. */
  lemma {:induction false} FirstRaise(os: seq<Outcome>, k: nat)
    requires k < |os| && os[k].raised.Some? && forall j :: 0 <= j < k ==> os[j].raised.None?
    ensures Sequence(os).raised == os[k].raised
    decreases |os|
  {
    var p := os[..|os| - 1];
    if k < |os| - 1 {
      FirstRaise(p, k);
    } else {
      SequenceNotRaised(p);
    }
  }

  /** Steps none of which raises run through without raising. */
  lemma {:induction false} SequenceNotRaised(os: seq<Outcome>)
    requires forall j :: 0 <= j < |os| ==> os[j].raised.None?
    ensures Sequence(os).raised.None?
  {
    if os != [] {
      SequenceNotRaised(os[..|os| - 1]);
    }
  }

  lemma EmptyGeneralSteps(d: DataDict)
    requires "general" in d && |d["general"].rows| == 0
    ensures GeneralRow(d).raised.None?
    ensures ContentDescription(d).raised == Some(if Str("contents") in d["general"].columns then IndexError else KeyError("contents"))
  {
  }

  /** No report ever contains the general-info-missing error. */
  lemma GeneralMissingNeverReported(d: DataDict)
    ensures ValidateSpec(d).Ok? ==> GeneralMissing !in ValidateSpec(d).value.errors
  {
    var os := Steps(d);
    if ValidateSpec(d).Ok? && GeneralMissing in Checks(d).errors {
      if "general" !in d {
        assert os[0] == VarsMatch(d) && os[1] == GeneralRow(d);
        if os[0].raised.Some? {
          FirstRaise(os, 0);
        } else {
          FirstRaise(os, 1);
        }
        assert false;
      }
      if |d["general"].rows| == 0 {
        EmptyGeneralRaises(d);
        assert false;
      }
      SequenceMessages(os);
      var k :| 0 <= k < |os| && GeneralMissing in os[k].errors;
      NotGeneralMissing(d, k);
      assert false;
    }
  }

  /** Besides the general-row check, no check's error can read as the general-info-missing one. */
  lemma NotGeneralMissing(d: DataDict, k: nat)
    requires k < 6 && "general" in d && |d["general"].rows| > 0
    ensures GeneralMissing !in Steps(d)[k].errors
  {
    var os := Steps(d);
    if k == 0 {
      assert os[0] == VarsMatch(d);
      NotGeneralMissingInVars(d);
    } else if k == 1 {
      assert os[1] == GeneralRow(d);
      NotGeneralMissingInRow(d);
    } else if k == 2 {
      assert os[2] == ContentDescription(d);
      NotGeneralMissingInContents(d);
    } else if k == 3 {
      assert os[3] == NoDescriptionVars(d);
      NotGeneralMissingInDescriptions(d);
    } else if k == 4 {
      assert os[4] == InvalidVars(d);
      NotGeneralMissingInNames(d);
    } else {
      assert os[5] == Dates(d);
      NotGeneralMissingInDates(d);
    }
  }

  lemma NotGeneralMissingInVars(d: DataDict)
    ensures GeneralMissing !in VarsMatch(d).errors
  {
    assert GeneralMissing[0] == 'D' && VarsMismatch[0] == 'V';
  }

  lemma NotGeneralMissingInRow(d: DataDict)
    requires "general" in d && |d["general"].rows| > 0
    ensures GeneralMissing !in GeneralRow(d).errors
  {
    assert GeneralMissing[0] == 'D' && GeneralDuplicated[0] == 'M';
  }

  lemma NotGeneralMissingInContents(d: DataDict)
    ensures GeneralMissing !in ContentDescription(d).errors
  {
    assert GeneralMissing[11] == 'g' && ContentsEmpty[11] == 'c';
  }

  lemma NotGeneralMissingInDescriptions(d: DataDict)
    ensures GeneralMissing !in NoDescriptionVars(d).errors
  {
  }

  lemma NotGeneralMissingInNames(d: DataDict)
    ensures GeneralMissing !in InvalidVars(d).errors
  {
    if "variables" in d && |d["variables"].rows| > 0 && Str("variable") in d["variables"].columns
       && AllStr(Column(d["variables"], Str("variable")).value) {
      InvalidVarsReport(d);
      if InvalidVars(d).errors != [] {
        var names := Texts(Column(d["variables"], Str("variable")).value);
        InvalidNamesFirst(AtKept(names, IsInvalid(names)));
      }
    } else if "variables" in d && |d["variables"].rows| > 0 {
      InvalidVarsRaises(d);
    }
  }

  lemma InvalidNamesFirst(names: seq<string>)
    ensures GeneralMissing !in [InvalidNames(names)]
  {
    var p := "The variable name(s) ";
    assert InvalidNames(names)[0] == p[0];
    assert GeneralMissing[0] == 'D';
  }

  lemma NotGeneralMissingInDates(d: DataDict)
    ensures GeneralMissing !in Dates(d).errors
  {
    DatesCases(d);
    if "dates" in d && |d["dates"].index| == 1 {
      forall m | m in Dates(d).errors
        ensures m != GeneralMissing
      {
        var j :| 0 <= j < |DateFields| && AboutField(m, DateFields[j]);
        NotGeneralMissingAboutField(m, DateFields[j]);
      }
    } else if "dates" in d {
      assert GeneralMissing[0] == 'D' && NoDates[0] == 'N' && DuplicatedDates[0] == 'M';
    }
  }

  lemma NotGeneralMissingAboutField(m: string, f: string)
    requires f in DateFields && AboutField(m, f)
    ensures m != GeneralMissing
  {
    assert |f| > 0 && f[0] == 'd';
    AboutFieldFirst(m, f);
    assert GeneralMissing[0] == 'D';
  }

  lemma AboutFieldFirst(m: string, f: string)
    requires |f| > 0 && AboutField(m, f)
    ensures m[0] == 'N' || m[0] == 'I' || m[0] == f[0]
  {
    if m != NoDate(f) {
      var v :| m == InvalidDate(f, v) || m == BadFormat(f, v);
    }
  }

  /**
   * `_check_no_description_vars`: on a non-empty variables table, the warning
   * lists, in row order, the variables whose description is ''; the columns
   * read by attribute must exist, and the listed names must be str.
   */
  lemma NoDescriptionCases(d: DataDict)
    requires "variables" in d && |d["variables"].rows| > 0
    ensures Str("description") !in d["variables"].columns ==>
      NoDescriptionVars(d) == Outcome([], [], Some(AttributeError("description")))
    ensures Str("description") in d["variables"].columns ==>
      var descriptions := Column(d["variables"], Str("description")).value;
      && (Str("") !in descriptions ==> NoDescriptionVars(d) == Nothing)
      && (Str("") in descriptions && Str("variable") !in d["variables"].columns ==>
            NoDescriptionVars(d) == Outcome([], [], Some(AttributeError("variable"))))
      && (Str("") in descriptions && Str("variable") in d["variables"].columns ==>
            var names := Column(d["variables"], Str("variable")).value;
            var undescribed := AtKept(names, IsEmptyText(descriptions));
            && |undescribed| > 0
            && NoDescriptionVars(d) == if AllStr(undescribed) then Warning(NoDescription(Texts(undescribed))) else Outcome([], [], Some(TypeError)))
  {
    var vars := d["variables"];
    if Str("description") in vars.columns {
      var descriptions := Column(vars, Str("description")).value;
      if Str("") in descriptions && Str("variable") in vars.columns {
        var names := Column(vars, Str("variable")).value;
        var keep := IsEmptyText(descriptions);
        SelectIsAtKept(names, keep);
        var j :| 0 <= j < |descriptions| && descriptions[j] == Str("");
        assert j in Kept(keep);
      }
    }
  }

  /** `_check_invalid_vars` on a non-empty table raises when the names cannot be read or are not all str. */
  lemma InvalidVarsRaises(d: DataDict)
    requires "variables" in d && |d["variables"].rows| > 0
    ensures Str("variable") !in d["variables"].columns ==>
      InvalidVars(d) == Outcome([], [], Some(AttributeError("variable")))
    ensures Str("variable") in d["variables"].columns && !AllStr(Column(d["variables"], Str("variable")).value) ==>
      InvalidVars(d) == Outcome([], [], Some(TypeError))
  {
  }

  /**
   * `_check_invalid_vars`: on a non-empty variables table whose names are all
   * str, the error lists, in row order, exactly the names that are not made of
   * ASCII letters, digits and underscores.
   */
  lemma InvalidVarsReport(d: DataDict)
    requires "variables" in d && |d["variables"].rows| > 0 && Str("variable") in d["variables"].columns
    requires AllStr(Column(d["variables"], Str("variable")).value)
    ensures InvalidVars(d).raised == None && InvalidVars(d).warnings == []
    ensures var names := Texts(Column(d["variables"], Str("variable")).value);
      && (InvalidVars(d).errors == [] <==> AllValid(names))
      && (InvalidVars(d).errors != [] ==> InvalidVars(d).errors == [InvalidNames(AtKept(names, IsInvalid(names)))])
  {
    var names := Texts(Column(d["variables"], Str("variable")).value);
    InvalidSelection(names);
    assert InvalidVars(d) == if |Select(names, IsInvalid(names))| > 0 then Error(InvalidNames(Select(names, IsInvalid(names)))) else Nothing;
  }

  /** The names picked out as invalid are those at the invalid positions; there are none iff all are valid. */
  lemma InvalidSelection(names: seq<string>)
    ensures Select(names, IsInvalid(names)) == AtKept(names, IsInvalid(names))
    ensures |Select(names, IsInvalid(names))| == 0 <==> AllValid(names)
  {
    var keep := IsInvalid(names);
    SelectIsAtKept(names, keep);
    KeptEmpty(keep);
    assert (forall j :: 0 <= j < |keep| ==> !keep[j]) <==> AllValid(names);
  }

  predicate AllValid(names: seq<string>) {
    forall j :: 0 <= j < |names| ==> ValidName(names[j])
  }

  /** No position is kept exactly when no flag is set. */
  lemma KeptEmpty(keep: seq<bool>)
    ensures Kept(keep) == [] <==> forall j :: 0 <= j < |keep| ==> !keep[j]
  {
    if exists j :: 0 <= j < |keep| && keep[j] {
      var j :| 0 <= j < |keep| && keep[j];
      assert j in Kept(keep);
    }
  }

  // ---- dates ----

  /** A message about date field f: missing, an invalid code, or a badly formatted text. */
  ghost predicate AboutField(m: string, f: string) {
    m == NoDate(f) || exists v :: m == InvalidDate(f, v) || m == BadFormat(f, v)
  }

  /** Checking one date value: at most one error, about that field, and never a warning. */
  lemma DateVerdictShape(f: string, v: Cell)
    ensures DateVerdict(f, v).warnings == [] && |DateVerdict(f, v).errors| <= 1
    ensures forall m :: m in DateVerdict(f, v).errors ==> AboutField(m, f)
    ensures DateVerdict(f, v).raised.Some? <==> v.Missing? || v.Null?
    ensures DateVerdict(f, v).raised.Some? ==> DateVerdict(f, v).raised == Some(TypeError)
  {
    match v
    case Int(n) => SentinelVerdictShape(f, n);
    case Str(s) =>
      if ParseInt(s).Some? {
        SentinelVerdictShape(f, ParseInt(s).value);
      } else if s != "" && Strptime(s).None? {
        assert DateVerdict(f, v) == Error(BadFormat(f, s));
        assert AboutField(BadFormat(f, s), f);
      }
    case _ =>
  }

  lemma SentinelVerdictShape(f: string, n: int)
    ensures SentinelVerdict(f, n).warnings == [] && SentinelVerdict(f, n).raised == None
    ensures |SentinelVerdict(f, n).errors| <= 1
    ensures forall m :: m in SentinelVerdict(f, n).errors ==> AboutField(m, f)
  {
    if n != -9999 && n != -6666 {
      assert AboutField(InvalidDate(f, IntToString(n)), f);
    }
  }

  lemma DateFieldShape(dates: Frame, f: string)
    ensures DateField(dates, f).warnings == [] && |DateField(dates, f).errors| <= 1
    ensures forall m :: m in DateField(dates, f).errors ==> AboutField(m, f)
  {
    if Loc(dates, 0, Str(f)).Ok? {
      DateVerdictShape(f, Loc(dates, 0, Str(f)).value);
    }
  }

  /** `_check_dates`: the table must have exactly one row; then each field yields at most one error. */
  lemma DatesCases(d: DataDict)
    ensures "dates" !in d ==> Dates(d) == Outcome([], [], Some(KeyError("dates")))
    ensures "dates" in d && |d["dates"].index| == 0 ==> Dates(d) == Error(NoDates)
    ensures "dates" in d && |d["dates"].index| > 1 ==> Dates(d) == Error(DuplicatedDates)
    ensures "dates" in d && |d["dates"].index| == 1 ==>
      && Dates(d).warnings == []
      && forall m :: m in Dates(d).errors ==> exists k :: 0 <= k < |DateFields| && AboutField(m, DateFields[k])
  {
    if "dates" in d && |d["dates"].index| == 1 {
      var dates := d["dates"];
      var fs := DateFieldOutcomes(dates);
      SequenceMessages(fs);
      forall k | 0 <= k < |fs|
        ensures fs[k].warnings == [] && forall m :: m in fs[k].errors ==> AboutField(m, DateFields[k])
      {
        DateFieldShape(dates, DateFields[k]);
      }
      SequenceNoWarnings(fs);
    }
  }

  /**
   * Dates are read from the row labelled 0: a one-row dates table labelled
   * otherwise gets the not-defined error for every field.
   */
  lemma DatesNeedRowZero(d: DataDict, row: int)
    requires "dates" in d && d["dates"].index == [row] && row != 0
    ensures Dates(d) == Outcome([], [NoDate("date_accessed"), NoDate("date_closing"), NoDate("date_published"), NoDate("date_delivery")], None)
  {
    var fs := DateFieldOutcomes(d["dates"]);
    assert fs[..0] == [];
    SequenceStep(fs, 0);
    SequenceStep(fs, 1);
    SequenceStep(fs, 2);
    SequenceStep(fs, 3);
    assert fs[..4] == fs;
  }

  /** Every real calendar date written as YYYY-MM-DD passes. */
  lemma IsoDatesPass(f: string, dt: Date)
    requires ValidDate(dt)
    ensures DateVerdict(f, Str(IsoDate(dt))) == Nothing
  {
    var s := IsoDate(dt);
    var y := ZeroPad(dt.year, 4);
    assert s == y + "-" + ZeroPad(dt.month, 2) + "-" + ZeroPad(dt.day, 2);
    assert s[|y|] == '-';
    RejectsInnerSymbol(s, |y|);
    IsoDateAccepted(dt);
  }

  /** The two sentinel codes pass, as integers and as text. */
  lemma SentinelsPass(f: string)
    ensures DateVerdict(f, Int(-9999)) == Nothing && DateVerdict(f, Int(-6666)) == Nothing
    ensures DateVerdict(f, Str("-9999")) == Nothing && DateVerdict(f, Str("-6666")) == Nothing
  {
    SentinelLiterals();
  }

  /** Any other integer, or text `int()` reads as one, is an invalid code, reported in decimal. */
  lemma OtherIntegersRejected(f: string, n: int)
    requires n != -9999 && n != -6666
    ensures DateVerdict(f, Int(n)) == Error(InvalidDate(f, IntToString(n)))
    ensures DateVerdict(f, Str(IntToString(n))) == Error(InvalidDate(f, IntToString(n)))
  {
    ParseIntRoundTrip(n);
  }

  /** An empty text and a datetime pass; a date that does not exist fails the format check. */
  lemma DateVerdictExamples(f: string)
    ensures DateVerdict(f, Str("")) == Nothing
    ensures DateVerdict(f, DateTime(2024, 1, 15)) == Nothing
    ensures DateVerdict(f, Str("2024-02-30")) == Error(BadFormat(f, "2024-02-30"))
    ensures DateVerdict(f, Missing) == Outcome([], [], Some(TypeError))
  {
    RejectedLiterals();
    RejectsInnerSymbol("2024-02-30", 4);
    RejectsFebruary30();
  }
}

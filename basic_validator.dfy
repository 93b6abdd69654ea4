/**
 * BasicValidator: the fixed checks run on a loaded data set before upload.
 * `validate` empties the three message lists, runs six checks in a fixed
 * order, each appending warnings or errors, and then records 'No problems
 * found.' as info when neither list received anything. An exception raised
 * by a check (a missing table or column, an empty general table, a variable
 * name that is not a str, a NaN date) escapes `validate`.
 *
 * Each check is specified by a function giving what it appends and what it
 * raises; the class runs the checks by updating its fields.
 */
module BasicValidator {
  import opened PyValues
  import opened PyInt
  import opened DateFormat
  import opened Tables
  import opened ValidationReport

  // ---- messages ----

  const VarsMismatch := "Variable names don't match the data columns."
  const GeneralMissing := "Data table general info is missing."
  const GeneralDuplicated := "More than one row of general info."
  const ContentsEmpty := "Data table content description is empty."
  const NoProblems := "No problems found."
  const NoDates := "No dates defined"
  const DuplicatedDates := "More than one set of dates defined."

  function NoDescription(names: seq<string>): string {
    "The variable(s) " + Join(", ", names) + " have no description."
  }

  function InvalidNames(names: seq<string>): string {
    "The variable name(s) " + Join(", ", names) + " are invalid, only names with "
    + "lowercase and uppercase letters, numbers and underscores are allowed."
  }

  function NoDate(field: string): string {
    "No " + field + " defined"
  }

  function InvalidDate(field: string, value: string): string {
    "Invalid " + field + ": " + value
  }

  function BadFormat(field: string, value: string): string {
    field + " is not in YYYY-MM-DD format: " + value
  }

  /** The date fields, in the order they are checked. */
  const DateFields: seq<string> := ["date_accessed", "date_closing", "date_published", "date_delivery"]

  // ---- what a check does ----

  /** The warnings and errors a check appended, and the exception it raised after them, if any. */
  datatype Outcome = Outcome(warnings: seq<string>, errors: seq<string>, raised: Option<PyError>)

  const Nothing: Outcome := Outcome([], [], None)

  function Error(msg: string): Outcome {
    Outcome([], [msg], None)
  }

  function Warning(msg: string): Outcome {
    Outcome([msg], [], None)
  }

  /** A check that raised before appending anything. */
  function Raised(r: Result<Outcome>): Outcome {
    match r
    case Ok(o) => o
    case Err(e) => Outcome([], [], Some(e))
  }

  /** a, then b unless a raised. */
  function Then(a: Outcome, b: Outcome): Outcome {
    if a.raised.Some? then a else Outcome(a.warnings + b.warnings, a.errors + b.errors, b.raised)
  }

  /** The steps os one after the other, up to the first that raises. */
  function Sequence(os: seq<Outcome>): Outcome {
    if os == [] then Nothing else Then(Sequence(os[..|os| - 1]), os[|os| - 1])
  }

  /** `row.attr` on an `itertuples()` row: AttributeError when the frame has no such column. */
  function Attribute(t: Frame, attr: string): (r: Result<seq<Cell>>)
    ensures r.Ok? <==> Str(attr) in t.columns
    ensures r.Ok? ==> r.value == Column(t, Str(attr)).value
    ensures r.Err? ==> r.error == AttributeError(attr)
  {
    match Column(t, Str(attr))
    case Ok(vs) => Ok(vs)
    case Err(_) => Err(AttributeError(attr))
  }

  /** The xs[j] for which keep[j] holds, in order. */
  function Select<T>(xs: seq<T>, keep: seq<bool>): (r: seq<T>)
    requires |keep| == |xs|
    ensures |r| <= |xs|
  {
    if xs == [] then []
    else if keep[|xs| - 1] then Select(xs[..|xs| - 1], keep[..|xs| - 1]) + [xs[|xs| - 1]]
    else Select(xs[..|xs| - 1], keep[..|xs| - 1])
  }

  /** `[a-zA-Z0-9_]` */
  predicate WordChar(c: char) {
    'a' <= c <= 'z' || 'A' <= c <= 'Z' || '0' <= c <= '9' || c == '_'
  }

  predicate WordChars(s: string) {
    s == [] || (WordChar(s[0]) && WordChars(s[1..]))
  }

  /** `re.fullmatch(r'[a-zA-Z0-9_]+', name)` */
  predicate ValidName(s: string) {
    |s| > 0 && WordChars(s)
  }

  function IsEmptyText(vs: seq<Cell>): (r: seq<bool>)
    ensures |r| == |vs| && forall j :: 0 <= j < |vs| ==> (r[j] <==> vs[j] == Str(""))
  {
    seq(|vs|, j requires 0 <= j < |vs| => vs[j] == Str(""))
  }

  function IsInvalid(names: seq<string>): (r: seq<bool>)
    ensures |r| == |names| && forall j :: 0 <= j < |names| ==> (r[j] <==> !ValidName(names[j]))
  {
    if names == [] then [] else [!ValidName(names[0])] + IsInvalid(names[1..])
  }

  // ---- the six checks ----

  /** `_check_vars_match` */
  function VarsMatch(d: DataDict): Outcome {
    Raised(
      var vars :- Get(d, "variables");
      var names :- Column(vars, Str("variable"));
      var data :- Get(d, "data");
      Ok(if names != data.columns then Error(VarsMismatch) else Nothing))
  }

  /** `_check_general_row` */
  function GeneralRow(d: DataDict): Outcome {
    Raised(
      var general :- Get(d, "general");
      Ok(if |general.rows| == 0 then Error(GeneralMissing)
         else if |general.rows| > 1 then Error(GeneralDuplicated)
         else Nothing))
  }

  /** `_check_table_content_description`: reads the first row, so an empty table raises IndexError. */
  function ContentDescription(d: DataDict): Outcome {
    Raised(
      var general :- Get(d, "general");
      var contents :- Column(general, Str("contents"));
      var first :- First(contents);
      Ok(if first == Str("") then Warning(ContentsEmpty) else Nothing))
  }

  /** `_check_no_description_vars`: `var.variable` is read only for rows whose description is ''. */
  function NoDescriptionVars(d: DataDict): Outcome {
    Raised(
      var vars :- Get(d, "variables");
      if |vars.rows| == 0 then Ok(Nothing)
      else
        var descriptions :- Attribute(vars, "description");
        if Str("") !in descriptions then Ok(Nothing)
        else
          var names :- Attribute(vars, "variable");
          var undescribed := Select(names, IsEmptyText(descriptions));
          // ', '.join raises TypeError on a name that is not a str
          if AllStr(undescribed) then Ok(Warning(NoDescription(Texts(undescribed)))) else Err(TypeError))
  }

  /** `_check_invalid_vars`: `re.fullmatch` raises TypeError on a name that is not a str. */
  function InvalidVars(d: DataDict): Outcome {
    Raised(
      var vars :- Get(d, "variables");
      if |vars.rows| == 0 then Ok(Nothing)
      else
        var names :- Attribute(vars, "variable");
        if !AllStr(names) then Err(TypeError)
        else
          var invalid := Select(Texts(names), IsInvalid(Texts(names)));
          Ok(if |invalid| > 0 then Error(InvalidNames(invalid)) else Nothing))
  }

  /** The verdict on an integer date value: only the two sentinel codes are accepted. */
  function SentinelVerdict(field: string, n: int): Outcome {
    if n == -9999 || n == -6666 then Nothing else Error(InvalidDate(field, IntToString(n)))
  }

  /**
   * The verdict on one date value: a datetime passes; anything `int()`
   * converts must be a sentinel code; '' passes; any other str must be a real
   * `%Y-%m-%d` date. `int(nan)` raises ValueError, which is passed over, and
   * then `strptime(nan)` raises TypeError; `int(None)` raises TypeError.
   */
  function DateVerdict(field: string, v: Cell): Outcome {
    match v
    case DateTime(_, _, _) => Nothing
    case Int(n) => SentinelVerdict(field, n)
    case Str(s) =>
      (match ParseInt(s)
       case Some(n) => SentinelVerdict(field, n)
       case None =>
         if s == "" then Nothing
         else if Strptime(s).Some? then Nothing
         else Error(BadFormat(field, s)))
    case Missing => Outcome([], [], Some(TypeError))
    case Null => Outcome([], [], Some(TypeError))
  }

  /** One pass of the loop in `_check_dates`: a field that `loc[0, field]` cannot find is reported. */
  function DateField(dates: Frame, field: string): Outcome {
    match Loc(dates, 0, Str(field))
    case Err(_) => Error(NoDate(field))
    case Ok(v) => DateVerdict(field, v)
  }

  /** The passes of the loop of `_check_dates`, one per field. */
  function DateFieldOutcomes(dates: Frame): (os: seq<Outcome>)
    ensures |os| == |DateFields| && forall k :: 0 <= k < |os| ==> os[k] == DateField(dates, DateFields[k])
  {
    seq(|DateFields|, k requires 0 <= k < |DateFields| => DateField(dates, DateFields[k]))
  }

  /** `_check_dates` */
  function Dates(d: DataDict): Outcome {
    Raised(
      var dates :- Get(d, "dates");
      Ok(if |dates.index| == 0 then Error(NoDates)
         else if |dates.index| > 1 then Error(DuplicatedDates)
         else Sequence(DateFieldOutcomes(dates))))
  }

  /** The six checks in the order `validate` runs them. */
  const Checkers: seq<DataDict -> Outcome> := [VarsMatch, GeneralRow, ContentDescription, NoDescriptionVars, InvalidVars, Dates]

  /** What each check of `validate` does on d, in order. */
  function Steps(d: DataDict): (os: seq<Outcome>)
    ensures |os| == |Checkers| && forall k :: 0 <= k < |Checkers| ==> os[k] == Checkers[k](d)
  {
    seq(|Checkers|, k requires 0 <= k < |Checkers| => Checkers[k](d))
  }

  /** What `validate` appends and raises. */
  function Checks(d: DataDict): Outcome {
    Sequence(Steps(d))
  }

  /** The info list: the one fixed line exactly when nothing else was recorded. */
  function Info(warnings: seq<string>, errors: seq<string>): seq<string> {
    if |errors| + |warnings| == 0 then [NoProblems] else []
  }

  /** `BasicValidator().validate(data_dict)`: the report, or the exception that escaped. */
  function ValidateSpec(d: DataDict): Result<Report> {
    Summary(Checks(d))
  }

  /** The value `validate` returns once the checks ran with outcome o. */
  function Summary(o: Outcome): Result<Report> {
    if o.raised.Some? then Err(o.raised.value) else Ok(Report(Info(o.warnings, o.errors), o.warnings, o.errors))
  }

  class BasicValidator {
    var info: seq<string>
    var warnings: seq<string>
    var errors: seq<string>

    /** `BasicValidator(**kwargs)`: the keyword arguments are ignored. */
    constructor ()
      ensures info == [] && warnings == [] && errors == []
    {
      info, warnings, errors := [], [], [];
    }

    /** The fields moved from (i, w, e) by exactly what o appends, and raised is o's exception. */
    ghost predicate Recorded(o: Outcome, raised: Option<PyError>, i: seq<string>, w: seq<string>, e: seq<string>)
      reads this
    {
      raised == o.raised && info == i && warnings == w + o.warnings && errors == e + o.errors
    }

    method CheckVarsMatch(d: DataDict) returns (raised: Option<PyError>)
      modifies this
      ensures Recorded(VarsMatch(d), raised, old(info), old(warnings), old(errors))
    {
      var vars := Get(d, "variables");
      if vars.Err? { return Some(vars.error); }
      var names := Column(vars.value, Str("variable"));
      if names.Err? { return Some(names.error); }
      var data := Get(d, "data");
      if data.Err? { return Some(data.error); }
      if names.value != data.value.columns {
        errors := errors + [VarsMismatch];
      }
      return None;
    }

    method CheckGeneralRow(d: DataDict) returns (raised: Option<PyError>)
      modifies this
      ensures Recorded(GeneralRow(d), raised, old(info), old(warnings), old(errors))
    {
      var general := Get(d, "general");
      if general.Err? { return Some(general.error); }
      if |general.value.rows| == 0 {
        errors := errors + [GeneralMissing];
      } else if |general.value.rows| > 1 {
        errors := errors + [GeneralDuplicated];
      }
      return None;
    }

    method CheckTableContentDescription(d: DataDict) returns (raised: Option<PyError>)
      modifies this
      ensures Recorded(ContentDescription(d), raised, old(info), old(warnings), old(errors))
    {
      var general := Get(d, "general");
      if general.Err? { return Some(general.error); }
      var contents := Column(general.value, Str("contents"));
      if contents.Err? { return Some(contents.error); }
      var first := First(contents.value);
      if first.Err? { return Some(first.error); }
      if first.value == Str("") {
        warnings := warnings + [ContentsEmpty];
      }
      return None;
    }

    method CheckNoDescriptionVars(d: DataDict) returns (raised: Option<PyError>)
      modifies this
      ensures Recorded(NoDescriptionVars(d), raised, old(info), old(warnings), old(errors))
    {
      var vars := Get(d, "variables");
      if vars.Err? { return Some(vars.error); }
      if |vars.value.rows| == 0 { return None; }
      var descriptions := Attribute(vars.value, "description");
      if descriptions.Err? { return Some(descriptions.error); }
      if Str("") !in descriptions.value { return None; }
      var names := Attribute(vars.value, "variable");
      if names.Err? { return Some(names.error); }
      var undescribed := Select(names.value, IsEmptyText(descriptions.value));
      if !AllStr(undescribed) { return Some(TypeError); }
      warnings := warnings + [NoDescription(Texts(undescribed))];
      return None;
    }

    method CheckInvalidVars(d: DataDict) returns (raised: Option<PyError>)
      modifies this
      ensures Recorded(InvalidVars(d), raised, old(info), old(warnings), old(errors))
    {
      var vars := Get(d, "variables");
      if vars.Err? { return Some(vars.error); }
      if |vars.value.rows| == 0 { return None; }
      var names := Attribute(vars.value, "variable");
      if names.Err? { return Some(names.error); }
      if !AllStr(names.value) { return Some(TypeError); }
      var texts := Texts(names.value);
      var invalid := Select(texts, IsInvalid(texts));
      assert InvalidVars(d) == if |invalid| > 0 then Error(InvalidNames(invalid)) else Nothing;
      if |invalid| > 0 {
        errors := errors + [InvalidNames(invalid)];
      }
      return None;
    }

    /** One pass of the loop in `_check_dates`. */
    method CheckDateField(dates: Frame, field: string) returns (raised: Option<PyError>)
      modifies this
      ensures Recorded(DateField(dates, field), raised, old(info), old(warnings), old(errors))
    {
      var cell := Loc(dates, 0, Str(field));
      if cell.Err? {
        errors := errors + [NoDate(field)];
        return None;
      }
      var v := cell.value;
      assert DateField(dates, field) == DateVerdict(field, v);
      if v.DateTime? {
        return None;
      }
      var number: Option<int>;
      match v {
        case Int(n) => number := Some(n);
        case Str(s) => number := ParseInt(s);
        case Missing => number := None;
        case Null => return Some(TypeError);
      }
      if number.Some? {
        assert DateVerdict(field, v) == SentinelVerdict(field, number.value);
        if number.value != -9999 && number.value != -6666 {
          errors := errors + [InvalidDate(field, IntToString(number.value))];
        }
        return None;
      }
      if v == Str("") {
        return None;
      }
      if !v.Str? {
        return Some(TypeError);
      }
      assert DateVerdict(field, v) == if Strptime(v.s).Some? then Nothing else Error(BadFormat(field, v.s));
      if Strptime(v.s).None? {
        errors := errors + [BadFormat(field, v.s)];
      }
      return None;
    }

    method CheckDates(d: DataDict) returns (raised: Option<PyError>)
      modifies this
      ensures Recorded(Dates(d), raised, old(info), old(warnings), old(errors))
    {
      var found := Get(d, "dates");
      if found.Err? { return Some(found.error); }
      var dates := found.value;
      var nrows := |dates.index|;
      if nrows == 0 {
        errors := errors + [NoDates];
        return None;
      }
      if nrows > 1 {
        errors := errors + [DuplicatedDates];
        return None;
      }
      ghost var os := DateFieldOutcomes(dates);
      var i := 0;
      while i < |DateFields|
        invariant 0 <= i <= |DateFields|
        invariant Recorded(Sequence(os[..i]), None, old(info), old(warnings), old(errors))
      {
        raised := CheckDateField(dates, DateFields[i]);
        Advance(this, os, i, raised, old(info), old(warnings), old(errors));
        i := i + 1;
        if raised.Some? {
          return;
        }
      }
      assert os[..i] == os;
      return None;
    }

    /** Check k of `validate` on d. */
    method Step(d: DataDict, k: nat) returns (raised: Option<PyError>)
      requires k < |Checkers|
      modifies this
      ensures Recorded(Steps(d)[k], raised, old(info), old(warnings), old(errors))
    {
      if k == 0 {
        raised := CheckVarsMatch(d);
        assert Steps(d)[0] == VarsMatch(d);
      } else if k == 1 {
        raised := CheckGeneralRow(d);
        assert Steps(d)[1] == GeneralRow(d);
      } else if k == 2 {
        raised := CheckTableContentDescription(d);
        assert Steps(d)[2] == ContentDescription(d);
      } else if k == 3 {
        raised := CheckNoDescriptionVars(d);
        assert Steps(d)[3] == NoDescriptionVars(d);
      } else if k == 4 {
        raised := CheckInvalidVars(d);
        assert Steps(d)[4] == InvalidVars(d);
      } else {
        raised := CheckDates(d);
        assert Steps(d)[5] == Dates(d);
      }
    }

    /**
     * The six checks of `validate`, in order, stopping at the first exception
     * (`validate` calls them one after the other; here they are run by position).
     */
    method RunChecks(d: DataDict) returns (raised: Option<PyError>)
      modifies this
      ensures Recorded(Checks(d), raised, old(info), old(warnings), old(errors))
    {
      ghost var os := Steps(d);
      var k := 0;
      while k < |Checkers|
        invariant 0 <= k <= |Checkers|
        invariant Recorded(Sequence(os[..k]), None, old(info), old(warnings), old(errors))
      {
        raised := Step(d, k);
        Advance(this, os, k, raised, old(info), old(warnings), old(errors));
        if raised.Some? { return; }
        k := k + 1;
      }
      SequenceRest(os, k);
      return None;
    }

    /** `validate(data_dict)`: the fields end as the report, or as they stood when a check raised. */
    method Validate(d: DataDict) returns (r: Result<Report>)
      modifies this
      ensures r == ValidateSpec(d)
      ensures warnings == Checks(d).warnings && errors == Checks(d).errors
      ensures info == if r.Ok? then r.value.info else []
    {
      info, warnings, errors := [], [], [];
      var raised := RunChecks(d);
      ghost var o := Checks(d);
      assert raised == o.raised && warnings == o.warnings && errors == o.errors;
      if raised.Some? { return Err(raised.value); }
      if |errors| + |warnings| == 0 {
        info := info + [NoProblems];
        assert info == [NoProblems];
      }
      return Ok(Report(info, warnings, errors));
    }
  }

  /**
   * Recording step k after the steps before it records the first k + 1 steps,
   * and, when step k raised, all of them.
   */
  lemma Advance(v: BasicValidator, os: seq<Outcome>, k: nat, raised: Option<PyError>, i: seq<string>, w: seq<string>, e: seq<string>)
    requires k < |os| && Sequence(os[..k]).raised.None?
    requires v.Recorded(os[k], raised, i, w + Sequence(os[..k]).warnings, e + Sequence(os[..k]).errors)
    ensures v.Recorded(Sequence(os[..k + 1]), raised, i, w, e)
    ensures raised.Some? || k + 1 == |os| ==> v.Recorded(Sequence(os), raised, i, w, e)
  {
    SequenceStep(os, k);
    RecordedThen(v, Sequence(os[..k]), os[k], raised, i, w, e);
    if raised.Some? || k + 1 == |os| {
      SequenceRest(os, k + 1);
    }
  }

  /** The whole sequence is its first n steps once those raised, or when there are n. */
  lemma SequenceRest(os: seq<Outcome>, n: nat)
    requires n <= |os| && (n == |os| || Sequence(os[..n]).raised.Some?)
    ensures Sequence(os) == Sequence(os[..n])
  {
    if n == |os| {
      assert os[..n] == os;
    } else {
      SequenceStops(os, n);
    }
  }

  /** Appending what b records to what a recorded. */
  lemma RecordedThen(v: BasicValidator, a: Outcome, b: Outcome, raised: Option<PyError>, i: seq<string>, w: seq<string>, e: seq<string>)
    requires a.raised.None?
    requires v.Recorded(b, raised, i, w + a.warnings, e + a.errors)
    ensures v.Recorded(Then(a, b), raised, i, w, e)
  {
    assert w + a.warnings + b.warnings == w + (a.warnings + b.warnings);
    assert e + a.errors + b.errors == e + (a.errors + b.errors);
  }

  lemma SequenceStep(os: seq<Outcome>, k: nat)
    requires k < |os|
    ensures Sequence(os[..k + 1]) == Then(Sequence(os[..k]), os[k])
  {
    assert os[..k + 1][..k] == os[..k];
  }

  /** Once a step raised, the steps after it change nothing. */
  lemma {:induction false} SequenceStops(os: seq<Outcome>, k: nat)
    requires k <= |os| && Sequence(os[..k]).raised.Some?
    ensures Sequence(os) == Sequence(os[..k])
    decreases |os| - k
  {
    if k < |os| {
      var p := os[..|os| - 1];
      assert p[..k] == os[..k];
      SequenceStops(p, k);
    } else {
      assert os[..k] == os;
    }
  }
}

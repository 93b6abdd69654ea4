/**
 * `datetime.strptime(s, '%Y-%m-%d')`. The format compiles to the regular
 * expression `(\d\d\d\d)-(1[0-2]|0[1-9]|[1-9])-(3[01]|[12]\d|0[1-9]|[1-9]| [1-9])`,
 * which must match the whole string; the three numbers must then form a real
 * Gregorian date with a year of at least 1. Every failure is a ValueError.
 * The zero-padded spelling is the calendar date extended format of ISO 8601
 * (section 4.1.2.2 of ISO 8601:2004); strptime also accepts one-digit months
 * and days, and a day written as a space and one digit.
 */
module DateFormat {
  import opened PyValues

  datatype Date = Date(year: nat, month: nat, day: nat)

  predicate IsLeapYear(y: nat) {
    y % 4 == 0 && (y % 100 != 0 || y % 400 == 0)
  }

  function DaysInMonth(y: nat, m: nat): (n: nat)
    requires 1 <= m <= 12
    ensures 28 <= n <= 31
  {
    if m == 2 then (if IsLeapYear(y) then 29 else 28)
    else if m == 4 || m == 6 || m == 9 || m == 11 then 30
    else 31
  }

  /** What `datetime.date(year, month, day)` accepts. */
  predicate ValidDate(d: Date) {
    1 <= d.year <= 9999 && 1 <= d.month <= 12 && 1 <= d.day <= DaysInMonth(d.year, d.month)
  }

  /** `%m`: `1[0-2]|0[1-9]|[1-9]` */
  predicate MonthField(t: string) {
    || (|t| == 2 && t[0] == '1' && '0' <= t[1] <= '2')
    || (|t| == 2 && t[0] == '0' && '1' <= t[1] <= '9')
    || (|t| == 1 && '1' <= t[0] <= '9')
  }

  /** `%d`: `3[01]|[12]\d|0[1-9]|[1-9]| [1-9]` */
  predicate DayField(t: string) {
    || (|t| == 2 && t[0] == '3' && (t[1] == '0' || t[1] == '1'))
    || (|t| == 2 && (t[0] == '1' || t[0] == '2') && IsDigit(t[1]))
    || (|t| == 2 && t[0] == '0' && '1' <= t[1] <= '9')
    || (|t| == 1 && '1' <= t[0] <= '9')
    || (|t| == 2 && t[0] == ' ' && '1' <= t[1] <= '9')
  }

  /** `int(field)` of a matched day field (a leading space is ignored). */
  function DayValue(t: string): nat
    requires DayField(t)
  {
    if t[0] == ' ' then DigitsValue(t[1..]) else DigitsValue(t)
  }

  /**
   * The whole-string regex match. The month group is digits only and must be
   * followed by '-', so its extent is fixed by where the second '-' stands.
   */
  function MatchYmd(s: string): Option<Date> {
    if |s| < 8 || !AllDigits(s[..4]) || s[4] != '-' then None
    else if s[6] == '-' && MonthField(s[5..6]) && DayField(s[7..]) then
      Some(Date(DigitsValue(s[..4]), DigitsValue(s[5..6]), DayValue(s[7..])))
    else if s[7] == '-' && MonthField(s[5..7]) && DayField(s[8..]) then
      Some(Date(DigitsValue(s[..4]), DigitsValue(s[5..7]), DayValue(s[8..])))
    else None
  }

  /** `datetime.strptime(s, '%Y-%m-%d')`: the parsed date, or None where it raises ValueError. */
  function Strptime(s: string): Option<Date> {
    match MatchYmd(s)
    case Some(d) => if ValidDate(d) then Some(d) else None
    case None => None
  }

  /** ISO 8601 extended calendar date: YYYY-MM-DD, zero-padded. */
  function IsoDate(d: Date): string {
    DateText(d.year, d.month, d.day)
  }

  function MonthSpellings(m: nat): set<string> {
    {ZeroPad(m, 2)} + (if m < 10 then {NatToString(m)} else {})
  }

  function DaySpellings(d: nat): set<string> {
    {ZeroPad(d, 2)} + (if d < 10 then {NatToString(d), " " + NatToString(d)} else {})
  }

  /** s spells d: four-digit year, month zero-padded or one digit, day zero-padded, one digit or space and digit. */
  ghost predicate SpelledAs(s: string, d: Date) {
    exists mt, dt :: mt in MonthSpellings(d.month) && dt in DaySpellings(d.day) && s == ZeroPad(d.year, 4) + "-" + mt + "-" + dt
  }

  /** Exactly the spellings of real dates parse, each to the date it spells. */
  lemma StrptimeSpellings(s: string, d: Date)
    ensures Strptime(s) == Some(d) <==> ValidDate(d) && SpelledAs(s, d)
  {
    if Strptime(s) == Some(d) {
      ParsedIsSpelled(s, d);
    }
    if ValidDate(d) && SpelledAs(s, d) {
      var mt, dt :| mt in MonthSpellings(d.month) && dt in DaySpellings(d.day) && s == ZeroPad(d.year, 4) + "-" + mt + "-" + dt;
      SpelledIsParsed(s, d, mt, dt);
    }
  }

  /** The ISO 8601 form of every real date is accepted and read back as that date. */
  lemma IsoDateAccepted(d: Date)
    requires ValidDate(d)
    ensures Strptime(IsoDate(d)) == Some(d)
  {
    assert ZeroPad(d.month, 2) in MonthSpellings(d.month);
    assert ZeroPad(d.day, 2) in DaySpellings(d.day);
    SpelledIsParsed(IsoDate(d), d, ZeroPad(d.month, 2), ZeroPad(d.day, 2));
  }

  /** 2024-01-15 is accepted. */
  lemma AcceptsIsoExample()
    ensures Strptime("2024-01-15") == Some(Date(2024, 1, 15))
  {
    var s := "2024-01-15";
    assert s[..4] == "2024" && s[5..7] == "01" && s[8..] == "15";
    assert DigitsValue("2024") == 2024 by {
      assert "2024"[..3] == "202" && "202"[..2] == "20" && "20"[..1] == "2";
    }
    assert DigitsValue("01") == 1 by { assert "01"[..1] == "0"; }
    assert DigitsValue("15") == 15 by { assert "15"[..1] == "1"; }
  }

  /** 2024-02-30 matches the pattern but is not a real date. */
  lemma RejectsFebruary30()
    ensures Strptime("2024-02-30") == None
  {
    var t := "2024-02-30";
    assert t[..4] == "2024" && t[5..7] == "02" && t[8..] == "30";
    assert DigitsValue("02") == 2 by { assert "02"[..1] == "0"; }
  }

  /** Year 0000 matches the pattern but is out of datetime's range. */
  lemma RejectsYearZero()
    ensures Strptime("0000-01-01") == None
  {
    var z := "0000-01-01";
    assert z[..4] == "0000";
    assert DigitsValue("0000") == 0 by {
      assert "0000"[..3] == "000" && "000"[..2] == "00" && "00"[..1] == "0";
    }
  }

  /** One-digit month and day need no padding. */
  lemma AcceptsUnpadded()
    ensures Strptime("2024-1-5") == Some(Date(2024, 1, 5))
  {
    var u := "2024-1-5";
    assert u[..4] == "2024" && u[5..6] == "1" && u[7..] == "5";
    assert DigitsValue("2024") == 2024 by {
      assert "2024"[..3] == "202" && "202"[..2] == "20" && "20"[..1] == "2";
    }
  }

  // ---- helper lemmas ----

  lemma {:induction false} NatToStringOfDigits(t: string)
    requires |t| > 0 && AllDigits(t) && (|t| == 1 || t[0] != '0')
    ensures NatToString(DigitsValue(t)) == t
    decreases |t|
  {
    var v := DigitsValue(t);
    var last := t[|t| - 1] as int - '0' as int;
    if |t| == 1 {
      assert t == [DigitChar(last)];
    } else {
      var p := t[..|t| - 1];
      NatToStringOfDigits(p);
      var a := DigitsValue(p);
      assert p[0] == t[0];
      assert v == a * 10 + last;
      assert v / 10 == a && v % 10 == last;
      assert t == p + [DigitChar(last)];
    }
  }

  /** A fixed-width run of digits is the zero-padded spelling of its value. */
  lemma {:induction false} DigitsCanonical(t: string)
    requires |t| > 0 && AllDigits(t)
    ensures ZeroPad(DigitsValue(t), |t|) == t
    decreases |t|
  {
    var v := DigitsValue(t);
    if |t| > 1 && t[0] == '0' {
      var r := t[1..];
      assert t == "0" + r;
      LeadingZeroValue(r);
      DigitsCanonical(r);
      assert |NatToString(v)| <= |r|;
    } else {
      NatToStringOfDigits(t);
    }
  }

  lemma OneDigitValue(c: char)
    requires IsDigit(c)
    ensures DigitsValue([c]) == c as int - '0' as int
    ensures NatToString(DigitsValue([c])) == [c]
  {
    assert [c][..0] == [];
    NatToStringOfDigits([c]);
  }

  lemma MonthTextIn(t: string)
    requires MonthField(t)
    ensures AllDigits(t) && t in MonthSpellings(DigitsValue(t))
  {
    if |t| == 1 {
      OneDigitValue(t[0]);
      assert t == [t[0]];
    } else {
      DigitsCanonical(t);
    }
  }

  lemma DayTextIn(t: string)
    requires DayField(t)
    ensures t in DaySpellings(DayValue(t))
  {
    if |t| == 1 {
      OneDigitValue(t[0]);
      assert t == [t[0]];
    } else if t[0] == ' ' {
      assert t[1..] == [t[1]];
      OneDigitValue(t[1]);
      assert t == " " + t[1..];
    } else {
      DigitsCanonical(t);
    }
  }

  lemma ParsedIsSpelled(s: string, d: Date)
    requires Strptime(s) == Some(d)
    ensures ValidDate(d) && SpelledAs(s, d)
  {
    var y := s[..4];
    DigitsCanonical(y);
    if s[6] == '-' && MonthField(s[5..6]) && DayField(s[7..]) {
      MonthTextIn(s[5..6]);
      DayTextIn(s[7..]);
      assert s == y + "-" + s[5..6] + "-" + s[7..];
    } else {
      MonthTextIn(s[5..7]);
      DayTextIn(s[8..]);
      assert s == y + "-" + s[5..7] + "-" + s[8..];
    }
  }

  lemma MonthSpellingParses(m: nat, mt: string)
    requires 1 <= m <= 12 && mt in MonthSpellings(m)
    ensures MonthField(mt) && AllDigits(mt) && DigitsValue(mt) == m
    ensures |mt| == 1 <==> mt == NatToString(m) && m < 10
    ensures |mt| == 1 || |mt| == 2
  {
    if m < 10 {
      assert NatToString(m) == [DigitChar(m)];
      assert ZeroPad(m, 2) == "0" + [DigitChar(m)];
      assert ("0" + [DigitChar(m)])[..1] == "0";
    } else {
      assert NatToString(m) == NatToString(1) + [DigitChar(m % 10)];
      assert ZeroPad(m, 2) == [DigitChar(1), DigitChar(m % 10)];
      assert [DigitChar(1), DigitChar(m % 10)][..1] == [DigitChar(1)];
    }
  }

  lemma DaySpellingParses(d: nat, dt: string)
    requires 1 <= d <= 31 && dt in DaySpellings(d)
    ensures DayField(dt) && DayValue(dt) == d
  {
    if d < 10 {
      var c := DigitChar(d);
      OneDigitValue(c);
      assert NatToString(d) == [c];
      if dt == ZeroPad(d, 2) {
        assert dt == "0" + [c];
        LeadingZeroValue([c]);
      } else if dt == [c] {
      } else {
        assert dt == " " + [c];
        assert dt[1..] == [c];
      }
    } else {
      assert NatToString(d) == NatToString(d / 10) + [DigitChar(d % 10)];
      assert NatToString(d / 10) == [DigitChar(d / 10)];
      assert dt == [DigitChar(d / 10), DigitChar(d % 10)];
      assert dt[..1] == [DigitChar(d / 10)];
      OneDigitValue(DigitChar(d / 10));
      assert DigitsValue(dt) == (d / 10) * 10 + d % 10;
    }
  }

  lemma YearWidth(y: nat)
    requires y <= 9999
    ensures |ZeroPad(y, 4)| == 4
  {
    if y >= 10 {
      assert NatToString(y) == NatToString(y / 10) + [DigitChar(y % 10)];
      if y >= 100 {
        assert NatToString(y / 10) == NatToString(y / 100) + [DigitChar((y / 10) % 10)];
        if y >= 1000 {
          assert NatToString(y / 100) == NatToString(y / 1000) + [DigitChar((y / 100) % 10)];
        }
      }
    }
  }

  lemma SpelledIsParsed(s: string, d: Date, mt: string, dt: string)
    requires ValidDate(d) && mt in MonthSpellings(d.month) && dt in DaySpellings(d.day)
    requires s == ZeroPad(d.year, 4) + "-" + mt + "-" + dt
    ensures Strptime(s) == Some(d)
  {
    var y := ZeroPad(d.year, 4);
    YearWidth(d.year);
    ZeroPadValue(d.year, 4);
    MonthSpellingParses(d.month, mt);
    DaySpellingParses(d.day, dt);
    assert s[..4] == y && s[4] == '-';
    if |mt| == 1 {
      assert s[5..6] == mt && s[6] == '-' && s[7..] == dt;
    } else {
      assert s[6] == mt[1] && IsDigit(mt[1]);
      assert s[5..7] == mt && s[7] == '-' && s[8..] == dt;
    }
  }
}

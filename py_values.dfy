/**
 * The Python-level values the data manager passes around: spreadsheet and
 * DataFrame cells, the exceptions its code raises or lets through, and the
 * text conversions (`str(n)`, `str(cell)`, `', '.join(..)`) its messages use.
 */
module PyValues {

  /** One DataFrame / worksheet cell. `Missing` is pandas' NaN, `Null` is Python's None. */
  datatype Cell =
    | Str(s: string)
    | Int(n: int)
    | DateTime(year: nat, month: nat, day: nat)
    | Missing
    | Null

  /** `pd.isna(value)` */
  predicate IsNa(c: Cell) {
    c.Missing? || c.Null?
  }

  /** The exceptions the modelled code raises, with the part of their message it fixes. */
  datatype PyError =
    | ValueError(msg: string)
    | KeyError(key: string)
    | IndexError
    | TypeError
    | AttributeError(name: string)
    | NotImplementedError(msg: string)

  datatype Option<+T> = None | Some(value: T)

  /** A value, or the exception that escaped instead. */
  datatype Result<+T> = Ok(value: T) | Err(error: PyError) {
    predicate IsFailure() {
      Err?
    }

    function PropagateFailure<U>(): Result<U>
      requires Err?
    {
      Err(error)
    }

    function Extract(): T
      requires Ok?
    {
      value
    }
  }

  predicate IsDigit(c: char) {
    '0' <= c <= '9'
  }

  predicate AllDigits(s: string) {
    forall i :: 0 <= i < |s| ==> IsDigit(s[i])
  }

  function DigitChar(d: nat): (c: char)
    requires d < 10
    ensures IsDigit(c) && c as int - '0' as int == d
  {
    ('0' as int + d) as char
  }

  /** Decimal value of a string of ASCII digits (most significant first). */
  function DigitsValue(s: string): nat
    requires AllDigits(s)
  {
    if s == [] then 0 else DigitsValue(s[..|s| - 1]) * 10 + (s[|s| - 1] as int - '0' as int)
  }

  /** `str(n)` for n >= 0: decimal, no leading zeros. */
  function NatToString(n: nat): (s: string)
    ensures |s| > 0 && AllDigits(s)
    ensures n >= 10 <==> |s| > 1
    ensures |s| > 1 ==> s[0] != '0'
    decreases n
  {
    if n < 10 then [DigitChar(n)] else NatToString(n / 10) + [DigitChar(n % 10)]
  }

  /** `str(n)` for a Python int. */
  function IntToString(n: int): string {
    if n < 0 then "-" + NatToString(-n) else NatToString(n)
  }

  lemma {:induction false} NatToStringValue(n: nat)
    ensures DigitsValue(NatToString(n)) == n
    decreases n
  {
    if n >= 10 {
      NatToStringValue(n / 10);
      var s := NatToString(n);
      assert s[..|s| - 1] == NatToString(n / 10);
    }
  }

  /** `'%0*d' % (width, n)`: n in decimal, left-padded with zeros to `width` characters. */
  function ZeroPad(n: nat, width: nat): (s: string)
    ensures AllDigits(s)
    ensures |s| == if |NatToString(n)| < width then width else |NatToString(n)|
    decreases width
  {
    if |NatToString(n)| < width then "0" + ZeroPad(n, width - 1) else NatToString(n)
  }

  lemma {:induction false} ZeroPadValue(n: nat, width: nat)
    ensures DigitsValue(ZeroPad(n, width)) == n
    decreases width
  {
    if |NatToString(n)| < width {
      ZeroPadValue(n, width - 1);
      LeadingZeroValue(ZeroPad(n, width - 1));
    } else {
      NatToStringValue(n);
    }
  }

  lemma {:induction false} LeadingZeroValue(s: string)
    requires AllDigits(s)
    ensures DigitsValue("0" + s) == DigitsValue(s)
    decreases |s|
  {
    if s != [] {
      var t := "0" + s;
      assert t[..|t| - 1] == "0" + s[..|s| - 1];
      LeadingZeroValue(s[..|s| - 1]);
    }
  }

  /** A date as `YYYY-MM-DD`, each field zero-padded. */
  function DateText(y: nat, m: nat, d: nat): string {
    ZeroPad(y, 4) + "-" + ZeroPad(m, 2) + "-" + ZeroPad(d, 2)
  }

  /** `str(value)` for a cell (a datetime prints as its midnight ISO form). */
  function PyStr(c: Cell): string {
    match c
    case Str(s) => s
    case Int(n) => IntToString(n)
    case DateTime(y, m, d) => DateText(y, m, d) + " 00:00:00"
    case Missing => "nan"
    case Null => "None"
  }

  /** `sep.join(xs)` */
  function Join(sep: string, xs: seq<string>): string {
    if |xs| == 0 then ""
    else if |xs| == 1 then xs[0]
    else Join(sep, xs[..|xs| - 1]) + sep + xs[|xs| - 1]
  }

  /** Every cell is a Python str: the precondition of `', '.join(..)` not raising TypeError. */
  predicate AllStr(cs: seq<Cell>) {
    forall i :: 0 <= i < |cs| ==> cs[i].Str?
  }

  function Texts(cs: seq<Cell>): (r: seq<string>)
    requires AllStr(cs)
    ensures |r| == |cs| && forall i :: 0 <= i < |cs| ==> r[i] == cs[i].s
  {
    if cs == [] then [] else Texts(cs[..|cs| - 1]) + [cs[|cs| - 1].s]
  }
}

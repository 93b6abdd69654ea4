/**
 * IntegerType: a value is an integer when Python's `int(value)` accepts it.
 * The check keeps no state and ignores its keyword arguments, so neither
 * appears here; an exception from the conversion reads as False.
 */
module IntegerType {
  import opened PyValues
  import opened PyInt

  /** `IntegerType().check(value)` */
  function Check(v: Cell): (ok: bool)
    ensures ok <==> v.Int? || (v.Str? && IsIntLiteral(v.s))
  {
    match v
    case Int(_) => true
    case Str(s) => ParseInt(s).Some?
    case DateTime(_, _, _) => false  // int(datetime) raises TypeError
    case Missing => false            // int(nan) raises ValueError
    case Null => false               // int(None) raises TypeError
  }

  /** `help_info()` */
  function HelpInfo(): (s: string)
    ensures s == "Integer"
  {
    "Integer"
  }

  /** Every Python int is accepted, and so is its decimal text. */
  lemma AcceptsIntegers(n: int)
    ensures Check(Int(n)) && Check(Str(IntToString(n)))
  {
    ParseIntRoundTrip(n);
  }

  /** The empty string and a decimal fraction are not integers; the date sentinel texts are. */
  lemma Examples()
    ensures !Check(Str("")) && !Check(Str("12.5"))
    ensures Check(Str("-9999")) && Check(Str("-6666"))
    ensures !Check(Missing) && !Check(Null) && !Check(DateTime(2024, 1, 15))
  {
    RejectedLiterals();
    SentinelLiterals();
  }
}

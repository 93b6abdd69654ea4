/**
 * StringType: every value is a string. The class has no constructor and no
 * fields, and `check` ignores its keyword arguments.
 */
module StringType {
  import opened PyValues

  /** `StringType().check(value)` */
  function Check(v: Cell): (ok: bool)
    ensures ok
  {
    true
  }

  /** `help_info()` */
  function HelpInfo(): (s: string)
    ensures s == "String"
  {
    "String"
  }
}

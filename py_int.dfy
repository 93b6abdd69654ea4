/**
 * Python's `int(x)` on a str, base 10: optional surrounding whitespace, an
 * optional sign, then decimal digits in which single underscores may separate
 * digits. Everything else raises ValueError. Digits are the ASCII ones.
 */
module PyInt {
  import opened PyValues

  /**
   * The characters `int()` strips around the literal: the ASCII space and
   * `\t` .. `\r`, and the non-ASCII characters for which `str.isspace()`
   * holds (the ASCII separators U+001C .. U+001F are not stripped).
   */
  predicate IsSpace(c: char) {
    || c == ' '
    || ('\t' <= c <= '\r')
    || c == '\U{85}' || c == '\U{A0}' || c == '\U{1680}'
    || ('\U{2000}' <= c <= '\U{200A}')
    || c == '\U{2028}' || c == '\U{2029}' || c == '\U{202F}' || c == '\U{205F}' || c == '\U{3000}'
  }

  predicate AllSpace(s: string) {
    forall i :: 0 <= i < |s| ==> IsSpace(s[i])
  }

  /** Digits, with an underscore allowed only between two digits. */
  predicate UnderscoredDigits(t: string) {
    && |t| > 0
    && IsDigit(t[0]) && IsDigit(t[|t| - 1])
    && (forall k :: 0 <= k < |t| ==> IsDigit(t[k]) || t[k] == '_')
    && (forall k :: 0 < k < |t| && t[k] == '_' ==> t[k - 1] != '_')
  }

  predicate SignedDigits(t: string) {
    if |t| > 0 && (t[0] == '+' || t[0] == '-') then UnderscoredDigits(t[1..]) else UnderscoredDigits(t)
  }

  /** The literals `int()` accepts: whitespace, signed digits, whitespace. */
  ghost predicate IsIntLiteral(s: string) {
    exists i, j :: 0 <= i <= j <= |s| && AllSpace(s[..i]) && AllSpace(s[j..]) && SignedDigits(s[i..j])
  }

  function RemoveUnderscores(t: string): (r: string)
    ensures |r| <= |t|
    ensures (forall k :: 0 <= k < |t| ==> IsDigit(t[k]) || t[k] == '_') ==> AllDigits(r)
  {
    if t == [] then []
    else if t[|t| - 1] == '_' then RemoveUnderscores(t[..|t| - 1])
    else RemoveUnderscores(t[..|t| - 1]) + [t[|t| - 1]]
  }

  /** Index of the first non-space character. */
  function LeftEnd(s: string): (i: nat)
    ensures i <= |s| && AllSpace(s[..i]) && (i < |s| ==> !IsSpace(s[i]))
  {
    if s == [] || !IsSpace(s[0]) then 0
    else
      var i := 1 + LeftEnd(s[1..]);
      assert s[..i] == [s[0]] + s[1..][..i - 1];
      i
  }

  /** One past the last non-space character. */
  function RightEnd(s: string): (j: nat)
    ensures j <= |s| && AllSpace(s[j..]) && (j > 0 ==> !IsSpace(s[j - 1]))
  {
    if s == [] || !IsSpace(s[|s| - 1]) then |s|
    else
      var j := RightEnd(s[..|s| - 1]);
      assert s[j..] == s[..|s| - 1][j..] + [s[|s| - 1]];
      j
  }

  /** `s.strip()` */
  function Strip(s: string): string {
    var i := LeftEnd(s);
    s[i..][..RightEnd(s[i..])]
  }

  function ParseDigits(t: string): Option<int> {
    if UnderscoredDigits(t) then
      Some(DigitsValue(RemoveUnderscores(t)) as int)
    else None
  }

  function ParseSigned(t: string): Option<int> {
    if |t| > 0 && t[0] == '-' then
      (match ParseDigits(t[1..]) case Some(v) => Some(-v) case None => None)
    else if |t| > 0 && t[0] == '+' then ParseDigits(t[1..])
    else ParseDigits(t)
  }

  /** `int(s)`: the value, or None where Python raises ValueError. */
  function ParseInt(s: string): (r: Option<int>)
    ensures r.Some? <==> IsIntLiteral(s)
  {
    var r := ParseSigned(Strip(s));
    AcceptedIffLiteral(s);
    r
  }

  lemma AcceptedIffLiteral(s: string)
    ensures ParseSigned(Strip(s)).Some? <==> IsIntLiteral(s)
  {
    if ParseSigned(Strip(s)).Some? {
      AcceptedIsLiteral(s);
    }
    if IsIntLiteral(s) {
      var i', j' :| 0 <= i' <= j' <= |s| && AllSpace(s[..i']) && AllSpace(s[j'..]) && SignedDigits(s[i'..j']);
      LiteralBounds(s, i', j');
      SignedAccepted(s[i'..j']);
    }
  }

  /** Whatever `int()` accepts, the stripped slice is its witness. */
  lemma AcceptedIsLiteral(s: string)
    requires ParseSigned(Strip(s)).Some?
    ensures IsIntLiteral(s)
  {
    var i := LeftEnd(s);
    var j := i + RightEnd(s[i..]);
    assert Strip(s) == s[i..j];
    assert s[j..] == s[i..][RightEnd(s[i..])..];
    SignedAccepted(s[i..j]);
  }

  lemma SignedAccepted(t: string)
    ensures ParseSigned(t).Some? <==> SignedDigits(t)
  {
  }

  /** The slice of a literal between its whitespace is the stripped text. */
  lemma LiteralBounds(s: string, i': nat, j': nat)
    requires i' <= j' <= |s| && AllSpace(s[..i']) && AllSpace(s[j'..]) && SignedDigits(s[i'..j'])
    ensures Strip(s) == s[i'..j']
  {
    var u := s[i'..];
    assert u[..j' - i'] == s[i'..j'];
    assert u[j' - i'..] == s[j'..];
    SignedDigitsEdges(s[i'..j']);
    LeftEndAt(s, i');
    RightEndAt(u, j' - i');
  }

  /** A signed-digit literal neither starts nor ends with whitespace. */
  lemma SignedDigitsEdges(t: string)
    requires SignedDigits(t)
    ensures |t| > 0 && !IsSpace(t[0]) && !IsSpace(t[|t| - 1])
  {
    if |t| > 0 && (t[0] == '+' || t[0] == '-') {
      var u := t[1..];
      assert u[|u| - 1] == t[|t| - 1];
    }
  }

  lemma {:induction false} LeftEndAt(s: string, i: nat)
    requires i < |s| && AllSpace(s[..i]) && !IsSpace(s[i])
    ensures LeftEnd(s) == i
    decreases i
  {
    if i > 0 {
      assert s[1..][..i - 1] == s[1..i];
      LeftEndAt(s[1..], i - 1);
    }
  }

  lemma RightEndAt(u: string, j: nat)
    requires 0 < j <= |u| && AllSpace(u[j..]) && SignedDigits(u[..j])
    ensures RightEnd(u) == j
  {
    SignedDigitsEdges(u[..j]);
    assert !IsSpace(u[j - 1]);
    RightEndAtNonSpace(u, j);
  }

  lemma {:induction false} RightEndAtNonSpace(u: string, j: nat)
    requires 0 < j <= |u| && AllSpace(u[j..]) && !IsSpace(u[j - 1])
    ensures RightEnd(u) == j
    decreases |u|
  {
    if j < |u| {
      var v := u[..|u| - 1];
      assert v[j..] == u[j..|u| - 1];
      assert forall k :: 0 <= k < |v| - j ==> v[j..][k] == u[j..][k];
      RightEndAtNonSpace(v, j);
    }
  }

  lemma AllDigitsNoUnderscore(t: string)
    requires AllDigits(t)
    ensures RemoveUnderscores(t) == t
  {
    if t != [] {
      AllDigitsNoUnderscore(t[..|t| - 1]);
      assert t == t[..|t| - 1] + [t[|t| - 1]];
    }
  }

  lemma NoSpaceInDecimal(t: string)
    requires forall k :: 0 <= k < |t| ==> IsDigit(t[k]) || t[k] == '-'
    ensures Strip(t) == t
  {
    if t != [] {
      assert !IsSpace(t[0]);
      assert LeftEnd(t) == 0;
      assert t[0..] == t;
      assert !IsSpace(t[|t| - 1]);
    }
  }

  /** `int(str(n)) == n`: every integer's decimal text is accepted and read back exactly. */
  lemma ParseIntRoundTrip(n: int)
    ensures ParseInt(IntToString(n)) == Some(n)
  {
    var t := IntToString(n);
    var m: nat := if n < 0 then -n else n;
    NoSpaceInDecimal(t);
    DecimalDigits(m);
    if n < 0 {
      assert t[1..] == NatToString(m);
    }
  }

  lemma DecimalDigits(m: nat)
    ensures ParseDigits(NatToString(m)) == Some(m)
    ensures IsDigit(NatToString(m)[0])
  {
    var d := NatToString(m);
    AllDigitsNoUnderscore(d);
    NatToStringValue(m);
    assert UnderscoredDigits(d);
  }

  lemma SentinelTexts()
    ensures IntToString(-9999) == "-9999" && IntToString(-6666) == "-6666"
  {
    assert NatToString(9) == "9" && NatToString(99) == "99" && NatToString(999) == "999";
    assert NatToString(6) == "6" && NatToString(66) == "66" && NatToString(666) == "666";
  }

  /** The text forms of the two date sentinel codes are integers. */
  lemma SentinelLiterals()
    ensures ParseInt("-9999") == Some(-9999)
    ensures ParseInt("-6666") == Some(-6666)
  {
    SentinelTexts();
    ParseIntRoundTrip(-9999);
    ParseIntRoundTrip(-6666);
  }

  /** Neither the empty string nor a decimal fraction is an integer literal. */
  lemma RejectedLiterals()
    ensures ParseInt("") == None
    ensures ParseInt("12.5") == None
  {
    assert !SignedDigits("12.5") by {
      assert "12.5"[2] == '.';
    }
    assert Strip("12.5") == "12.5" by {
      assert LeftEnd("12.5") == 0;
      assert RightEnd("12.5") == 4;
    }
  }

  /**
   * A text that starts and ends with a digit but has some other symbol inside
   * (a date such as "2024-01-15") is not an integer literal.
   */
  lemma RejectsInnerSymbol(s: string, k: nat)
    requires 0 < k < |s| - 1 && IsDigit(s[0]) && IsDigit(s[|s| - 1])
    requires !IsDigit(s[k]) && s[k] != '_'
    ensures ParseInt(s) == None
  {
    assert LeftEnd(s) == 0;
    assert RightEnd(s) == |s|;
    assert Strip(s) == s;
    assert !UnderscoredDigits(s);
  }
}

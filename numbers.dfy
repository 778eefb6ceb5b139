/** Decimal conversions between integers and strings as the client performs
    them with `String(n)`, `parseInt(s)`, `Number(s)` and `padStart(2, '0')`.
    A result of `None` stands for `NaN`. */
module Numbers {
  import opened Js
  import opened Strings

  predicate IsDigit(c: char) {
    '0' <= c <= '9'
  }

  predicate AllDigits(s: string) {
    forall i :: 0 <= i < |s| ==> IsDigit(s[i])
  }

  function DigitChar(d: int): (c: char)
    requires 0 <= d < 10
    ensures IsDigit(c)
  {
    ('0' as int + d) as char
  }

  function DigitValue(c: char): (d: nat)
    requires IsDigit(c)
    ensures d < 10 && DigitChar(d) == c
  {
    c as int - '0' as int
  }

  /** `String(n)` for a non-negative integer: its decimal digits, most significant first. */
  function NatToString(n: nat): (s: string)
    ensures |s| >= 1 && AllDigits(s)
    ensures s[0] == '0' ==> n == 0
    decreases n
  {
    if n < 10 then [DigitChar(n)] else NatToString(n / 10) + [DigitChar(n % 10)]
  }

  /** `String(i)` for any integer. */
  function IntToString(i: int): (s: string)
    ensures |s| >= 1
    ensures s[0] == '-' <==> i < 0
  {
    if i < 0 then "-" + NatToString(-i) else NatToString(i)
  }

  /** The number a string of decimal digits denotes. */
  function DigitsValue(s: string): nat
    requires AllDigits(s)
    decreases |s|
  {
    if |s| == 0 then 0 else DigitsValue(s[..|s| - 1]) * 10 + DigitValue(s[|s| - 1])
  }

  /** Reading the digits of `String(n)` gives back `n`. */
  lemma {:induction false} DigitsValueOfNatToString(n: nat)
    ensures DigitsValue(NatToString(n)) == n
    decreases n
  {
    if n >= 10 {
      var s := NatToString(n);
      DigitsValueOfNatToString(n / 10);
      assert s[..|s| - 1] == NatToString(n / 10);
    }
  }

  /** The longest prefix of `s` made of decimal digits. */
  function DigitPrefix(s: string): (p: string)
    ensures StartsWith(s, p) && AllDigits(p)
    ensures |p| < |s| ==> !IsDigit(s[|p|])
    decreases |s|
  {
    if |s| == 0 || !IsDigit(s[0]) then "" else [s[0]] + DigitPrefix(s[1..])
  }

  /** A digit string is its own digit prefix. */
  lemma {:induction false} DigitPrefixOfDigits(s: string)
    requires AllDigits(s)
    ensures DigitPrefix(s) == s
    decreases |s|
  {
    if |s| > 0 {
      DigitPrefixOfDigits(s[1..]);
    }
  }

  /** Leading whitespace removed, as `parseInt` does before reading. */
  function TrimStart(s: string): (r: string)
    ensures |r| <= |s| && s[|s| - |r|..] == r
    ensures r == "" || !IsSpace(r[0])
    decreases |s|
  {
    if |s| > 0 && IsSpace(s[0]) then TrimStart(s[1..]) else s
  }

  /** The text after an optional leading sign. */
  function AfterSign(t: string): (b: string)
    ensures |b| <= |t|
  {
    if |t| > 0 && (t[0] == '-' || t[0] == '+') then t[1..] else t
  }

  /** `parseInt(s)` in base 10: leading whitespace, an optional sign, then the
      longest run of digits; `NaN` when no digit follows the sign. */
  function ParseInt(s: string): (r: Option<int>)
    ensures var b := AfterSign(TrimStart(s)); r.None? <==> !(|b| > 0 && IsDigit(b[0]))
  {
    var t := TrimStart(s);
    var d := DigitPrefix(AfterSign(t));
    if d == "" then None
    else
      var v: int := DigitsValue(d);
      Some(if |t| > 0 && t[0] == '-' then -v else v)
  }

  /** `parseInt(String(n))` is `n`. */
  lemma ParseIntOfNatToString(n: nat)
    ensures ParseInt(NatToString(n)) == Some(n)
  {
    var s := NatToString(n);
    assert IsDigit(s[0]) && !IsSpace(s[0]);
    assert TrimStart(s) == s;
    assert AfterSign(s) == s;
    DigitPrefixOfDigits(s);
    assert DigitPrefix(AfterSign(TrimStart(s))) == s;
    DigitsValueOfNatToString(n);
  }

  /** A minus sign followed by digits reads as the negated digits. */
  lemma ParseIntOfNegative(u: string)
    requires |u| > 0 && AllDigits(u)
    ensures var v: int := DigitsValue(u); ParseInt("-" + u) == Some(-v)
  {
    var s := "-" + u;
    assert s[0] == '-' && !IsSpace(s[0]);
    assert TrimStart(s) == s;
    assert s[1..] == u;
    assert AfterSign(s) == u;
    DigitPrefixOfDigits(u);
    assert DigitPrefix(AfterSign(TrimStart(s))) == u;
  }

  /** `parseInt("-" + String(n))` is `-n`. */
  lemma ParseIntOfMinusNat(n: nat)
    ensures var v: int := n; ParseInt("-" + NatToString(n)) == Some(-v)
  {
    ParseIntOfNegative(NatToString(n));
    DigitsValueOfNatToString(n);
  }

  /** `parseInt(String(i))` is `i` for every integer. */
  lemma ParseIntOfIntToString(i: int)
    ensures ParseInt(IntToString(i)) == Some(i)
  {
    if i < 0 {
      var n: nat := -i;
      var s := "-" + NatToString(n);
      ParseIntOfMinusNat(n);
      assert ParseInt(s) == Some(i);
      assert IntToString(i) == s;
    } else {
      assert IntToString(i) == NatToString(i);
      ParseIntOfNatToString(i);
    }
  }

  /** `Number(s)` on the strings the client passes it: surrounding whitespace is
      ignored, the empty string is 0, a decimal integer with an optional `+` or
      `-` sign is its value, anything else is `NaN`. */
  function ToNumber(s: string): (r: Option<int>)
    ensures Trim(s) == "" ==> r == Some(0)
    ensures AllDigits(Trim(s)) ==> r == Some(DigitsValue(Trim(s)))
    ensures |Trim(s)| > 1 && Trim(s)[0] == '+' && AllDigits(Trim(s)[1..]) ==>
      r == Some(DigitsValue(Trim(s)[1..]))
    ensures |Trim(s)| > 1 && Trim(s)[0] == '-' && AllDigits(Trim(s)[1..]) ==>
      r == Some(-(DigitsValue(Trim(s)[1..]) as int))
    ensures r.None? <==>
      (Trim(s) != "" && !AllDigits(Trim(s)) &&
       !(|Trim(s)| > 1 && (Trim(s)[0] == '+' || Trim(s)[0] == '-') && AllDigits(Trim(s)[1..])))
  {
    var t := Trim(s);
    if t == "" then Some(0)
    else if AllDigits(t) then Some(DigitsValue(t))
    else if t[0] == '+' && |t| > 1 && AllDigits(t[1..]) then var v: int := DigitsValue(t[1..]); Some(v)
    else if t[0] == '-' && |t| > 1 && AllDigits(t[1..]) then var v: int := DigitsValue(t[1..]); Some(-v)
    else None
  }

  /** `Number(String(n))` is `n`. */
  lemma ToNumberOfNatToString(n: nat)
    ensures ToNumber(NatToString(n)) == Some(n)
  {
    var s := NatToString(n);
    assert Trim(s) == s;
    DigitsValueOfNatToString(n);
  }

  /** A leading `+` is accepted, as by `Number("+5")`; a sign alone is `NaN`. */
  lemma SignedText()
    ensures ToNumber("+5") == Some(5)
    ensures ToNumber(" -12") == Some(-12)
    ensures ToNumber("+") == None
  {
    assert Trim("+5") == "+5";
    assert "+5"[1..] == "5";
    assert Trim(" -12") == "-12";
    assert "-12"[1..] == "12";
    assert Trim("+") == "+";
  }

  /** `String(n).padStart(2, '0')`. */
  function Pad2(n: nat): (s: string)
    ensures |s| >= 2 && AllDigits(s)
  {
    var d := NatToString(n);
    if |d| < 2 then "0" + d else d
  }

  /** For a month or day number below 100 the padded form is two digits that read back as the number. */
  lemma Pad2Value(n: nat)
    requires n < 100
    ensures |Pad2(n)| == 2 && DigitsValue(Pad2(n)) == n
  {
    var d := NatToString(n);
    DigitsValueOfNatToString(n);
    if n < 10 {
      var s := Pad2(n);
      assert s[..1] == "0";
    } else {
      assert NatToString(n / 10) == [DigitChar(n / 10)];
    }
  }

  /** `String(v)` for a scalar. */
  function ToJsString(v: JsValue): string {
    match v
    case JUndefined => "undefined"
    case JNull => "null"
    case JBool(b) => if b then "true" else "false"
    case JNum(n) => IntToString(n)
    case JStr(s) => s
  }
}

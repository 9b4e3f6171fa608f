/**
 * Integer and decimal text as main.go reads and writes it: `strconv.Atoi`,
 * `%d` formatting, and the decimal part of `strconv.ParseFloat` (as an exact
 * real, without IEEE rounding).
 */
module GoStrconv {
  import opened Wrappers
  import opened GoStrings

  predicate IsDigit(ch: char)
  {
    '0' <= ch <= '9'
  }

  predicate AllDigits(s: string)
  {
    forall i :: 0 <= i < |s| ==> IsDigit(s[i])
  }

  function DigitValue(ch: char): (d: nat)
    requires IsDigit(ch)
    ensures d < 10
  {
    ch as int - '0' as int
  }

  function DigitChar(d: nat): (ch: char)
    requires d < 10
    ensures IsDigit(ch) && DigitValue(ch) == d
  {
    ('0' as int + d) as char
  }

  /** The value of a string of decimal digits, most significant first. */
  function DigitsValue(s: string): nat
    requires AllDigits(s)
  {
    if s == [] then 0 else DigitsValue(s[..|s| - 1]) * 10 + DigitValue(s[|s| - 1])
  }

  /**
   * `strconv.Atoi`: an optional `+` or `-` followed by at least one decimal
   * digit, and nothing else (no spaces, no underscores, no base prefix).
   */
  function Atoi(s: string): (r: Option<int>)
    ensures r.Some? ==> s != [] && forall i :: 0 < i < |s| ==> IsDigit(s[i])
    ensures r.Some? && r.value < 0 ==> s[0] == '-'
  {
    if s != [] && (s[0] == '+' || s[0] == '-') then
      var digits := s[1..];
      if digits != [] && AllDigits(digits) then
        Some(if s[0] == '-' then -(DigitsValue(digits) as int) else DigitsValue(digits))
      else None
    else if s != [] && AllDigits(s) then Some(DigitsValue(s))
    else None
  }

  /**
   * Exactly the texts `Atoi` accepts: a digit, or a sign followed by at least
   * one more character, then only digits. The value is the digits after an
   * optional sign, negated after `-`.
   */
  lemma AtoiSpec(s: string)
    ensures Atoi(s).Some? <==>
      && s != []
      && (IsDigit(s[0]) || ((s[0] == '+' || s[0] == '-') && |s| > 1))
      && forall i :: 0 < i < |s| ==> IsDigit(s[i])
    ensures Atoi(s).Some? && IsDigit(s[0]) ==> AllDigits(s) && Atoi(s).value == DigitsValue(s)
    ensures Atoi(s).Some? && s[0] == '+' ==> AllDigits(s[1..]) && Atoi(s).value == DigitsValue(s[1..])
    ensures Atoi(s).Some? && s[0] == '-' ==> AllDigits(s[1..]) && Atoi(s).value == -(DigitsValue(s[1..]) as int)
  {
    if s != [] {
      assert forall i :: 0 <= i < |s[1..]| ==> s[1..][i] == s[i + 1];
    }
  }

  /** The shortest decimal digits of `n`. */
  function NatText(n: nat): (r: string)
    ensures r != []
  {
    if n < 10 then [DigitChar(n)] else NatText(n / 10) + [DigitChar(n % 10)]
  }

  /** `NatText` prints only digits, reads back as `n`, and has no leading zero. */
  lemma {:induction false} NatTextDigits(n: nat)
    ensures AllDigits(NatText(n)) && DigitsValue(NatText(n)) == n
    ensures |NatText(n)| > 1 ==> NatText(n)[0] != '0'
    decreases n
  {
    if n >= 10 {
      NatTextDigits(n / 10);
      var r := NatText(n);
      assert r[..|r| - 1] == NatText(n / 10);
    }
  }

  /** `%d` / `strconv.Itoa`: a `-` for negative values, then the digits. */
  function Itoa(n: int): (r: string)
    ensures r != []
  {
    if n < 0 then "-" + NatText(-n) else NatText(n)
  }

  /** Only digits and `-` appear in a printed integer. */
  lemma ItoaChars(n: int)
    ensures forall i :: 0 <= i < |Itoa(n)| ==> IsDigit(Itoa(n)[i]) || Itoa(n)[i] == '-'
  {
    if n < 0 {
      NatTextDigits(-n);
      ItoaNegative(n);
      var s := Itoa(n);
      assert forall i :: 1 <= i < |s| ==> s[i] == s[1..][i - 1];
    } else {
      NatTextDigits(n);
    }
  }

  /** `strconv.Atoi` reads back what `Itoa` prints. */
  lemma {:induction false} ItoaRoundTrip(n: int)
    ensures Atoi(Itoa(n)) == Some(n)
  {
    if n < 0 {
      NatTextDigits(-n);
      AtoiNegated(NatText(-n), n);
      assert Itoa(n) == "-" + NatText(-n);
    } else {
      NatTextDigits(n);
      AtoiDigits(Itoa(n));
    }
  }

  /** A run of digits reads back as the number it denotes. */
  lemma AtoiDigits(s: string)
    requires s != [] && AllDigits(s)
    ensures Atoi(s) == Some(DigitsValue(s) as int)
  {
  }

  /** A `-` followed by the digits of `-n` reads back as `n`. */
  lemma AtoiNegated(digits: string, n: int)
    requires digits != [] && AllDigits(digits) && DigitsValue(digits) == -n
    ensures Atoi("-" + digits) == Some(n)
  {
    assert ("-" + digits)[1..] == digits;
  }

  /** Distinct integers print differently. */
  lemma ItoaInjective(m: int, n: int)
    requires Itoa(m) == Itoa(n)
    ensures m == n
  {
    ItoaRoundTrip(m);
    ItoaRoundTrip(n);
  }

  /** Separators the model relies on never occur in printed integers. */
  lemma ItoaHasNo(n: int, c: char)
    requires !IsDigit(c) && c != '-'
    ensures c !in Itoa(n)
  {
    ItoaChars(n);
  }

  function Pow10(e: nat): (r: nat)
    ensures r >= 1
  {
    if e == 0 then 1 else 10 * Pow10(e - 1)
  }

  /** `x` × 10^`e` for an integer exponent of either sign. */
  function Scale(x: real, e: int): real
  {
    if e >= 0 then x * Pow10(e) as real else x / Pow10(-e) as real
  }

  /**
   * The decimal forms `strconv.ParseFloat` accepts: an optional sign, digits
   * with at most one `.` and at least one digit, then an optional exponent
   * `e` or `E` with an optional sign and at least one digit. The value is
   * the exact real the text denotes.
   */
  function ParseFloat(s: string): Option<real>
  {
    if s != [] && (s[0] == '+' || s[0] == '-') then
      match UnsignedDecimal(s[1..])
      case Some(x) => Some(if s[0] == '-' then -x else x)
      case None => None
    else UnsignedDecimal(s)
  }

  /** A decimal number without its sign; see `ParseFloat`. */
  function UnsignedDecimal(body: string): Option<real>
  {
    // At most one of `e` and `E` can occur in well-formed text; cutting at
    // `e` first and then at `E` finds the exponent marker either way.
    var (m1, e1, has1) := Cut(body, 'e');
    var (mantissa, expText, hasExp) := if has1 then (m1, e1, true) else Cut(body, 'E');
    var exponent := if hasExp then Atoi(expText) else Some(0);
    var (intPart, fracPart, _) := Cut(mantissa, '.');
    if AllDigits(intPart) && AllDigits(fracPart) && |intPart| + |fracPart| > 0 && exponent.Some? then
      Some(Scale(DigitsValue(intPart + fracPart) as real / Pow10(|fracPart|) as real, exponent.value))
    else None
  }

  /** A run of digits alone is an unsigned decimal with that value. */
  lemma UnsignedDecimalOfDigits(body: string)
    requires body != [] && AllDigits(body)
    ensures UnsignedDecimal(body) == Some(DigitsValue(body) as real)
  {
    assert 'e' !in body && 'E' !in body && '.' !in body;
    CutSpec(body, 'e');
    CutSpec(body, 'E');
    CutSpec(body, '.');
    UnsignedDecimalUnmarked(body);
    var x := DigitsValue(body) as real;
    assert body + "" == body;
    UnscaledZero(x);
  }

  lemma UnscaledZero(x: real)
    ensures Scale(x / Pow10(0) as real, 0) == x
  {
    assert Pow10(0) as real == 1.0;
    ScaleZero(x / 1.0);
  }

  /** `UnsignedDecimal` on text with no exponent marker and no `.`, unfolded. */
  lemma UnsignedDecimalUnmarked(body: string)
    requires body != [] && AllDigits(body)
    requires !Cut(body, 'e').2 && !Cut(body, 'E').2 && !Cut(body, '.').2
    ensures UnsignedDecimal(body) == Some(Scale(DigitsValue(body + "") as real / Pow10(0) as real, 0))
  {
  }

  /** Digits, a `.` and more digits denote the digits read as one number, scaled down by the fraction's length. */
  lemma UnsignedDecimalOfFraction(intPart: string, fracPart: string)
    requires AllDigits(intPart) && AllDigits(fracPart) && |intPart| + |fracPart| > 0
    ensures UnsignedDecimal(intPart + "." + fracPart)
         == Some(DigitsValue(intPart + fracPart) as real / Pow10(|fracPart|) as real)
  {
    var body := intPart + ['.'] + fracPart;
    assert intPart + "." + fracPart == body;
    assert forall i :: 0 <= i < |body| ==> IsDigit(body[i]) || body[i] == '.';
    assert 'e' !in body && 'E' !in body && '.' !in intPart;
    CutSpec(body, 'e');
    CutSpec(body, 'E');
    CutAt(intPart, '.', fracPart);
    assert AllDigits(intPart + fracPart);
    var x := DigitsValue(intPart + fracPart) as real / Pow10(|fracPart|) as real;
    ScaleZero(x);
  }

  /**
   * Digits, an exponent marker `e` or `E`, then an integer exponent of either
   * sign: the digits' value scaled by 10 to that exponent.
   */
  lemma UnsignedDecimalOfExponent(digits: string, marker: char, k: int)
    requires digits != [] && AllDigits(digits) && (marker == 'e' || marker == 'E')
    ensures UnsignedDecimal(digits + [marker] + Itoa(k)) == Some(Scale(DigitsValue(digits) as real, k))
  {
    var body := digits + [marker] + Itoa(k);
    DigitsHaveNo(digits, marker);
    DigitsHaveNo(digits, '.');
    DigitsHaveNo(digits, 'e');
    ItoaHasNo(k, 'e');
    ItoaRoundTrip(k);
    CutSpec(digits, '.');
    if marker == 'e' {
      CutAt(digits, 'e', Itoa(k));
    } else {
      NotInConcat(digits, marker, Itoa(k), 'e');
      CutSpec(body, 'e');
      CutAt(digits, 'E', Itoa(k));
    }
    ExponentUnfolded(body, digits, k);
    DivPow10Zero(DigitsValue(digits) as real);
    assert digits + "" == digits;
  }

  lemma DigitsHaveNo(digits: string, c: char)
    requires AllDigits(digits) && !IsDigit(c)
    ensures c !in digits
  {
  }

  lemma NotInConcat(a: string, m: char, b: string, c: char)
    requires c !in a && c != m && c !in b
    ensures c !in a + [m] + b
  {
  }

  /** `UnsignedDecimal` once the exponent has been cut off and the mantissa holds no `.`. */
  lemma ExponentUnfolded(body: string, digits: string, k: int)
    requires digits != [] && AllDigits(digits) && Atoi(Itoa(k)) == Some(k)
    requires Cut(digits, '.') == (digits, "", false)
    requires Cut(body, 'e') == (digits, Itoa(k), true)
          || (!Cut(body, 'e').2 && Cut(body, 'E') == (digits, Itoa(k), true))
    ensures UnsignedDecimal(body) == Some(Scale(DigitsValue(digits + "") as real / Pow10(0) as real, k))
  {
  }

  lemma DivPow10Zero(x: real)
    ensures x / Pow10(0) as real == x
  {
    assert Pow10(0) as real == 1.0;
  }

  /**
   * The sign of a float text: `+` changes nothing and `-` negates whatever
   * the unsigned rest denotes; text without a sign is read unsigned.
   */
  lemma ParseFloatSigns(t: string)
    ensures ParseFloat("+" + t) == UnsignedDecimal(t)
    ensures ParseFloat("-" + t) == if UnsignedDecimal(t).Some? then Some(-UnsignedDecimal(t).value) else None
    ensures t != [] && t[0] != '+' && t[0] != '-' ==> ParseFloat(t) == UnsignedDecimal(t)
  {
    assert ("+" + t)[1..] == t && ("-" + t)[1..] == t;
  }

  lemma ScaleZero(x: real)
    ensures Scale(x, 0) == x
  {
    assert Pow10(0) == 1;
  }

  /** Integer text is also valid float text, denoting the same number. */
  lemma {:induction false} ParseFloatOfInteger(n: int)
    ensures ParseFloat(Itoa(n)) == Some(n as real)
  {
    if n < 0 {
      ParseFloatOfNegative(n);
    } else {
      var s := Itoa(n);
      assert s == NatText(n);
      NatTextDigits(n);
      assert IsDigit(s[0]);
      UnsignedDecimalOfDigits(s);
    }
  }

  lemma ParseFloatOfNegative(n: int)
    requires n < 0
    ensures ParseFloat(Itoa(n)) == Some(n as real)
  {
    ItoaNegative(n);
    NatTextDigits(-n);
    ParseFloatNegated(Itoa(n), NatText(-n), n);
  }

  lemma ItoaNegative(n: int)
    requires n < 0
    ensures Itoa(n)[0] == '-' && Itoa(n)[1..] == NatText(-n)
  {
  }

  /** A `-` followed by the digits of `-n` parses as `n`. */
  lemma ParseFloatNegated(s: string, digits: string, n: int)
    requires s != [] && s[0] == '-' && s[1..] == digits && digits != [] && AllDigits(digits)
    requires DigitsValue(digits) == -n
    ensures ParseFloat(s) == Some(n as real)
  {
    UnsignedDecimalOfDigits(digits);
  }

  /** The decimal text of the numbers the examples use. */
  lemma PrintedNumbers()
    ensures Itoa(360) == "360" && Itoa(1080) == "1080" && Itoa(1920) == "1920" && Itoa(30) == "30"
  {
    Text360();
    Text1080();
    Text1920();
    Text30();
  }

  lemma Text360()
    ensures Itoa(360) == "360"
  {
    assert NatText(3) == "3";
    assert NatText(36) == NatText(3) + [DigitChar(6)];
    assert NatText(360) == NatText(36) + [DigitChar(0)];
  }

  lemma Text1080()
    ensures Itoa(1080) == "1080"
  {
    assert NatText(1) == "1";
    assert NatText(10) == NatText(1) + [DigitChar(0)];
    assert NatText(108) == NatText(10) + [DigitChar(8)];
    assert NatText(1080) == NatText(108) + [DigitChar(0)];
  }

  lemma Text1920()
    ensures Itoa(1920) == "1920"
  {
    assert NatText(1) == "1";
    assert NatText(19) == NatText(1) + [DigitChar(9)];
    assert NatText(192) == NatText(19) + [DigitChar(2)];
    assert NatText(1920) == NatText(192) + [DigitChar(0)];
  }

  lemma Text30()
    ensures Itoa(30) == "30"
  {
    assert NatText(3) == "3";
    assert NatText(30) == NatText(3) + [DigitChar(0)];
  }
}

/**
 * Python's `int(text)`, `float(text)` and `int(x)` for a float, and the decimal
 * text of an integer (`f"{n}"`), as total functions: a conversion Python would
 * reject with `ValueError` gives `None`.
 */
module Numbers {
  import opened Wrappers
  import opened Text

  predicate IsDigit(c: char) { '0' <= c <= '9' }

  predicate AllDigits(s: string) { forall k :: 0 <= k < |s| ==> IsDigit(s[k]) }

  function DigitValue(c: char): (d: nat)
    requires IsDigit(c)
    ensures d < 10
  {
    (c as int) - ('0' as int)
  }

  /** The number a run of decimal digits denotes, most significant first. */
  function DigitsValue(s: string): nat
    requires AllDigits(s)
  {
    if s == [] then 0 else DigitsValue(s[..|s| - 1]) * 10 + DigitValue(s[|s| - 1])
  }

  /** Python's `int(text)`: surrounding whitespace, then an integer literal. */
  function ParseInt(s: string): Option<int>
  {
    ParseInteger(Strip(s))
  }

  /** An integer literal without surrounding whitespace: an optional sign, then decimal digits. */
  function ParseInteger(t: string): Option<int>
  {
    if t != [] && (t[0] == '+' || t[0] == '-') then
      var d := t[1..];
      if d != [] && AllDigits(d) then
        Some(if t[0] == '-' then -(DigitsValue(d) as int) else DigitsValue(d))
      else None
    else if t != [] && AllDigits(t) then Some(DigitsValue(t))
    else None
  }

  function Pow10(n: nat): (p: nat)
    ensures p >= 1
  {
    if n == 0 then 1 else 10 * Pow10(n - 1)
  }

  /** The exact value of `m` times ten to the power `e`. */
  function Scale(m: nat, e: int): real
  {
    if e >= 0 then (m * Pow10(e)) as real else m as real / Pow10(-e) as real
  }

  /** Where a left-to-right scan of a decimal literal stands. */
  datatype Phase =
    | Start      // nothing read yet: a sign, a digit or a point may come
    | Whole      // in the digits before the point
    | Fraction   // after the point
    | ExpStart   // just after `e` or `E`: a sign or a digit must come
    | ExpSigned  // after the exponent's sign: a digit must come
    | Exponent   // in the exponent's digits

  /**
   * The scan so far: the phase, the sign, the mantissa's digits read as one
   * integer, how many of them there are and how many follow the point, and the
   * exponent's sign and value.
   */
  datatype Lexeme = Lexeme(
    phase: Phase,
    negative: bool,
    mantissa: nat,
    digits: nat,
    fraction: nat,
    expNegative: bool,
    exponent: nat)

  const Fresh := Lexeme(Start, false, 0, 0, 0, false, 0)

  /** Reads one character: the next state, or `None` when the text cannot be a literal. */
  function Feed(lx: Lexeme, c: char): Option<Lexeme>
  {
    match lx.phase
    case Start =>
      if c == '+' || c == '-' then Some(lx.(phase := Whole, negative := c == '-'))
      else if IsDigit(c) then Some(lx.(phase := Whole, mantissa := DigitValue(c), digits := 1))
      else if c == '.' then Some(lx.(phase := Fraction))
      else None
    case Whole =>
      if IsDigit(c) then Some(lx.(mantissa := lx.mantissa * 10 + DigitValue(c), digits := lx.digits + 1))
      else if c == '.' then Some(lx.(phase := Fraction))
      else if c == 'e' || c == 'E' then Some(lx.(phase := ExpStart))
      else None
    case Fraction =>
      if IsDigit(c) then
        Some(lx.(mantissa := lx.mantissa * 10 + DigitValue(c), digits := lx.digits + 1, fraction := lx.fraction + 1))
      else if c == 'e' || c == 'E' then Some(lx.(phase := ExpStart))
      else None
    case ExpStart =>
      if c == '+' || c == '-' then Some(lx.(phase := ExpSigned, expNegative := c == '-'))
      else if IsDigit(c) then Some(lx.(phase := Exponent, exponent := DigitValue(c)))
      else None
    case ExpSigned =>
      if IsDigit(c) then Some(lx.(phase := Exponent, exponent := DigitValue(c))) else None
    case Exponent =>
      if IsDigit(c) then Some(lx.(exponent := lx.exponent * 10 + DigitValue(c))) else None
  }

  /** The value of a finished scan: at least one mantissa digit, and digits after any `e`. */
  function Value(lx: Lexeme): Option<real>
  {
    if lx.digits == 0 || lx.phase == ExpStart || lx.phase == ExpSigned then None
    else
      var e := (if lx.expNegative then -(lx.exponent as int) else lx.exponent as int) - lx.fraction as int;
      var v := Scale(lx.mantissa, e);
      Some(if lx.negative then -v else v)
  }

  /** Scans the rest of the text `t` from state `lx`. */
  function Scan(t: string, lx: Lexeme): Option<real>
  {
    if t == [] then Value(lx)
    else match Feed(lx, t[0])
      case None => None
      case Some(next) => Scan(t[1..], next)
  }

  /**
   * A finite decimal literal without surrounding whitespace: an optional sign, a
   * mantissa `ddd`, `ddd.ddd`, `ddd.` or `.ddd` with at least one digit, and an
   * optional exponent introduced by `e` or `E`. The value is the exact decimal
   * the literal denotes.
   */
  function ParseDecimal(t: string): Option<real>
  {
    Scan(t, Fresh)
  }

  /** Python's `float(text)`: surrounding whitespace, then a decimal literal. */
  function ParseReal(s: string): Option<real>
  {
    ParseDecimal(Strip(s))
  }

  /** A token of `split()` is its own `strip()`, so `float` and `int` read it as it stands. */
  lemma ParseWord(t: string)
    requires NoSpace(t)
    ensures ParseReal(t) == ParseDecimal(t) && ParseInt(t) == ParseInteger(t)
  {
    if t != [] {
      StripUnchanged(t);
    }
  }

  /** Python's `int(x)` for a float `x`: truncation toward zero. */
  function Truncate(x: real): (n: int)
    ensures 0.0 <= x ==> n as real <= x < n as real + 1.0
    ensures x < 0.0 ==> n as real - 1.0 < x <= n as real
  {
    if x >= 0.0 then x.Floor else -((-x).Floor)
  }

  function DigitChar(d: nat): (c: char)
    requires d < 10
    ensures IsDigit(c) && DigitValue(c) == d
  {
    ('0' as int + d) as char
  }

  /** The decimal digits of `n`, without leading zeros. */
  function NatText(n: nat): (s: string)
    ensures s != [] && AllDigits(s)
  {
    if n < 10 then [DigitChar(n)] else NatText(n / 10) + [DigitChar(n % 10)]
  }

  /** Python's `f"{n}"` for an integer: an optional minus sign, then the digits. */
  function IntText(n: int): (s: string)
  {
    if n < 0 then "-" + NatText(-n) else NatText(n)
  }

  lemma {:induction false} NatTextValue(n: nat)
    ensures DigitsValue(NatText(n)) == n
  {
    if n >= 10 {
      NatTextValue(n / 10);
      var s := NatText(n);
      assert s[..|s| - 1] == NatText(n / 10);
    }
  }

  lemma ParseIntegerText(n: int)
    ensures ParseInteger(IntText(n)) == Some(n)
  {
    var m: nat := if n < 0 then -n else n;
    NatTextValue(m);
    if n < 0 {
      assert IntText(n)[1..] == NatText(m);
    }
  }

  /** A decimal text starts and ends with a character that is not whitespace. */
  lemma IntTextEnds(n: int)
    ensures !IsSpace(IntText(n)[0]) && !IsSpace(IntText(n)[|IntText(n)| - 1])
  {
    var s := IntText(n);
    assert IsDigit(s[|s| - 1]);
    assert s[0] == '-' || IsDigit(s[0]);
  }

  /** Reading back the decimal text of an integer gives the integer. */
  lemma ParseIntText(n: int)
    ensures ParseInt(IntText(n)) == Some(n)
  {
    ParseIntegerText(n);
    IntTextEnds(n);
    StripUnchanged(IntText(n));
  }

}

/**
 * `parseFloat` as the fee form applies it to the amount field: skip leading whitespace, read an
 * optional sign, digits, and an optional fraction, and ignore whatever follows.
 */
module NumberParsing {
  import Text

  /** A JavaScript number as `parseFloat` can produce it here: `NaN` or a finite value. */
  datatype Number = NaN | Finite(value: real)

  predicate IsDigit(c: char)
  {
    '0' <= c <= '9'
  }

  function DigitValue(c: char): (d: nat)
    requires IsDigit(c)
    ensures d < 10
  {
    c as int - '0' as int
  }

  /** The longest prefix of `s` made only of decimal digits. */
  function DigitPrefix(s: string): (r: string)
    ensures |r| <= |s| && r == s[..|r|]
    ensures forall i :: 0 <= i < |r| ==> IsDigit(r[i])
    ensures |r| < |s| ==> !IsDigit(s[|r|])
  {
    if s != [] && IsDigit(s[0]) then [s[0]] + DigitPrefix(s[1..]) else []
  }

  /** The value of a string of decimal digits, most significant first. */
  function DigitsValue(ds: string): nat
    requires forall i :: 0 <= i < |ds| ==> IsDigit(ds[i])
  {
    if ds == [] then 0 else DigitsValue(ds[..|ds| - 1]) * 10 + DigitValue(ds[|ds| - 1])
  }

  function Pow10(n: nat): (r: nat)
    ensures r >= 1
  {
    if n == 0 then 1 else 10 * Pow10(n - 1)
  }

  /** The digits after a leading `.`, or none when `rest` does not start with `.`. */
  function FractionDigits(rest: string): (r: string)
    ensures forall i :: 0 <= i < |r| ==> IsDigit(r[i])
    ensures r != [] ==> |rest| >= 2 && rest[0] == '.' && IsDigit(rest[1])
  {
    if rest != [] && rest[0] == '.' then DigitPrefix(rest[1..]) else []
  }

  /** Reads digits, then optionally `.` and more digits; `NaN` when there is no digit at all. */
  function ParseUnsigned(body: string): (r: Number)
    ensures r.Finite? ==> r.value >= 0.0
    ensures r.Finite? ==> exists i :: 0 <= i < |body| && IsDigit(body[i])
  {
    var intDigits := DigitPrefix(body);
    var fracDigits := FractionDigits(body[|intDigits|..]);
    if intDigits == [] && fracDigits == [] then NaN
    else
      assert intDigits != [] ==> IsDigit(body[0]);
      assert intDigits == [] ==> IsDigit(body[1]);
      Finite(DigitsValue(intDigits) as real + DigitsValue(fracDigits) as real / Pow10(|fracDigits|) as real)
  }

  /** The sign flip of a reading; `NaN` stays `NaN`. */
  function Negate(n: Number): (r: Number)
    ensures r.NaN? <==> n.NaN?
    ensures r.Finite? ==> r.value == -n.value
  {
    match n
    case NaN => NaN
    case Finite(v) => Finite(-v)
  }

  /** An optional sign, then an unsigned reading. */
  function ReadSigned(t: string): Number
  {
    if t != [] && t[0] == '-' then Negate(ParseUnsigned(t[1..]))
    else if t != [] && t[0] == '+' then ParseUnsigned(t[1..])
    else ParseUnsigned(t)
  }

  /** `parseFloat(s)`: leading whitespace skipped, then an optional sign. */
  function ParseFloat(s: string): Number
  {
    ReadSigned(Text.TrimStart(s))
  }

  /** `parseFloat` gives a positive value only for a string that has a digit and no leading minus. */
  lemma ParseFloatPositive(s: string)
    requires ParseFloat(s).Finite? && ParseFloat(s).value > 0.0
    ensures exists i :: 0 <= i < |s| && IsDigit(s[i])
    ensures Text.TrimStart(s) != [] && Text.TrimStart(s)[0] != '-'
  {
    var t := Text.TrimStart(s);
    ReadSignedPositive(t);
    var i :| 0 <= i < |t| && IsDigit(t[i]);
    assert s[|s| - |t| + i] == t[i];
  }

  /** A positive signed reading has no minus sign in front and a digit somewhere. */
  lemma ReadSignedPositive(t: string)
    requires ReadSigned(t).Finite? && ReadSigned(t).value > 0.0
    ensures t != [] && t[0] != '-'
    ensures exists i :: 0 <= i < |t| && IsDigit(t[i])
  {
    if t != [] && t[0] == '-' {
    } else if t != [] && t[0] == '+' {
      DigitInReadSuffix(t, 1);
    } else {
      assert t[0..] == t;
      DigitInReadSuffix(t, 0);
    }
  }

  /** A suffix that reads as a number has a digit, and so does the whole string. */
  lemma DigitInReadSuffix(s: string, j: nat)
    requires j <= |s| && ParseUnsigned(s[j..]).Finite?
    ensures exists i :: 0 <= i < |s| && IsDigit(s[i])
  {
    var u := s[j..];
    var i :| 0 <= i < |u| && IsDigit(u[i]);
    assert s[j + i] == u[i];
  }

  /** A string of digits is its own longest digit prefix. */
  lemma {:induction false} DigitPrefixOfDigits(s: string)
    requires forall i :: 0 <= i < |s| ==> IsDigit(s[i])
    ensures DigitPrefix(s) == s
  {
    if s != [] {
      DigitPrefixOfDigits(s[1..]);
    }
  }

  /** Reading back the decimal representation of `n` gives `n`. */
  lemma {:induction false} DigitsValueOfDecimal(n: nat)
    ensures DigitsValue(Text.Decimal(n)) == n
  {
    var d := Text.Decimal(n);
    if n >= 10 {
      DigitsValueOfDecimal(n / 10);
      assert d[..|d| - 1] == Text.Decimal(n / 10);
    }
  }

  /** `parseFloat(String(n)) == n` for every natural number `n`. */
  lemma ParseFloatOfDecimal(n: nat)
    ensures ParseFloat(Text.Decimal(n)) == Finite(n as real)
  {
    var d := Text.Decimal(n);
    Text.TrimStartKeeps(d);
    ParseUnsignedOfDecimal(n);
  }

  /** The unsigned reading of `String(n)` is `n`. */
  lemma ParseUnsignedOfDecimal(n: nat)
    ensures ParseUnsigned(Text.Decimal(n)) == Finite(n as real)
  {
    var d := Text.Decimal(n);
    DigitPrefixOfDigits(d);
    DigitsValueOfDecimal(n);
    assert d[|d|..] == [];
    assert FractionDigits(d[|d|..]) == [];
  }

  /** `parseFloat("-" + String(n)) == -n`: a minus sign gives a value that is never positive. */
  lemma ParseFloatOfNegative(n: nat)
    ensures ParseFloat("-" + Text.Decimal(n)) == Finite(-(n as real))
  {
    var d := Text.Decimal(n);
    var s := "-" + d;
    Text.TrimStartKeeps(s);
    assert s[1..] == d;
    ParseUnsignedOfDecimal(n);
  }

  /** A string with no digit at all, such as `""` or `"abc"`, parses to `NaN`. */
  lemma ParseFloatWithoutDigits(s: string)
    requires forall i :: 0 <= i < |s| ==> !IsDigit(s[i])
    ensures ParseFloat(s) == NaN
  {
  }
}

/**
 * The few pieces of java.lang text handling the till models rely on:
 * String.trim, Integer.toString, Integer.parseInt and the "%7.2f" / "%2d"
 * conversions of String.format, over integer pence.
 */
module Text {
  import opened Wrappers

  /** The range of a Java int. */
  const MinInt: int := -0x8000_0000
  const MaxInt: int := 0x7fff_ffff

  predicate IsDigit(c: char) { '0' <= c <= '9' }

  predicate AllDigits(s: string) { forall i :: 0 <= i < |s| ==> IsDigit(s[i]) }

  /** A character String.trim removes: anything at or below U+0020. */
  predicate IsBlank(c: char) { c <= ' ' }

  predicate AllBlank(s: string) { forall i :: 0 <= i < |s| ==> IsBlank(s[i]) }

  function DigitChar(d: nat): (c: char)
    requires d < 10
    ensures IsDigit(c)
  {
    (('0' as int) + d) as char
  }

  function DigitValue(c: char): (d: nat)
    requires IsDigit(c)
    ensures d < 10 && DigitChar(d) == c
  {
    (c as int) - ('0' as int)
  }

  // ---------------------------------------------------------------------
  // String.trim

  /** Number of leading blanks: the first index a trim keeps. */
  function LeadingBlanks(s: string): (k: nat)
    ensures k <= |s|
    ensures AllBlank(s[..k])
    ensures k < |s| ==> !IsBlank(s[k])
  {
    if s == [] || !IsBlank(s[0]) then 0
    else
      var k := LeadingBlanks(s[1..]);
      assert s[1..][..k] == s[1..k + 1];
      k + 1
  }

  /** Length of s once its trailing blanks are dropped. */
  function WithoutTrailingBlanks(s: string): (k: nat)
    ensures k <= |s|
    ensures AllBlank(s[k..])
    ensures k > 0 ==> !IsBlank(s[k - 1])
  {
    if s == [] || !IsBlank(s[|s| - 1]) then |s|
    else
      var k := WithoutTrailingBlanks(s[..|s| - 1]);
      assert s[k..] == s[..|s| - 1][k..] + [s[|s| - 1]];
      k
  }

  /** Java's String.trim: the slice of s left after removing blanks at both ends. */
  function Trim(s: string): (r: string)
    ensures |r| <= |s|
    ensures r == [] <==> AllBlank(s)
    ensures r != [] ==> !IsBlank(r[0]) && !IsBlank(r[|r| - 1])
  {
    var a := LeadingBlanks(s);
    var t := s[a..];
    var e := WithoutTrailingBlanks(t);
    assert s[a..a + e] == t[..e];
    assert AllBlank(s) ==> a == |s|;
    t[..e]
  }

  /** What trim keeps is one contiguous slice of s, with only blanks cut off either side. */
  lemma TrimSlice(s: string)
    ensures var r := Trim(s);
      exists i :: 0 <= i <= |s| - |r| && s[i..i + |r|] == r && AllBlank(s[..i]) && AllBlank(s[i + |r|..])
  {
    var a := LeadingBlanks(s);
    var t := s[a..];
    var e := WithoutTrailingBlanks(t);
    assert s[a..a + e] == t[..e] == Trim(s);
    assert s[a + e..] == t[e..];
  }

  // ---------------------------------------------------------------------
  // Integer.toString

  /** Decimal digits of n, without leading zeros. */
  function Digits(n: nat): string
    decreases n
  {
    if n < 10 then [DigitChar(n)] else Digits(n / 10) + [DigitChar(n % 10)]
  }

  /** The text of n is one or more digits, with a leading zero only for 0 itself. */
  lemma {:induction false} DigitsWellFormed(n: nat)
    ensures |Digits(n)| >= 1 && AllDigits(Digits(n))
    ensures Digits(n)[0] == '0' <==> n == 0
    decreases n
  {
    if n >= 10 {
      DigitsWellFormed(n / 10);
      assert Digits(n)[0] == Digits(n / 10)[0];
    }
  }

  /** Integer.toString and the int operand of Java string concatenation. */
  function IntText(i: int): string
  {
    if i < 0 then "-" + Digits(-i) else Digits(i)
  }

  /** Value of a string of decimal digits, most significant first. */
  function DigitsValue(s: string): nat
    requires AllDigits(s)
  {
    if s == [] then 0 else 10 * DigitsValue(s[..|s| - 1]) + DigitValue(s[|s| - 1])
  }

  lemma {:induction false} DigitsValueOfDigits(n: nat)
    ensures AllDigits(Digits(n)) && DigitsValue(Digits(n)) == n
    decreases n
  {
    DigitsWellFormed(n);
    if n >= 10 {
      var s := Digits(n);
      DigitsWellFormed(n / 10);
      assert s[..|s| - 1] == Digits(n / 10);
      DigitsValueOfDigits(n / 10);
    }
  }

  // ---------------------------------------------------------------------
  // Integer.parseInt

  predicate IsSign(c: char) { c == '-' || c == '+' }

  /** The text Integer.parseInt accepts apart from its range check: an optional sign, then at least one digit. */
  predicate Numeral(s: string)
  {
    |s| >= 1 && AllDigits(s[1..]) && (IsDigit(s[0]) || (IsSign(s[0]) && |s| >= 2))
  }

  function NumeralValue(s: string): int
    requires Numeral(s)
  {
    if s[0] == '-' then 0 - DigitsValue(s[1..])
    else if s[0] == '+' then DigitsValue(s[1..])
    else DigitsValue(s)
  }

  /**
   * Integer.parseInt(s) in radix 10: None where Java throws
   * NumberFormatException (empty text, a lone sign, a non-digit, or a value
   * outside the int range).
   */
  function ParseInt(s: string): (r: Option<int>)
    ensures r.Some? <==> Numeral(s) && MinInt <= NumeralValue(s) <= MaxInt
    ensures r.Some? ==> MinInt <= r.value <= MaxInt
  {
    if Numeral(s) && MinInt <= NumeralValue(s) <= MaxInt then Some(NumeralValue(s)) else None
  }

  /** Parsing the text of any int gives that int back. */
  lemma ParseIntText(n: int)
    requires MinInt <= n <= MaxInt
    ensures ParseInt(IntText(n)) == Some(n)
  {
    var s := IntText(n);
    var m := if n < 0 then -n else n;
    DigitsWellFormed(m);
    DigitsValueOfDigits(m);
    if n < 0 {
      assert s[1..] == Digits(m);
    } else {
      assert s[1..] == Digits(m)[1..];
      assert AllDigits(s[1..]);
    }
    assert Numeral(s);
  }

  /** The digits of a numeral, without its sign. */
  function Magnitude(s: string): (d: string)
    requires Numeral(s)
    ensures |d| >= 1 && AllDigits(d)
  {
    if IsSign(s[0]) then s[1..] else s
  }

  /** Leading zeros dropped, keeping at least one digit. */
  function StripZeros(d: string): string
  {
    if |d| >= 2 && d[0] == '0' then StripZeros(d[1..]) else d
  }

  /**
   * The text Integer.toString gives back for an accepted numeral: the sign
   * only for a non-zero negative value, no '+', no leading zeros.
   */
  function CanonicalNumeral(s: string): string
    requires Numeral(s)
  {
    var d := StripZeros(Magnitude(s));
    if s[0] == '-' && d != "0" then "-" + d else d
  }

  /** A leading zero does not change the value of a string of digits. */
  lemma {:induction false} LeadingZeroValue(d: string)
    requires |d| >= 1 && AllDigits(d) && d[0] == '0'
    ensures DigitsValue(d[1..]) == DigitsValue(d)
    decreases |d|
  {
    if |d| >= 2 {
      var pre := d[..|d| - 1];
      LeadingZeroValue(pre);
      assert d[1..][..|d[1..]| - 1] == pre[1..];
    }
  }

  /** Dropping leading zeros keeps the value and leaves no leading zero. */
  lemma {:induction false} StripZerosValue(d: string)
    requires |d| >= 1 && AllDigits(d)
    ensures var e := StripZeros(d);
      && |e| >= 1 && AllDigits(e) && DigitsValue(e) == DigitsValue(d)
      && (|e| == 1 || e[0] != '0')
    decreases |d|
  {
    if |d| >= 2 && d[0] == '0' {
      LeadingZeroValue(d);
      StripZerosValue(d[1..]);
    }
  }

  /** Digits without a leading zero are the decimal text of their value. */
  lemma {:induction false} DigitsOfValue(d: string)
    requires |d| >= 1 && AllDigits(d) && (|d| == 1 || d[0] != '0')
    ensures Digits(DigitsValue(d)) == d
    decreases |d|
  {
    var k := DigitValue(d[|d| - 1]);
    if |d| == 1 {
      assert d[..0] == [];
    } else {
      var pre := d[..|d| - 1];
      DigitsOfValue(pre);
      var m := DigitsValue(pre);
      DigitsWellFormed(m);
      assert m != 0;
      assert Digits(DigitsValue(d)) == Digits(m) + [DigitChar(k)];
      assert d == pre + [d[|d| - 1]];
    }
  }

  /**
   * What Integer.parseInt accepts is exactly an int's decimal text up to an
   * optional '+', leading zeros and the sign of zero: the digits give the
   * magnitude, a negative value needs a '-', and Integer.toString of the
   * value is the numeral in canonical form.
   */
  lemma ParseIntCanonical(s: string)
    requires ParseInt(s).Some?
    ensures Numeral(s)
    ensures var n := ParseInt(s).value;
      && DigitsValue(Magnitude(s)) == (if n < 0 then -n else n)
      && (n < 0 ==> s[0] == '-')
      && IntText(n) == CanonicalNumeral(s)
  {
    var n := ParseInt(s).value;
    var d := Magnitude(s);
    StripZerosValue(d);
    var e := StripZeros(d);
    DigitsOfValue(e);
    if s[0] == '-' && DigitsValue(d) != 0 {
      assert e != "0";
    } else if s[0] == '-' {
      assert e == "0" by {
        assert DigitsValue(e) == 0;
        DigitsWellFormed(0);
      }
    }
  }

  // ---------------------------------------------------------------------
  // String.format conversions

  /** "%<width>s"-style right alignment: left-pad with spaces up to width. */
  function PadLeft(s: string, width: nat): string
  {
    if |s| >= width then s else seq(width - |s|, _ => ' ') + s
  }

  /** "%.2f" of an amount held in integer pence. */
  function TwoPlaces(pence: int): string
  {
    var m := if pence < 0 then -pence else pence;
    (if pence < 0 then "-" else "") + Digits(m / 100) + "." + [DigitChar(m % 100 / 10), DigitChar(m % 10)]
  }
}

/**
 * The two number conversions the client relies on: ECMAScript `parseInt(string)` without a radix
 * argument, and the decimal form of an integer as a template literal writes it.
 */
module Numbers {
  import opened Wrappers
  import Text

  /** The value of a digit character in radices up to 16, or -1 for any other character. */
  function DigitValue(c: char): (v: int)
    ensures -1 <= v < 16
    ensures '0' <= c <= '9' ==> v == c as int - '0' as int
    ensures v >= 10 ==> 'a' <= c <= 'f' || 'A' <= c <= 'F'
  {
    if '0' <= c <= '9' then c as int - '0' as int
    else if 'a' <= c <= 'f' then c as int - 'a' as int + 10
    else if 'A' <= c <= 'F' then c as int - 'A' as int + 10
    else -1
  }

  predicate IsDigitIn(c: char, radix: nat)
  {
    0 <= DigitValue(c) < radix
  }

  predicate AllDigitsIn(s: string, radix: nat)
  {
    forall i :: 0 <= i < |s| ==> IsDigitIn(s[i], radix)
  }

  /** The longest prefix made of digits of the radix. */
  function LeadingDigits(s: string, radix: nat): (r: string)
    ensures |r| <= |s| && r == s[..|r|]
    ensures AllDigitsIn(r, radix)
    ensures |r| < |s| ==> !IsDigitIn(s[|r|], radix)
  {
    if s != [] && IsDigitIn(s[0], radix) then
      var rest := LeadingDigits(s[1..], radix);
      assert [s[0]] + rest == s[..|rest| + 1];
      [s[0]] + rest
    else []
  }

  /** The number a digit string denotes in the radix, most significant digit first. */
  function ValueOf(s: string, radix: nat): nat
    requires AllDigitsIn(s, radix)
    decreases |s|
  {
    if s == [] then 0
    else ValueOf(s[..|s| - 1], radix) * radix + DigitValue(s[|s| - 1])
  }

  /**
   * `parseInt(s)`: leading white space is skipped, one sign is taken, a `0x`/`0X` prefix switches
   * to radix 16, and the longest run of digits that follows is read; `None` stands for NaN, the
   * result when that run is empty.
   */
  function ParseInt(s: string): (r: Option<int>)
    ensures |s| > 0 && IsDigitIn(s[0], 10) && !(|s| >= 2 && s[0] == '0' && (s[1] == 'x' || s[1] == 'X')) ==> r.Some?
    ensures |s| > 0 && !Text.IsSpace(s[0]) && s[0] != '-' && s[0] != '+' && !IsDigitIn(s[0], 10) ==> r.None?
  {
    var t := Text.TrimStart(s);
    var negative := |t| > 0 && t[0] == '-';
    var u := if |t| > 0 && (t[0] == '-' || t[0] == '+') then t[1..] else t;
    var hex := |u| >= 2 && u[0] == '0' && (u[1] == 'x' || u[1] == 'X');
    var radix := if hex then 16 else 10;
    var digits := LeadingDigits(if hex then u[2..] else u, radix);
    if digits == [] then None
    else
      var magnitude: int := ValueOf(digits, radix);
      Some(if negative then -magnitude else magnitude)
  }

  function DigitChar(d: nat): (c: char)
    requires d < 10
    ensures IsDigitIn(c, 10) && DigitValue(c) == d
  {
    ('0' as int + d) as char
  }

  /** The decimal digits of a natural number, without leading zeros. */
  function NatDigits(n: nat): (r: string)
    ensures |r| > 0 && AllDigitsIn(r, 10)
    ensures |r| > 1 ==> r[0] != '0'
    decreases n
  {
    if n < 10 then [DigitChar(n)] else NatDigits(n / 10) + [DigitChar(n % 10)]
  }

  /** `${n}` for an integer `n`: a minus sign for a negative number, then the digits of its magnitude. */
  function DecimalString(n: int): (r: string)
    ensures |r| > 0 && (n < 0 <==> r[0] == '-')
    ensures forall i :: 0 < i < |r| ==> IsDigitIn(r[i], 10)
    ensures n >= 0 ==> IsDigitIn(r[0], 10)
  {
    if n < 0 then "-" + NatDigits(-n) else NatDigits(n)
  }

  /** Reading back the digits of `n` gives `n`. */
  lemma {:induction false} NatDigitsValue(n: nat)
    ensures ValueOf(NatDigits(n), 10) == n
    decreases n
  {
    var s := NatDigits(n);
    if n >= 10 {
      NatDigitsValue(n / 10);
      assert s[..|s| - 1] == NatDigits(n / 10);
    }
  }

  /** A string made of digits of the radix is its own leading run of digits. */
  lemma {:induction false} LeadingDigitsOfDigits(s: string, radix: nat)
    requires AllDigitsIn(s, radix)
    ensures LeadingDigits(s, radix) == s
    decreases |s|
  {
    if s != [] {
      assert IsDigitIn(s[0], radix);
      LeadingDigitsOfDigits(s[1..], radix);
      assert [s[0]] + s[1..] == s;
    }
  }

  /** `parseInt` inverts the decimal form of an integer: the string a detail link carries names the id. */
  lemma ParseDecimalRoundTrip(n: int)
    ensures ParseInt(DecimalString(n)) == Some(n)
  {
    var s := DecimalString(n);
    var m: nat := if n < 0 then -n else n;
    var digits := NatDigits(m);
    assert !Text.IsSpace(s[0]);
    assert Text.TrimStart(s) == s;
    var u := if n < 0 then s[1..] else s;
    assert u == digits;
    assert |u| >= 2 ==> u[0] != '0';
    LeadingDigitsOfDigits(digits, 10);
    NatDigitsValue(m);
  }
}

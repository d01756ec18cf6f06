// Decimal rendering of integers, as `std::to_string` and
// `std::setfill('0') << std::setw(n)` produce it.
module TextFormat {

  predicate IsDigit(c: char)
  {
    '0' <= c <= '9'
  }

  function DigitChar(d: nat): (c: char)
    requires d < 10
    ensures IsDigit(c)
  {
    "0123456789"[d]
  }

  function DigitValue(c: char): (d: nat)
    requires IsDigit(c)
    ensures d < 10
  {
    (c as int - '0' as int)
  }

  /** The decimal digits of a natural number, most significant first, no leading zeros. */
  function NatString(n: nat): (s: string)
    ensures |s| >= 1
    ensures forall i :: 0 <= i < |s| ==> IsDigit(s[i])
    ensures n >= 10 ==> s[0] != '0'
    decreases n
  {
    if n < 10 then [DigitChar(n)] else NatString(n / 10) + [DigitChar(n % 10)]
  }

  /** `std::to_string(int)`: a minus sign before the digits of a negative number. */
  function IntString(n: int): (s: string)
    ensures |s| >= 1
    ensures n >= 0 ==> s == NatString(n)
    ensures n < 0 ==> s == "-" + NatString(-n)
  {
    if n >= 0 then NatString(n) else "-" + NatString(-n)
  }

  /** The value of a string of digits, read left to right. */
  function ParseDigits(s: string): (n: nat)
    requires forall i :: 0 <= i < |s| ==> IsDigit(s[i])
    decreases |s|
  {
    if |s| == 0 then 0 else ParseDigits(s[..|s| - 1]) * 10 + DigitValue(s[|s| - 1])
  }

  /** Reading back the digits of `NatString(n)` gives n: the rendering loses nothing. */
  lemma {:induction false} NatStringRoundTrip(n: nat)
    ensures ParseDigits(NatString(n)) == n
    decreases n
  {
    var s := NatString(n);
    if n < 10 {
      assert s[..|s| - 1] == [];
    } else {
      NatStringRoundTrip(n / 10);
      assert s[..|s| - 1] == NatString(n / 10);
      assert DigitValue(s[|s| - 1]) == n % 10;
    }
  }

  /** Distinct numbers render as distinct strings. */
  lemma NatStringInjective(m: nat, n: nat)
    requires NatString(m) == NatString(n)
    ensures m == n
  {
    NatStringRoundTrip(m);
    NatStringRoundTrip(n);
  }

  function Repeat(c: char, k: nat): (s: string)
    ensures |s| == k
    ensures forall i :: 0 <= i < k ==> s[i] == c
  {
    if k == 0 then "" else [c] + Repeat(c, k - 1)
  }

  /** `std::setfill(fill) << std::setw(width) << s` with the default right adjustment. */
  function PadLeft(s: string, width: nat, fill: char): (r: string)
    ensures |s| >= width ==> r == s
    ensures |s| < width ==> |r| == width
    ensures r[|r| - |s|..] == s
    ensures forall i :: 0 <= i < |r| - |s| ==> r[i] == fill
  {
    if |s| >= width then s else Repeat(fill, width - |s|) + s
  }

  /** Leading zeros do not change the value read. */
  lemma {:induction false} ZerosThenDigits(k: nat, s: string)
    requires forall i :: 0 <= i < |s| ==> IsDigit(s[i])
    ensures forall i :: 0 <= i < |Repeat('0', k) + s| ==> IsDigit((Repeat('0', k) + s)[i])
    ensures ParseDigits(Repeat('0', k) + s) == ParseDigits(s)
    decreases k, |s|
  {
    var z := Repeat('0', k) + s;
    if |s| == 0 {
      assert z == Repeat('0', k);
      if k > 0 {
        assert z[..|z| - 1] == Repeat('0', k - 1) + "";
        ZerosThenDigits(k - 1, "");
      }
    } else {
      assert z[..|z| - 1] == Repeat('0', k) + s[..|s| - 1];
      ZerosThenDigits(k, s[..|s| - 1]);
    }
  }

  /** A zero-padded number reads back as the number itself. */
  lemma PaddedRoundTrip(n: nat, width: nat)
    ensures forall i :: 0 <= i < |PadLeft(NatString(n), width, '0')| ==> IsDigit(PadLeft(NatString(n), width, '0')[i])
    ensures ParseDigits(PadLeft(NatString(n), width, '0')) == n
  {
    var s := NatString(n);
    NatStringRoundTrip(n);
    if |s| < width {
      ZerosThenDigits(width - |s|, s);
    }
  }

  /** Where the pieces of a label, an optional sign and a run of digits sit in their concatenation. */
  lemma SignedPieces(prefix: string, sign: string, digits: string)
    requires |sign| <= 1 && |digits| >= 1
    requires forall i :: 0 <= i < |digits| ==> IsDigit(digits[i])
    ensures var s := prefix + (sign + digits);
            var k := |prefix| + |sign|;
            k < |s| && s[..|prefix|] == prefix && s[k..] == digits &&
            s[|prefix|] == (if |sign| == 1 then sign[0] else digits[0]) &&
            (forall i :: k <= i < |s| ==> IsDigit(s[i]))
  {
    var s := prefix + (sign + digits);
    var k := |prefix| + |sign|;
    assert forall i :: k <= i < |s| ==> s[i] == digits[i - k];
  }

  /** Where the pieces of a label, an optional sign, whole digits, a point, one digit and a unit sit. */
  lemma PointPieces(prefix: string, sign: string, whole: string, d: char, unit: string)
    requires |sign| <= 1 && |whole| >= 1 && |unit| == 2
    requires forall i :: 0 <= i < |whole| ==> IsDigit(whole[i])
    ensures var s := prefix + sign + whole + "." + [d] + unit;
            var k := |prefix| + |sign|;
            k + 5 <= |s| && s[..|prefix|] == prefix && s[|s| - 2..] == unit &&
            s[|prefix|] == (if |sign| == 1 then sign[0] else whole[0]) &&
            s[k..|s| - 4] == whole && s[|s| - 4] == '.' && s[|s| - 3] == d &&
            (forall i :: k <= i < |s| - 4 ==> IsDigit(s[i]))
  {
    var s := prefix + sign + whole + "." + [d] + unit;
    var k := |prefix| + |sign|;
    assert forall i :: k <= i < |s| - 4 ==> s[i] == whole[i - k];
  }

  /** A minus sign between a label and a string of digits. */
  lemma AfterSign(prefix: string, digits: string)
    ensures (prefix + ("-" + digits))[|prefix|] == '-'
    ensures (prefix + ("-" + digits))[|prefix| + 1..] == digits
  {
    assert (prefix + ("-" + digits))[|prefix| + 1..] == digits;
  }
}

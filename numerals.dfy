/**
 * The integer conversions of printf that the exporter uses: `%u`, `PRIu64`
 * and `%ld` (unsigned decimal), `PRIx64` (lower-case hexadecimal) and the
 * `0` flag with a minimum field width (`%06ld`, `%016x`, and the `%m`, `%d`,
 * `%H`, `%M`, `%S` fields of strftime, which are zero-padded to two digits).
 * Each rendering comes with its parse-back value, so that a reader of the
 * log can recover every number that was written.
 */
module Numerals {

  /** The C object widths the exporter prints. */
  type uint8 = x: nat | x < 0x100
  type uint16 = x: nat | x < 0x1_0000
  type uint64 = x: nat | x < 0x1_0000_0000_0000_0000

  function Pow(base: nat, k: nat): (p: nat)
    ensures base >= 1 ==> p >= 1
  {
    if k == 0 then 1 else base * Pow(base, k - 1)
  }

  /** The character printf writes for digit value `d`: `0`-`9`, then `a`-`f`. */
  function DigitChar(d: nat): (c: char)
    requires d < 16
    ensures IsDigitOf(c, d + 1) && DigitValue(c) == d
    ensures c == '0' <==> d == 0
  {
    if d < 10 then ('0' as int + d) as char else ('a' as int + d - 10) as char
  }

  /** `c` is a digit of `base` as printf writes it (lower case). */
  predicate IsDigitOf(c: char, base: nat) {
    || ('0' <= c <= '9' && c as int - '0' as int < base)
    || ('a' <= c <= 'f' && c as int - 'a' as int + 10 < base)
  }

  predicate IsDecimalDigit(c: char) {
    '0' <= c <= '9'
  }

  predicate AllDigitsOf(s: string, base: nat) {
    forall i :: 0 <= i < |s| ==> IsDigitOf(s[i], base)
  }

  function DigitValue(c: char): nat {
    if '0' <= c <= '9' then c as int - '0' as int
    else if 'a' <= c <= 'f' then c as int - 'a' as int + 10
    else 0
  }

  /** The number a string of digits denotes, most significant digit first. */
  function ValueOf(s: string, base: nat): nat
    decreases |s|
  {
    if s == [] then 0 else ValueOf(s[..|s| - 1], base) * base + DigitValue(s[|s| - 1])
  }

  /** The digits of `n` in `base`, without leading zeros: printf's unpadded conversion. */
  function Numeral(n: nat, base: nat): (s: string)
    requires 2 <= base <= 16
    ensures |s| > 0 && AllDigitsOf(s, base)
    ensures s[0] == '0' ==> n == 0 && s == "0"
    decreases n
  {
    if n < base then [DigitChar(n)]
    else
      DivMod(n, base);
      Numeral(n / base, base) + [DigitChar(n % base)]
  }

  /** Euclidean division by a base, stated once so that the proofs above it stay linear. */
  lemma DivMod(n: nat, base: nat)
    requires 2 <= base && n >= base
    ensures 1 <= n / base < n && n % base < base
    ensures n == (n / base) * base + n % base
  {
  }

  lemma DivBelow(n: nat, base: nat, p: nat)
    requires 2 <= base && n < base * p
    ensures n / base < p
  {
  }

  /** `%u`, `PRIu64`, and `%ld` of a non-negative value. */
  function Decimal(n: nat): (s: string)
    ensures |s| > 0 && AllDigitsOf(s, 10)
  {
    Numeral(n, 10)
  }

  function Zeros(k: nat): (z: string)
    ensures |z| == k && forall i :: 0 <= i < k ==> z[i] == '0'
  {
    seq(k, _ => '0')
  }

  /** The `0` flag with minimum field width `width`: pad on the left with zeros. */
  function ZeroPadded(s: string, width: nat): (r: string)
    ensures |r| == if |s| >= width then |s| else width
    ensures r[|r| - |s|..] == s
    ensures forall i :: 0 <= i < |r| - |s| ==> r[i] == '0'
  {
    if |s| >= width then s else Zeros(width - |s|) + s
  }

  /** `%0<width>u` (and `%0<width>ld` of a non-negative value). */
  function DecimalWidth(n: nat, width: nat): string {
    ZeroPadded(Decimal(n), width)
  }

  /** `%0<width>x`, the conversion `%016" PRIx64` uses. */
  function HexWidth(n: nat, width: nat): string {
    ZeroPadded(Numeral(n, 16), width)
  }

  lemma {:induction false} ValueOfSnoc(s: string, c: char, base: nat)
    ensures ValueOf(s + [c], base) == ValueOf(s, base) * base + DigitValue(c)
  {
    assert (s + [c])[..|s|] == s;
  }

  /** Reading back the digits printf wrote gives the printed number. */
  lemma {:induction false} NumeralValue(n: nat, base: nat)
    requires 2 <= base <= 16
    ensures ValueOf(Numeral(n, base), base) == n
    decreases n
  {
    if n >= base {
      DivMod(n, base);
      NumeralValue(n / base, base);
      ValueOfSnoc(Numeral(n / base, base), DigitChar(n % base), base);
    }
  }

  /** A leading zero does not change the value of a digit string. */
  lemma {:induction false} LeadingZeroValue(s: string, base: nat)
    ensures ValueOf(['0'] + s, base) == ValueOf(s, base)
    decreases |s|
  {
    if s != [] {
      var t := s[..|s| - 1];
      assert s == t + [s[|s| - 1]];
      assert ['0'] + s == (['0'] + t) + [s[|s| - 1]];
      LeadingZeroValue(t, base);
      ValueOfSnoc(['0'] + t, s[|s| - 1], base);
      ValueOfSnoc(t, s[|s| - 1], base);
    }
  }

  lemma {:induction false} ZerosValue(k: nat, s: string, base: nat)
    ensures ValueOf(Zeros(k) + s, base) == ValueOf(s, base)
    decreases k
  {
    if k == 0 {
      assert Zeros(k) + s == s;
    } else {
      assert Zeros(k) + s == ['0'] + (Zeros(k - 1) + s);
      LeadingZeroValue(Zeros(k - 1) + s, base);
      ZerosValue(k - 1, s, base);
    }
  }

  /** Zero padding preserves the value of a digit string. */
  lemma ZeroPaddedValue(s: string, width: nat, base: nat)
    ensures ValueOf(ZeroPadded(s, width), base) == ValueOf(s, base)
  {
    if |s| < width {
      ZerosValue(width - |s|, s, base);
    }
  }

  lemma {:induction false} PowAdd(base: nat, i: nat, j: nat)
    ensures Pow(base, i + j) == Pow(base, i) * Pow(base, j)
    decreases i
  {
    if i > 0 {
      PowAdd(base, i - 1, j);
      calc {
        Pow(base, i + j);
        base * Pow(base, (i - 1) + j);
        base * (Pow(base, i - 1) * Pow(base, j));
        { MulAssoc(base, Pow(base, i - 1), Pow(base, j)); }
        (base * Pow(base, i - 1)) * Pow(base, j);
      }
    }
  }

  lemma MulAssoc(a: nat, b: nat, c: nat)
    ensures a * (b * c) == (a * b) * c
  {
  }

  lemma DivAtLeast(n: nat, base: nat, p: nat)
    requires (base == 10 || base == 16) && base * p <= n
    ensures p <= n / base
  {
    if base == 10 {
      assert p <= n / 10;
    } else {
      assert p <= n / 16;
    }
  }

  /** A number of at least `base^k` needs more than `k` digits. */
  lemma {:induction false} NumeralLongEnough(n: nat, base: nat, k: nat)
    requires (base == 10 || base == 16) && Pow(base, k) <= n
    ensures k < |Numeral(n, base)|
    decreases k
  {
    if k > 0 {
      assert Pow(base, k) == base * Pow(base, k - 1);
      assert base <= n;
      DivMod(n, base);
      DivAtLeast(n, base, Pow(base, k - 1));
      NumeralLongEnough(n / base, base, k - 1);
    }
  }

  /** A number below `base^k` needs at most `k` digits. */
  lemma {:induction false} NumeralLength(n: nat, base: nat, k: nat)
    requires 2 <= base <= 16 && k >= 1 && n < Pow(base, k)
    ensures |Numeral(n, base)| <= k
    decreases k
  {
    if n >= base {
      DivMod(n, base);
      DivBelow(n, base, Pow(base, k - 1));
      NumeralLength(n / base, base, k - 1);
    }
  }

  /** A number of at most `width` digits renders in exactly `width` characters,
      all digits of the base, and reads back as itself. */
  lemma PaddedNumeral(n: nat, base: nat, width: nat)
    requires 2 <= base <= 16 && width >= 1 && n < Pow(base, width)
    ensures |ZeroPadded(Numeral(n, base), width)| == width
    ensures AllDigitsOf(ZeroPadded(Numeral(n, base), width), base)
    ensures ValueOf(ZeroPadded(Numeral(n, base), width), base) == n
  {
    NumeralLength(n, base, width);
    ZeroPaddedValue(Numeral(n, base), width, base);
    NumeralValue(n, base);
    var r := ZeroPadded(Numeral(n, base), width);
    var s := Numeral(n, base);
    forall i | 0 <= i < |r| ensures IsDigitOf(r[i], base) {
      if i >= |r| - |s| {
        assert r[i] == r[|r| - |s|..][i - (|r| - |s|)];
      }
    }
  }

  /** `%016" PRIx64` of a 64-bit value: exactly sixteen lower-case hex digits
      that read back as the value. */
  lemma HexWidth16(g: uint64)
    ensures |HexWidth(g, 16)| == 16
    ensures AllDigitsOf(HexWidth(g, 16), 16)
    ensures ValueOf(HexWidth(g, 16), 16) == g
  {
    assert Pow(16, 4) == 0x1_0000;
    assert Pow(16, 8) == 0x1_0000_0000 by { PowAdd(16, 4, 4); }
    assert Pow(16, 16) == 0x1_0000_0000_0000_0000 by { PowAdd(16, 8, 8); }
    PaddedNumeral(g, 16, 16);
  }

  /** The GUID value 1 renders as fifteen zeros and a one. */
  lemma HexWidthOfOne()
    ensures HexWidth(1, 16) == "0000000000000001"
  {
    assert Numeral(1, 16) == "1";
    var r := HexWidth(1, 16);
    assert |r| == 16;
    forall i | 0 <= i < 16 ensures r[i] == "0000000000000001"[i] {
      if i == 15 {
        assert r[15] == r[15..][0];
      }
    }
  }
}

/**
 * Strict base-16 numerals over ASCII bytes, as used for the length field
 * of the metadata header.
 */
module Hex {
  import opened Wrappers
  import opened Bytes

  /** '0'-'9', 'A'-'F' or 'a'-'f'. */
  predicate IsHexDigit(b: Byte)
  {
    (0x30 <= b <= 0x39) || (0x41 <= b <= 0x46) || (0x61 <= b <= 0x66)
  }

  predicate AllHexDigits(s: seq<Byte>)
  {
    forall i :: 0 <= i < |s| ==> IsHexDigit(s[i])
  }

  function DigitValue(b: Byte): (d: nat)
    requires IsHexDigit(b)
    ensures d < 16
  {
    if b <= 0x39 then b - 0x30
    else if b <= 0x46 then b - 0x41 + 10
    else b - 0x61 + 10
  }

  function Pow16(k: nat): (p: nat)
    ensures p >= 1
  {
    if k == 0 then 1 else 16 * Pow16(k - 1)
  }

  /** The value of a numeral, most significant digit first. */
  function HexValue(s: seq<Byte>): (v: nat)
    requires AllHexDigits(s)
    ensures v < Pow16(|s|)
  {
    if s == [] then 0 else HexValue(s[..|s| - 1]) * 16 + DigitValue(s[|s| - 1])
  }

  /**
   * `int(s.decode('ascii'), 16)` restricted to plain digits: defined exactly
   * when `s` is a non-empty run of hexadecimal digits.
   */
  function ParseHex(s: seq<Byte>): (r: Option<nat>)
    ensures r.Some? <==> |s| > 0 && AllHexDigits(s)
    ensures r.Some? ==> r.value < Pow16(|s|)
  {
    if |s| > 0 && AllHexDigits(s) then Some(HexValue(s)) else None
  }

  /** Upper-case digit for a value below 16. */
  function HexDigit(d: nat): (b: Byte)
    requires d < 16
    ensures IsHexDigit(b) && DigitValue(b) == d
  {
    if d < 10 then 0x30 + d else 0x41 + d - 10
  }

  /** The `width`-digit numeral of `n` (digits above `width` are cut off). */
  function ToHex(n: nat, width: nat): (s: seq<Byte>)
    ensures |s| == width
    ensures AllHexDigits(s)
  {
    if width == 0 then [] else ToHex(n / 16, width - 1) + [HexDigit(n % 16)]
  }

  /** Every value that fits in `width` digits is read back from its numeral. */
  lemma {:induction false} ParseToHex(n: nat, width: nat)
    requires 0 < width && n < Pow16(width)
    ensures ParseHex(ToHex(n, width)) == Some(n)
  {
    HexValueToHex(n, width);
  }

  lemma {:induction false} HexValueToHex(n: nat, width: nat)
    requires n < Pow16(width)
    ensures HexValue(ToHex(n, width)) == n
  {
    if width > 0 {
      var s := ToHex(n, width);
      assert s[..width - 1] == ToHex(n / 16, width - 1);
      assert s[width - 1] == HexDigit(n % 16);
      HexValueToHex(n / 16, width - 1);
    }
  }

  /** A lower-case digit 'a'-'f' made upper-case; every other byte unchanged. */
  function ToUpper(b: Byte): (u: Byte)
    ensures IsHexDigit(b) ==> IsHexDigit(u) && DigitValue(u) == DigitValue(b)
    ensures IsHexDigit(b) ==> !(0x61 <= u <= 0x66)
  {
    if 0x61 <= b <= 0x66 then b - 0x20 else b
  }

  /** A numeral with its lower-case digits made upper-case. */
  function Upper(s: seq<Byte>): (u: seq<Byte>)
    ensures |u| == |s|
    ensures forall i :: 0 <= i < |s| ==> u[i] == ToUpper(s[i])
  {
    seq(|s|, i requires 0 <= i < |s| => ToUpper(s[i]))
  }

  /** The case of the digits does not change the value: `a`-`f` are worth what `A`-`F` are. */
  lemma {:induction false} HexValueIgnoresCase(s: seq<Byte>)
    requires AllHexDigits(s)
    ensures AllHexDigits(Upper(s)) && HexValue(Upper(s)) == HexValue(s)
  {
    if s != [] {
      assert Upper(s)[..|s| - 1] == Upper(s[..|s| - 1]);
      HexValueIgnoresCase(s[..|s| - 1]);
    }
  }

  /**
   * Every numeral the parser accepts, of either case, is the `|s|`-digit
   * numeral of its value once its digits are made upper-case. So each digit,
   * lower-case ones included, has the value the encoder gives it.
   */
  lemma {:induction false} ToHexHexValue(s: seq<Byte>)
    requires AllHexDigits(s)
    ensures ToHex(HexValue(s), |s|) == Upper(s)
  {
    if s != [] {
      var init := s[..|s| - 1];
      var last := s[|s| - 1];
      var n := HexValue(s);
      assert n / 16 == HexValue(init) && n % 16 == DigitValue(last);
      ToHexHexValue(init);
      assert HexDigit(DigitValue(last)) == ToUpper(last);
      assert Upper(s) == Upper(init) + [ToUpper(last)];
    }
  }

  /** Lower-case digits parse: `a` is 10 and `fF` is 255. */
  lemma LowerCaseExamples()
    ensures ParseHex([0x61]) == Some(10)
    ensures ParseHex([0x66, 0x46]) == Some(255)
  {
    assert [0x66, 0x46][..1] == [0x66];
  }

  /** A numeral made of `0` digits only is worth 0. */
  lemma {:induction false} AllZeros(s: seq<Byte>)
    requires forall i :: 0 <= i < |s| ==> s[i] == 0x30
    ensures AllHexDigits(s) && HexValue(s) == 0
  {
    if s != [] {
      AllZeros(s[..|s| - 1]);
    }
  }

  /** Zeros in front of a numeral do not change its value. */
  lemma {:induction false} LeadingZeros(zeros: seq<Byte>, s: seq<Byte>)
    requires forall i :: 0 <= i < |zeros| ==> zeros[i] == 0x30
    requires AllHexDigits(s)
    ensures AllHexDigits(zeros + s) && HexValue(zeros + s) == HexValue(s)
  {
    if s == [] {
      assert zeros + s == zeros;
      AllZeros(zeros);
    } else {
      assert (zeros + s)[..|zeros + s| - 1] == zeros + s[..|s| - 1];
      LeadingZeros(zeros, s[..|s| - 1]);
    }
  }

  /** More digits never allow fewer values. */
  lemma {:induction false} Pow16Monotone(j: nat, k: nat)
    requires j <= k
    ensures Pow16(j) <= Pow16(k)
  {
    if j < k {
      Pow16Monotone(j, k - 1);
    }
  }
}

/**
 * Byte-level helpers from the Rust standard library that the LEI code relies
 * on: `char::to_digit(36)` applied to a byte viewed as a `char`,
 * ASCII `to_uppercase`, the `Alphanumeric` alphabet and `{:02}` formatting.
 */
module Ascii {

  import opened Wrappers

  /**
   * One byte of a string's UTF-8 encoding. The Rust code reads every byte
   * as `*c as char`, i.e. as the code point U+0000..U+00FF with the same
   * number, so a byte is modelled as such a `char`; string literals made of
   * ASCII characters are then byte sequences as they stand.
   */
  type Byte = c: char | c as int < 256

  predicate IsDecimalDigit(c: Byte) { '0' <= c <= '9' }
  predicate IsUpperLetter(c: Byte) { 'A' <= c <= 'Z' }
  predicate IsLowerLetter(c: Byte) { 'a' <= c <= 'z' }

  /** The alphabet `[0-9A-Za-z]` that `rand::distributions::Alphanumeric` draws from. */
  predicate IsAlphanumeric(c: Byte) { IsDecimalDigit(c) || IsUpperLetter(c) || IsLowerLetter(c) }

  /** What the generator must emit: `[0-9A-Z]`. */
  predicate IsUpperAlphanumeric(c: Byte) { IsDecimalDigit(c) || IsUpperLetter(c) }

  /**
   * `(c as char).to_digit(36)`: decimal digits give 0..9 and letters of
   * either case give 10..35; any other byte gives no digit.
   */
  function ToDigit36(c: Byte): (r: Option<nat>)
    ensures r.Some? <==> IsAlphanumeric(c)
    ensures r.Some? ==> r.value < 36 && (r.value < 10 <==> IsDecimalDigit(c))
  {
    if IsDecimalDigit(c) then Some(c as int - '0' as int)
    else if IsLowerLetter(c) then Some(c as int - 'a' as int + 10)
    else if IsUpperLetter(c) then Some(c as int - 'A' as int + 10)
    else None
  }

  predicate IsBase36(c: Byte) { ToDigit36(c).Some? }

  /** `char::to_ascii_uppercase`, which is what `String::to_uppercase` does on ASCII text. */
  function ToUpper(c: Byte): (r: Byte)
    ensures IsAlphanumeric(c) ==> IsUpperAlphanumeric(r)
    ensures IsBase36(c) ==> ToDigit36(r) == ToDigit36(c)
    ensures !IsLowerLetter(c) ==> r == c
  {
    if IsLowerLetter(c) then (c as int - 32) as char else c
  }

  function ToUpperString(s: seq<Byte>): (r: seq<Byte>)
    ensures |r| == |s|
    ensures forall i :: 0 <= i < |s| ==> r[i] == ToUpper(s[i])
  {
    if s == [] then [] else [ToUpper(s[0])] + ToUpperString(s[1..])
  }

  /** The ASCII digit character of a value below 10. */
  function DigitChar(d: nat): (c: Byte)
    requires d < 10
    ensures IsDecimalDigit(c) && ToDigit36(c) == Some(d)
  {
    ('0' as int + d) as char
  }

  /** The shortest decimal numeral of `n`, as `format!("{n}")` writes it. */
  function Decimal(n: nat): (r: seq<Byte>)
    ensures 1 <= |r|
    ensures forall i :: 0 <= i < |r| ==> IsDecimalDigit(r[i])
    ensures |r| == 1 <==> n < 10
    ensures r[|r| - 1] == DigitChar(n % 10)
  {
    if n < 10 then [DigitChar(n)] else Decimal(n / 10) + [DigitChar(n % 10)]
  }

  /** `format!("{n:02}")`: the decimal numeral of `n`, left-padded with '0' to width 2. */
  function Format02(n: nat): (r: seq<Byte>)
    ensures |r| >= 2
    ensures n < 100 ==> r == [DigitChar(n / 10), DigitChar(n % 10)]
  {
    if n < 10 then ['0'] + Decimal(n)
    else
      var r := Decimal(n);
      assert n < 100 ==> r == Decimal(n / 10) + [DigitChar(n % 10)] && n / 10 < 10;
      r
  }
}

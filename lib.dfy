/**
 * The LEI type of the crate root (src/lib.rs): the `mod_97` checksum fold,
 * the `TryFrom<&str>` parser with its three-way error enumeration, `Display`,
 * and `LEI::random` with the random draws passed in as parameters.
 */
module Lib {

  import opened Wrappers
  import opened Ascii
  import Iso7064

  /** The errors emitted when parsing an LEI. */
  datatype Error =
    | InvalidLength(len: nat)
    | InvalidChecksum
    | InvalidChar(pos: nat, ch: Byte)

  /** A 20-byte Legal Entity Identifier; only `TryFrom` and `Random` build one. */
  datatype Lei = Lei(lei: seq<Byte>)

  const LeiLength: nat := 20

  /** What every `Lei` built by `TryFrom` satisfies: 20 bytes and MOD 97-10 residue 1. */
  predicate Valid(l: Lei)
  {
    |l.lei| == LeiLength && Mod97(l.lei) == Ok(1)
  }

  /** The value of a base-36 digit. */
  function DigitValue(c: Byte): (d: nat)
    requires IsBase36(c)
    ensures d < 36 && ToDigit36(c) == Some(d)
  {
    ToDigit36(c).value
  }

  /** The digit values of a string whose every byte is a base-36 digit. */
  function DigitValues(s: seq<Byte>): (ds: seq<nat>)
    requires forall j :: 0 <= j < |s| ==> IsBase36(s[j])
    ensures |ds| == |s| && Iso7064.AllBase36(ds)
    ensures forall j :: 0 <= j < |s| ==> ds[j] == DigitValue(s[j])
  {
    seq(|s|, j requires 0 <= j < |s| => DigitValue(s[j]))
  }

  /** `e` reports the first byte at or after `from` that is not a base-36 digit. */
  predicate IsFirstInvalidChar(s: seq<Byte>, from: nat, e: Error)
  {
    && e.InvalidChar?
    && from <= e.pos < |s|
    && e.ch == s[e.pos]
    && !IsBase36(s[e.pos])
    && forall j :: from <= j < e.pos ==> IsBase36(s[j])
  }

  /** One step of the fold: `(acc * multiplier + digit) % 97`. */
  function Step(acc: nat, digit: nat): (r: nat)
    ensures r < Iso7064.Modulus
  {
    var multiplier := if digit > 9 then 100 else 10;
    (acc * multiplier + digit) % Iso7064.Modulus
  }

  /**
   * The `try_fold` of `mod_97` from byte `i` on, with accumulator `acc`:
   * it stops at the first byte that is not a base-36 digit and reports its
   * position and value.
   */
  function Fold(s: seq<Byte>, i: nat, acc: nat): (r: Result<nat, Error>)
    requires i <= |s| && acc < Iso7064.Modulus
    ensures r.Ok? ==> r.value < Iso7064.Modulus
    ensures r.Ok? <==> forall j :: i <= j < |s| ==> IsBase36(s[j])
    ensures r.Err? ==> IsFirstInvalidChar(s, i, r.error)
    decreases |s| - i
  {
    if i == |s| then Ok(acc)
    else
      match ToDigit36(s[i])
      case None => Err(InvalidChar(i, s[i]))
      case Some(digit) => Fold(s, i + 1, Step(acc, digit))
  }

  /** `mod_97`: the fold from position 0 with accumulator 0. */
  function Mod97(s: seq<Byte>): (r: Result<nat, Error>)
    ensures r.Ok? ==> r.value < Iso7064.Modulus
    ensures r.Ok? <==> forall j :: 0 <= j < |s| ==> IsBase36(s[j])
    ensures r.Err? ==> IsFirstInvalidChar(s, 0, r.error)
  {
    Fold(s, 0, 0)
  }

  /** `validate_checksum`: an invalid character counts as a failed checksum. */
  function ValidateChecksum(s: seq<Byte>): (r: bool)
    ensures r <==> Mod97(s) == Ok(1)
    ensures r ==> forall j :: 0 <= j < |s| ==> IsBase36(s[j])
  {
    match Mod97(s)
    case Ok(m) => m == 1
    case Err(_) => false
  }

  /** `LEI::try_from`: the length check, then the checksum check. */
  function TryFrom(s: seq<Byte>): (r: Result<Lei, Error>)
    ensures |s| != LeiLength ==> r == Err(InvalidLength(|s|))
    ensures |s| == LeiLength ==> (r.Ok? <==> Mod97(s) == Ok(1))
    ensures |s| == LeiLength && r.Err? ==> r.error == InvalidChecksum
    ensures r.Ok? ==> r.value.lei == s && Valid(r.value)
  {
    if |s| != LeiLength then Err(InvalidLength(|s|))
    else if !ValidateChecksum(s) then Err(InvalidChecksum)
    else Ok(Lei(s))
  }

  /** `Display`: the stored string, unchanged; parsing it gives a valid LEI back. */
  function Display(l: Lei): (r: seq<Byte>)
    ensures Valid(l) ==> TryFrom(r) == Ok(l)
  {
    l.lei
  }

  /** The fold computes the MOD 97-10 residue of the bytes it has consumed so far. */
  lemma {:induction false} FoldIsResidue(s: seq<Byte>, i: nat, acc: nat)
    requires i <= |s| && acc < Iso7064.Modulus
    requires forall j :: 0 <= j < |s| ==> IsBase36(s[j])
    requires acc == Iso7064.Residue(DigitValues(s[..i]))
    ensures Fold(s, i, acc) == Ok(Iso7064.Residue(DigitValues(s)))
    decreases |s| - i
  {
    if i == |s| {
      assert s[..i] == s;
    } else {
      var d := DigitValue(s[i]);
      assert DigitValues(s[..i + 1]) == DigitValues(s[..i]) + [d];
      Iso7064.HornerStep(DigitValues(s[..i]), d);
      FoldIsResidue(s, i + 1, Step(acc, d));
    }
  }

  /**
   * `mod_97` is ISO 7064 MOD 97-10: on a string of base-36 digits it returns
   * the residue modulo 97 of the decimal numeral that writes each digit value
   * out with one or two decimal digits.
   */
  lemma Mod97IsResidue(s: seq<Byte>)
    requires forall j :: 0 <= j < |s| ==> IsBase36(s[j])
    ensures Mod97(s) == Ok(Iso7064.Residue(DigitValues(s)))
  {
    assert s[..0] == [];
    assert Iso7064.Expansion([]) == [];
    FoldIsResidue(s, 0, 0);
  }

  /**
   * `try_from` succeeds exactly on 20-byte strings of base-36 digits that
   * carry valid MOD 97-10 check digits, and then keeps the input verbatim.
   */
  lemma TryFromAccepts(s: seq<Byte>)
    ensures TryFrom(s).Ok? <==>
      && |s| == LeiLength
      && (forall j :: 0 <= j < |s| ==> IsBase36(s[j]))
      && Iso7064.HasValidCheck(DigitValues(s))
    ensures TryFrom(s).Ok? ==> TryFrom(s).value == Lei(s)
  {
    if forall j :: 0 <= j < |s| ==> IsBase36(s[j]) {
      Mod97IsResidue(s);
    }
  }

  /**
   * `try_from` never reports `InvalidChar`: a 20-byte string with a byte that
   * is not a base-36 digit fails with `InvalidChecksum`, although `mod_97`
   * itself located the byte.
   */
  lemma InvalidCharReportedAsChecksum(s: seq<Byte>, j: nat)
    requires |s| == LeiLength && j < |s| && !IsBase36(s[j])
    ensures Mod97(s).Err? && Mod97(s).error.pos <= j
    ensures TryFrom(s) == Err(InvalidChecksum)
  {
  }

  /** Displaying a parsed LEI gives back the parsed string. */
  lemma DisplayRoundTrip(s: seq<Byte>)
    ensures TryFrom(s).Ok? ==> Display(TryFrom(s).value) == s
  {
  }

  /**
   * `to_digit(36)` ignores case, so the fold cannot tell a string from its
   * upper-cased spelling: same residue, and the same first invalid byte,
   * which upper-casing leaves alone.
   */
  lemma {:induction false} FoldIgnoresCase(s: seq<Byte>, i: nat, acc: nat)
    requires i <= |s| && acc < Iso7064.Modulus
    ensures Fold(ToUpperString(s), i, acc) == Fold(s, i, acc)
    decreases |s| - i
  {
    var u := ToUpperString(s);
    if i < |s| {
      assert u[i] == ToUpper(s[i]);
      if IsBase36(s[i]) {
        FoldIgnoresCase(s, i + 1, Step(acc, ToDigit36(s[i]).value));
      }
    }
  }

  /** `mod_97` gives the same result on a string and on its upper-cased spelling. */
  lemma Mod97IgnoresCase(s: seq<Byte>)
    ensures Mod97(ToUpperString(s)) == Mod97(s)
  {
    FoldIgnoresCase(s, 0, 0);
  }

  /** So `try_from` accepts a string iff it accepts its upper-cased spelling. */
  lemma TryFromIgnoresCase(s: seq<Byte>)
    ensures TryFrom(ToUpperString(s)).Ok? <==> TryFrom(s).Ok?
  {
    Mod97IgnoresCase(s);
  }

  /** The fold's intermediate value fits in a `u32`: it is at most 96 * 100 + 35. */
  lemma StepFitsInU32(acc: nat, digit: nat)
    requires acc < Iso7064.Modulus && digit < 36
    ensures acc * (if digit > 9 then 100 else 10) + digit <= 9635 < 0x1_0000_0000
  {
  }

  /** Digit values distribute over concatenation. */
  lemma DigitValuesAppend(a: seq<Byte>, b: seq<Byte>)
    requires forall j :: 0 <= j < |a| ==> IsBase36(a[j])
    requires forall j :: 0 <= j < |b| ==> IsBase36(b[j])
    ensures forall j :: 0 <= j < |a + b| ==> IsBase36((a + b)[j])
    ensures DigitValues(a + b) == DigitValues(a) + DigitValues(b)
  {
    assert forall j :: 0 <= j < |a + b| ==> (a + b)[j] == if j < |a| then a[j] else b[j - |a|];
  }

  /**
   * A 20-byte string that starts with `prefix + "00" + infix` splits back
   * into those fields, and it is upper-case alphanumeric when they and its
   * last two bytes are.
   */
  lemma SplitFields(prefix: seq<Byte>, infix: seq<Byte>, lei: seq<Byte>)
    requires |prefix| == 4 && |infix| == 12 && |lei| == LeiLength
    requires lei[..18] == prefix + "00" + infix
    ensures lei[..4] == prefix && lei[4..6] == "00" && lei[6..18] == infix
    ensures (forall j :: 0 <= j < 4 ==> IsUpperAlphanumeric(prefix[j]))
      && (forall j :: 0 <= j < 12 ==> IsUpperAlphanumeric(infix[j]))
      && IsDecimalDigit(lei[18]) && IsDecimalDigit(lei[19])
      ==> forall j :: 0 <= j < |lei| ==> IsUpperAlphanumeric(lei[j])
  {
    assert forall j :: 0 <= j < 18 ==> lei[j] == lei[..18][j];
    assert forall j :: 0 <= j < 4 ==> lei[j] == prefix[j];
    assert forall j :: 6 <= j < 18 ==> lei[j] == infix[j - 6];
  }

  /**
   * The check-digit computation of `LEI::random`: the placeholder string
   * `base + "00"` has a residue `R`, `98 - R` lies in 2..98, and writing it
   * with two digits in place of the placeholder zeros gives residue 1.
   */
  lemma {:induction false} RandomChecksum(base: seq<Byte>)
    requires forall j :: 0 <= j < |base| ==> IsBase36(base[j])
    ensures Mod97(base + "00").Ok?
    ensures var c := 98 - Mod97(base + "00").value;
      && 2 <= c <= 98
      && Mod97(base + [DigitChar(c / 10), DigitChar(c % 10)]) == Ok(1)
  {
    var ds := DigitValues(base);
    var zeros: seq<Byte> := "00";
    assert DigitValues(zeros) == [0, 0];
    DigitValuesAppend(base, zeros);
    Mod97IsResidue(base + zeros);
    Iso7064.CheckDigits(ds);
    var c := 98 - Iso7064.Residue(ds + [0, 0]);
    var check := [DigitChar(c / 10), DigitChar(c % 10)];
    assert DigitValues(check) == [c / 10, c % 10];
    DigitValuesAppend(base, check);
    Mod97IsResidue(base + check);
  }

  /**
   * `base` followed by the two check digits `LEI::random` writes with
   * `{:02}`: the result keeps `base`, ends in two decimal digits whose value
   * lies in 2..98, and has MOD 97-10 residue 1.
   */
  function AppendCheckDigits(base: seq<Byte>): (r: seq<Byte>)
    requires forall j :: 0 <= j < |base| ==> IsBase36(base[j])
    ensures |r| == |base| + 2 && r[..|base|] == base
    ensures IsDecimalDigit(r[|base|]) && IsDecimalDigit(r[|base| + 1])
    ensures 2 <= 10 * ToDigit36(r[|base|]).value + ToDigit36(r[|base| + 1]).value <= 98
    ensures Mod97(r) == Ok(1)
  {
    RandomChecksum(base);
    var checksum := 98 - Mod97(base + "00").value;
    var check := Format02(checksum);
    assert check == [DigitChar(checksum / 10), DigitChar(checksum % 10)];
    assert (base + check)[..|base|] == base;
    base + check
  }

  /**
   * `LEI::random`, with the 4 + 12 bytes drawn from the `Alphanumeric`
   * distribution passed in: upper-case them, compute the residue `R` of
   * `prefix + "00" + infix + "00"`, append `98 - R` as two digits and parse.
   * The final `unwrap` cannot fail.
   */
  function Random(prefixDraws: seq<Byte>, infixDraws: seq<Byte>): (l: Lei)
    requires |prefixDraws| == 4 && |infixDraws| == 12
    requires forall j :: 0 <= j < |prefixDraws| ==> IsAlphanumeric(prefixDraws[j])
    requires forall j :: 0 <= j < |infixDraws| ==> IsAlphanumeric(infixDraws[j])
    ensures |l.lei| == LeiLength
    ensures forall j :: 0 <= j < |l.lei| ==> IsUpperAlphanumeric(l.lei[j])
    ensures l.lei[..4] == ToUpperString(prefixDraws)
    ensures l.lei[4..6] == "00"
    ensures l.lei[6..18] == ToUpperString(infixDraws)
    ensures IsDecimalDigit(l.lei[18]) && IsDecimalDigit(l.lei[19])
    ensures 2 <= 10 * ToDigit36(l.lei[18]).value + ToDigit36(l.lei[19]).value <= 98
    ensures TryFrom(Display(l)) == Ok(l)
  {
    var prefix := ToUpperString(prefixDraws);
    var infix := ToUpperString(infixDraws);
    var base := prefix + "00" + infix;
    assert forall j :: 0 <= j < |base| ==> IsBase36(base[j]);
    var lei := AppendCheckDigits(base);
    SplitFields(prefix, infix, lei);
    Lei(lei)
  }
}

/**
 * The older LEI type of src/lei.rs: the same MOD 97-10 fold, but a single
 * opaque `ParseLEIError`, a parser that also demands "00" in the two
 * reserved positions, and the `lou` and `entity` projections.
 */
module LeiRs {

  import opened Wrappers
  import opened Ascii
  import Iso7064
  import Lib

  /** `ParseLEIError`: every parse failure is the same value. */
  datatype ParseLeiError = ParseLeiError

  /** A Legal Entity Identifier as src/lei.rs stores it; only `FromStr` builds one. */
  datatype Lei = Lei(lei: seq<Byte>)

  /** What every `Lei` built by `FromStr` satisfies. */
  predicate Valid(l: Lei)
  {
    |l.lei| == Lib.LeiLength && l.lei[4..6] == "00" && Mod97(l.lei) == Ok(1)
  }

  /**
   * The `try_fold` of this file's `mod_97` from byte `i` on: the same step as
   * the crate root's (`Lib.Step`), but a byte that is not a base-36 digit
   * yields the bare `ParseLeiError`.
   */
  function Fold(s: seq<Byte>, i: nat, acc: nat): (r: Result<nat, ParseLeiError>)
    requires i <= |s| && acc < Iso7064.Modulus
    ensures r.Ok? ==> r.value < Iso7064.Modulus
    ensures r.Ok? <==> forall j :: i <= j < |s| ==> IsBase36(s[j])
    decreases |s| - i
  {
    if i == |s| then Ok(acc)
    else
      match ToDigit36(s[i])
      case Some(digit) => Fold(s, i + 1, Lib.Step(acc, digit))
      case None => Err(ParseLeiError)
  }

  /** `mod_97` of src/lei.rs. */
  function Mod97(s: seq<Byte>): (r: Result<nat, ParseLeiError>)
    ensures r.Ok? ==> r.value < Iso7064.Modulus
    ensures r.Ok? <==> forall j :: 0 <= j < |s| ==> IsBase36(s[j])
  {
    Fold(s, 0, 0)
  }

  /**
   * `validate_checksum`: `mod_97(s) == Ok(1)`. It agrees with the crate
   * root's, which maps an `InvalidChar` failure to false.
   */
  function ValidateChecksum(s: seq<Byte>): (r: bool)
    ensures r <==> Lib.ValidateChecksum(s)
    ensures r ==> forall j :: 0 <= j < |s| ==> IsBase36(s[j])
  {
    Mod97Agrees(s);
    Mod97(s) == Ok(1)
  }

  /**
   * `LEI::from_str`: length 20, then "00" at bytes 4..6, then the checksum,
   * evaluated left to right and short-circuiting like Rust's `&&`.
   */
  function FromStr(s: seq<Byte>): (r: Result<Lei, ParseLeiError>)
    ensures r.Ok? ==> r.value.lei == s && Valid(r.value)
    ensures r.Err? ==> r.error == ParseLeiError
  {
    if |s| == Lib.LeiLength && s[4..6] == "00" && ValidateChecksum(s) then Ok(Lei(s))
    else Err(ParseLeiError)
  }

  /** `LEI::lou`: the issuing Local Operating Unit, bytes 0..4. */
  function Lou(l: Lei): (r: seq<Byte>)
    requires |l.lei| == Lib.LeiLength
    ensures |r| == 4
  {
    l.lei[..4]
  }

  /** `LEI::entity`: the entity part, bytes 6..18. */
  function Entity(l: Lei): (r: seq<Byte>)
    requires |l.lei| == Lib.LeiLength
    ensures |r| == 12
  {
    l.lei[6..18]
  }

  /** `Display`: the stored string, unchanged; parsing it gives a valid LEI back. */
  function Display(l: Lei): (r: seq<Byte>)
    ensures Valid(l) ==> FromStr(r) == Ok(l)
  {
    l.lei
  }

  /** Both folds run in lock step: they succeed on the same inputs with the same residue. */
  lemma {:induction false} FoldAgrees(s: seq<Byte>, i: nat, acc: nat)
    requires i <= |s| && acc < Iso7064.Modulus
    ensures Fold(s, i, acc).Ok? == Lib.Fold(s, i, acc).Ok?
    ensures Fold(s, i, acc).Ok? ==> Fold(s, i, acc).value == Lib.Fold(s, i, acc).value
    decreases |s| - i
  {
    if i < |s| && IsBase36(s[i]) {
      FoldAgrees(s, i + 1, Lib.Step(acc, ToDigit36(s[i]).value));
    }
  }

  /**
   * This file's `mod_97` is the crate root's with the error detail dropped:
   * the same residue on success, `ParseLeiError` wherever the other reports
   * `InvalidChar`.
   */
  lemma Mod97Agrees(s: seq<Byte>)
    ensures Mod97(s) == match Lib.Mod97(s)
      case Ok(v) => Ok(v)
      case Err(_) => Err(ParseLeiError)
  {
    FoldAgrees(s, 0, 0);
    if Lib.Mod97(s).Ok? {
      assert Mod97(s) == Ok(Lib.Mod97(s).value);
    } else {
      assert Mod97(s) == Err(Mod97(s).error) && Mod97(s).error == ParseLeiError;
    }
  }

  /**
   * `from_str` succeeds exactly on 20-byte strings of base-36 digits with
   * "00" in the reserved positions and valid MOD 97-10 check digits.
   */
  lemma FromStrAccepts(s: seq<Byte>)
    ensures FromStr(s).Ok? <==>
      && |s| == Lib.LeiLength
      && s[4..6] == "00"
      && (forall j :: 0 <= j < |s| ==> IsBase36(s[j]))
      && Iso7064.HasValidCheck(Lib.DigitValues(s))
    ensures FromStr(s).Ok? ==> FromStr(s).value == Lei(s)
  {
    Mod97Agrees(s);
    Lib.TryFromAccepts(s);
  }

  /**
   * This parser is the crate root's `try_from` plus the reserved-field rule:
   * it accepts a string iff `try_from` does and bytes 4..6 are "00". So a
   * string with a valid checksum but another reserved field is rejected here
   * and accepted there.
   */
  lemma FromStrIsStricter(s: seq<Byte>)
    ensures FromStr(s).Ok? <==> Lib.TryFrom(s).Ok? && s[4..6] == "00"
  {
    Mod97Agrees(s);
  }

  /**
   * The projections split a parsed LEI into its fields: it is its LOU prefix,
   * the reserved "00", its entity part and the two check digits.
   */
  lemma ParsedFields(s: seq<Byte>)
    requires FromStr(s).Ok?
    ensures Lou(FromStr(s).value) == s[..4]
    ensures Entity(FromStr(s).value) == s[6..18]
    ensures s == Lou(FromStr(s).value) + "00" + Entity(FromStr(s).value) + s[18..]
  {
    assert s == s[..4] + s[4..6] + s[6..18] + s[18..];
  }

  /** Displaying a parsed LEI gives back the parsed string. */
  lemma DisplayRoundTrip(s: seq<Byte>)
    ensures FromStr(s).Ok? ==> Display(FromStr(s).value) == s
  {
  }

  /** Every LEI that the crate root's generator builds is also accepted by this stricter parser. */
  lemma RandomIsAccepted(prefixDraws: seq<Byte>, infixDraws: seq<Byte>)
    requires |prefixDraws| == 4 && |infixDraws| == 12
    requires forall j :: 0 <= j < |prefixDraws| ==> IsAlphanumeric(prefixDraws[j])
    requires forall j :: 0 <= j < |infixDraws| ==> IsAlphanumeric(infixDraws[j])
    ensures FromStr(Lib.Random(prefixDraws, infixDraws).lei).Ok?
  {
    FromStrIsStricter(Lib.Random(prefixDraws, infixDraws).lei);
  }
}

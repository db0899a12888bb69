# LEI: a verified model of the `lei` crate

This project models the Rust crate `lei` (21Analytics). The crate validates and generates
ISO 17442 Legal Entity Identifiers. An LEI is 20 characters:

- a 4-character LOU prefix (the issuing Local Operating Unit);
- 2 reserved characters;
- a 12-character entity part;
- 2 check digits of ISO/IEC 7064 MOD 97-10, the system IBAN also uses.

The model covers the crate's three components:

- `src/lib.rs` (module `Lib`): the `mod_97` checksum fold, `validate_checksum`,
  `TryFrom<&str> for LEI` with its `Error` enumeration, `Display`, and `LEI::random`. The
  random draws of `random` are passed in as parameters.
- `src/lei.rs` (module `LeiRs`): the older `LEI` type. It has a `mod_97` whose failures carry
  no detail, a `FromStr` parser that also demands "00" in the reserved positions, and the
  `lou` and `entity` projections.
- `src/registration_authority.rs` (module `RegistrationAuthority`): `is` and the 737-entry
  `REGISTRATION_AUTHORITIES` table, written row for row as the source writes it.

The supporting modules are:

- `Wrappers`: `Option` and `Result`.
- `Ascii`: the byte-level standard-library functions the code relies on. These are
  `to_digit(36)`, ASCII upper-casing and `{:02}` formatting.
- `Iso7064`: an independent reference definition of MOD 97-10. It reads a string of base-36
  digit values as one decimal numeral and takes that number modulo 97. The folds of both
  parsers are proved to compute exactly this.
- `Vectors`: the crate's unit tests and doc tests, stated and proved as lemmas.

Strings are byte sequences. `len()`, `as_bytes()` and `&s[a..b]` all count bytes in Rust. The
code reads each byte as `*c as char`, so a byte is modelled as a `char` below 256 (`Ascii.Byte`).

The code departs from the LEI standard in one place and from its own documentation in another; the model follows the code:

- ISO 17442 allows only upper-case letters and digits. `to_digit(36)` is case-insensitive, so
  `try_from` accepts a lower-case LEI and stores it in lower case (`Lib.Mod97IgnoresCase`, `Vectors.LowerCaseAccepted`).
- `Error::InvalidChar` is documented as a parse error (src/lib.rs:22, 31-33), but `try_from`
  never returns it. `validate_checksum` turns the failure into `false`, and a 20-byte input with
  a bad byte gets `InvalidChecksum` (`Lib.InvalidCharReportedAsChecksum`).

## Model

| member | source | states |
|---|---|---|
| Ascii.ToDigit36 | src/lib.rs:141-142 | `to_digit(36)` gives a digit exactly for `[0-9A-Za-z]`. The value is below 36, and it is below 10 exactly for a decimal digit. |
| Ascii.ToUpper | src/lib.rs:120 | Upper-casing maps an alphanumeric byte to `[0-9A-Z]`. It keeps its base-36 value and leaves every byte that is not a lower-case letter unchanged. |
| Ascii.ToUpperString | src/lib.rs:116-125 | `to_uppercase` keeps the length and upper-cases each byte in place. |
| Ascii.Format02 | src/lib.rs:128 | `{:02}` writes a number below 100 as exactly its tens digit and its units digit. |
| Iso7064.HornerStep | src/lib.rs:146-147 | Appending a base-36 digit `d` maps the MOD 97-10 residue `r` to `(r * m + d) % 97`, where `m` is 100 for `d > 9` and 10 otherwise. |
| Iso7064.CheckDigits | src/lib.rs:126-128 | If `ds` followed by "00" has residue `R`, then `98 - R` lies in 2..98. Writing its two digits in place of "00" gives residue 1. |
| Lib.Step | src/lib.rs:146-147 | One fold step always lands in `[0, 97)`. |
| Lib.StepFitsInU32 | src/lib.rs:146-147 | The intermediate value `acc * multiplier + digit` is at most 9635, so the `u32` arithmetic never overflows. |
| Lib.Fold | src/lib.rs:136-148 | The `try_fold` from byte `i` succeeds exactly when every later byte is base-36, and then returns a value below 97. On failure it reports the first bad byte, with its position and value. |
| Lib.Mod97 | src/lib.rs:136-148 | `mod_97` succeeds with a value below 97 exactly on all-base-36 input. Otherwise it returns `InvalidChar` for the first offending byte. |
| Lib.FoldIsResidue | src/lib.rs:136-148 | Started on the residue of the bytes before `i`, the fold returns the MOD 97-10 residue of the whole string. |
| Lib.Mod97IsResidue | src/lib.rs:136-148 | On base-36 input, `mod_97` is the ISO 7064 MOD 97-10 residue of the reference definition. |
| Lib.ValidateChecksum | src/lib.rs:132-134 | `validate_checksum` holds iff `mod_97` returns `Ok(1)`. An `InvalidChar` failure counts as false. |
| Lib.TryFrom | src/lib.rs:69-80 | A length other than 20 gives exactly `InvalidLength(len)`. For 20 bytes, the result is `Ok` iff `mod_97` is `Ok(1)`, and every failure is `InvalidChecksum`. On success the input is stored verbatim and is valid. |
| Lib.TryFromAccepts | src/lib.rs:69-80 | `try_from` succeeds iff the input has 20 bytes, all base-36, with valid MOD 97-10 check digits. It then keeps the input. |
| Lib.InvalidCharReportedAsChecksum | src/lib.rs:69-80 | For a 20-byte input with a non-base-36 byte, `mod_97` reports `InvalidChar` at or before that byte. `try_from` nevertheless returns `InvalidChecksum`. |
| Lib.Display | src/lib.rs:63-67 | Parsing the display of a valid LEI with `try_from` gives that LEI back. |
| Lib.DisplayRoundTrip | src/lib.rs:63-80 | `Display` of a LEI parsed by `try_from` is the parsed string. |
| Lib.FoldIgnoresCase | src/lib.rs:140-148 | From any position and accumulator, the fold gives the same result, residue or first invalid byte, on a string and on its upper-cased spelling. |
| Lib.Mod97IgnoresCase | src/lib.rs:136-149 | `mod_97` of a string equals `mod_97` of its upper-cased spelling. |
| Lib.TryFromIgnoresCase | src/lib.rs:69-80 | `try_from` accepts a string iff it accepts its upper-cased spelling. |
| Lib.RandomChecksum | src/lib.rs:126-128 | For any base-36 `base`, `98 - mod_97(base + "00")` lies in 2..98. `base` followed by its two digits has residue 1. |
| Lib.AppendCheckDigits | src/lib.rs:127-128 | Appending the computed check digits keeps `base` and adds two decimal digits with a value in 2..98. The result has residue 1. |
| Lib.Random | src/lib.rs:112-129 | For any 4 + 12 alphanumeric draws, `random` yields 20 upper-case alphanumeric bytes: the upper-cased prefix draws, "00", the upper-cased infix draws and two decimal check digits worth 2..98. `try_from` of its display returns it, so the final `unwrap` cannot fail. |
| LeiRs.Fold | src/lei.rs:53-62 | The fold of src/lei.rs succeeds exactly on all-base-36 input, with a value below 97. |
| LeiRs.Mod97 | src/lei.rs:53-62 | `mod_97` of src/lei.rs succeeds with a value below 97 exactly on all-base-36 input. |
| LeiRs.FoldAgrees | src/lei.rs:53-62 | The two folds succeed on the same inputs and give the same residue. |
| LeiRs.Mod97Agrees | src/lei.rs:53-62 | `mod_97` of src/lei.rs is that of src/lib.rs with every error replaced by `ParseLEIError`. |
| LeiRs.ValidateChecksum | src/lei.rs:49-51 | `validate_checksum` of src/lei.rs holds iff that of src/lib.rs does, and only on all-base-36 input. |
| LeiRs.FromStr | src/lei.rs:24-35 | On success the input is stored verbatim, and it has 20 bytes, "00" at 4..6 and residue 1. Every failure is the single `ParseLEIError`. |
| LeiRs.FromStrAccepts | src/lei.rs:24-35 | `from_str` succeeds iff the input has 20 bytes, "00" at bytes 4..6, all base-36, and valid MOD 97-10 check digits. |
| LeiRs.FromStrIsStricter | src/lei.rs:28 | `from_str` accepts a string iff `try_from` does and its reserved field is "00". |
| LeiRs.Lou | src/lei.rs:37-41 | `lou` returns 4 bytes. |
| LeiRs.Entity | src/lei.rs:43-46 | `entity` returns 12 bytes. |
| LeiRs.ParsedFields | src/lei.rs:37-46 | For a parsed LEI, `lou` is bytes 0..4 and `entity` is bytes 6..18. The string is `lou + "00" + entity` + check digits. |
| LeiRs.Display | src/lei.rs:18-22 | Parsing the display of a valid LEI with `from_str` gives that LEI back. |
| LeiRs.DisplayRoundTrip | src/lei.rs:18-34 | `Display` of a LEI parsed by `from_str` is the parsed string. |
| LeiRs.RandomIsAccepted | src/lib.rs:114-128 | Every generated LEI is also accepted by the stricter parser of src/lei.rs. |
| Vectors.Mod97Vectors | src/lib.rs:155-172 | `mod_97` of src/lib.rs gives these results: "" → 0, "1" → 1, "02" → 2, "96" → 96, "97" → 0, "98" → 1, "9799" → 2, "-1" → `InvalidChar(0, '-')`, "123#" → `InvalidChar(3, '#')`. |
| Vectors.LeiRsMod97Vectors | src/lei.rs:71-81 | `mod_97` of src/lei.rs gives the same residues, and `ParseLEIError` for "-1" and "123#". It also gives `ParseLEIError` for the 20 punctuation bytes that the `from_str` test at src/lei.rs:99 rejects. |
| Vectors.Parses2594007XIACKNMUAW223 | src/lib.rs:177 | 2594007XIACKNMUAW223 is accepted by both parsers and kept verbatim. |
| Vectors.FieldsOf2594007XIACKNMUAW223 | src/lei.rs:86-88 | `from_str` accepts it, and the parsed LEI's `lou` is "2594" and its `entity` is "7XIACKNMUAW2". |
| Vectors.Parses54930084UKLVMY22DS16 | src/lib.rs:179 | Accepted by both parsers. |
| Vectors.Parses213800WSGIIZCXF1P572 | src/lib.rs:180 | Accepted by both parsers. |
| Vectors.Parses5493000IBP32UQZ0KL24 | src/lib.rs:181 | Accepted by both parsers. |
| Vectors.ReservedFieldSplitsTheParsers | src/lib.rs:183 | RILFO74KP1CM8P6PCT96 is accepted by `try_from`. `from_str` rejects it, because its reserved field is "O7". |
| Vectors.Rejects2594007XIACKNMUAW224 | src/lib.rs:194-197 | Residue 2: `InvalidChecksum` from `try_from` and `ParseLEIError` from `from_str`. |
| Vectors.Rejects2594007XIACKNMUAW222 | src/lib.rs:9-12 | Residue 0: `InvalidChecksum`. |
| Vectors.Rejects2594017XIACKNMUAW223 | src/lei.rs:106-107 | Residue 76: rejected by both parsers. |
| Vectors.LowerCaseAccepted | src/lib.rs:141-142 | The lower-case spelling of a valid LEI is accepted by `try_from` and stored unchanged. |
| Vectors.WrongLengthsRejected | src/lib.rs:188-193 | "", the 19-byte string and the 21-byte string give `InvalidLength` with their own lengths. |
| Vectors.LeiRsMalformedRejected | src/lei.rs:96-103 | "", the punctuation string and the short and long strings give `ParseLEIError`. |
| RegistrationAuthority.Is | src/registration_authority.rs:1-4 | `is(s)` holds iff some entry of `RegistrationAuthorities`, the model of the `REGISTRATION_AUTHORITIES` array, equals `s`. The array's contents are stated by `TableSize`, `TableCodes`, `TableExcludesRA100001` and `DuplicatesIgnored`. |
| RegistrationAuthority.TableSize | src/registration_authority.rs:6-101 | The table has exactly 737 entries. |
| RegistrationAuthority.TableCodes | src/registration_authority.rs:6-101 | Every entry is "RA" followed by six decimal digits. |
| RegistrationAuthority.TableExcludesRA100001 | src/registration_authority.rs:6-101 | RA100001 is not an entry. |
| RegistrationAuthority.IsOnlyCodes | src/registration_authority.rs:1-4 | `is` holds only for strings of the form "RA" + six digits. |
| RegistrationAuthority.IsExact | src/registration_authority.rs:1-4 | The match is exact, with no case folding: "ra000001" and "RA00001" are rejected. |
| RegistrationAuthority.Placeholders | src/registration_authority.rs:107-111 | The placeholders RA888888 and RA999999 are accepted. |
| RegistrationAuthority.KnownAndUnknownCodes | src/registration_authority.rs:113-117 | RA000001 is accepted and RA100001 is not. |
| RegistrationAuthority.DuplicatesIgnored | src/registration_authority.rs:6-101 | The table has fewer distinct codes than entries, and `is(s)` is membership in the set of distinct codes. |

## Left out

- The serde `Serialize`/`Deserialize` implementations, the diesel `FromSql`/`ToSql`
  implementations and the `async_graphql` scalar (src/lib.rs:41-61, 82-109). `Deserialize` and
  `FromSql` call `try_from`; `Serialize`, `ToSql` and the GraphQL scalar emit the stored string,
  which is what `Display` writes.
- `rand::thread_rng` and the `Alphanumeric` distribution (src/lib.rs:115-125). The 4 + 12 drawn
  bytes are parameters of `Lib.Random`, constrained to `[0-9A-Za-z]`.
- The `thiserror` messages of `Error` and the `Display` of `ParseLEIError` (src/lib.rs:26-32,
  src/lei.rs:12-16). They are message text only.
- The panic of `&s[4..6]` in src/lei.rs:28 when byte 4 or 6 falls inside a multi-byte UTF-8
  character. The model compares bytes, so `LeiRs.FromStr` returns `ParseLEIError` there instead.
- `u32` arithmetic in the folds is modelled with unbounded integers. `Lib.StepFitsInU32`
  shows that no intermediate value exceeds 9635.
- `RegistrationAuthority.Is` works on `string` rather than on bytes. Equality of two Rust
  `&str` is byte equality, which is the same relation.
- The table's entries are grouped into blocks of four source lines (`Block1` … `Block23`) so the
  facts about them can be proved a block at a time. Their order and contents are those of the
  source.

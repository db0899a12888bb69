/**
 * The test vectors of src/lib.rs, src/lei.rs and their doc comments, proved
 * about the model. The 20-byte LEIs are checked by walking the fold one byte
 * at a time along its accumulator trace (`FoldStep`).
 */
module Vectors {

  import opened Wrappers
  import opened Ascii
  import Lib
  import LeiRs

  /** One step of `mod_97`'s fold, with the digit and the next accumulator supplied. */
  lemma FoldStep(s: seq<Byte>, i: nat, acc: nat, digit: nat, next: nat)
    requires i < |s| && acc < 97
    requires ToDigit36(s[i]) == Some(digit) && Lib.Step(acc, digit) == next
    ensures Lib.Fold(s, i, acc) == Lib.Fold(s, i + 1, next)
  {
  }

  /** The first five bytes 25940, shared by several vectors. */
  lemma Trace25940(s: seq<Byte>)
    requires |s| == 20 && s[0] == '2' && s[1] == '5' && s[2] == '9' && s[3] == '4' && s[4] == '0'
    ensures Lib.Fold(s, 0, 0) == Lib.Fold(s, 5, 41)
  {
    FoldStep(s, 4, 72, 0, 41);
    FoldStep(s, 3, 65, 4, 72);
    FoldStep(s, 2, 25, 9, 65);
    FoldStep(s, 1, 2, 5, 25);
    FoldStep(s, 0, 0, 2, 2);
  }

  lemma Trace2594007XIACKNMUAW22Part2(s: seq<Byte>)
    requires |s| == 20 && s[5] == '0' && s[6] == '7' && s[7] == 'X' && s[8] == 'I' && s[9] == 'A'
    ensures Lib.Fold(s, 5, 41) == Lib.Fold(s, 10, 88)
  {
    FoldStep(s, 9, 26, 10, 88);
    FoldStep(s, 8, 35, 18, 26);
    FoldStep(s, 7, 33, 33, 35);
    FoldStep(s, 6, 22, 7, 33);
    FoldStep(s, 5, 41, 0, 22);
  }

  lemma Trace2594007XIACKNMUAW22Part3(s: seq<Byte>)
    requires |s| == 20 && s[10] == 'C' && s[11] == 'K' && s[12] == 'N' && s[13] == 'M' && s[14] == 'U'
    ensures Lib.Fold(s, 10, 88) == Lib.Fold(s, 15, 16)
  {
    FoldStep(s, 14, 60, 30, 16);
    FoldStep(s, 13, 45, 22, 60);
    FoldStep(s, 12, 72, 23, 45);
    FoldStep(s, 11, 82, 20, 72);
    FoldStep(s, 10, 88, 12, 82);
  }

  lemma Trace2594007XIACKNMUAW22Part4(s: seq<Byte>)
    requires |s| == 20 && s[15] == 'A' && s[16] == 'W' && s[17] == '2' && s[18] == '2'
    ensures Lib.Fold(s, 15, 16) == Lib.Fold(s, 19, 58)
  {
    FoldStep(s, 18, 25, 2, 58);
    FoldStep(s, 17, 12, 2, 25);
    FoldStep(s, 16, 58, 32, 12);
    FoldStep(s, 15, 16, 10, 58);
  }

  /** The fold over the first 19 bytes of 2594007XIACKNMUAW22x ends with accumulator 58. */
  lemma Trace2594007XIACKNMUAW22(s: seq<Byte>)
    requires |s| == 20
    requires s[0] == '2' && s[1] == '5' && s[2] == '9' && s[3] == '4' && s[4] == '0'
    requires s[5] == '0' && s[6] == '7' && s[7] == 'X' && s[8] == 'I' && s[9] == 'A'
    requires s[10] == 'C' && s[11] == 'K' && s[12] == 'N' && s[13] == 'M' && s[14] == 'U'
    requires s[15] == 'A' && s[16] == 'W' && s[17] == '2' && s[18] == '2'
    ensures Lib.Fold(s, 0, 0) == Lib.Fold(s, 19, 58)
  {
    Trace25940(s);
    Trace2594007XIACKNMUAW22Part2(s);
    Trace2594007XIACKNMUAW22Part3(s);
    Trace2594007XIACKNMUAW22Part4(s);
  }

  /** The first five bytes 54930, shared by two vectors. */
  lemma Trace54930(s: seq<Byte>)
    requires |s| == 20 && s[0] == '5' && s[1] == '4' && s[2] == '9' && s[3] == '3' && s[4] == '0'
    ensures Lib.Fold(s, 0, 0) == Lib.Fold(s, 5, 28)
  {
    FoldStep(s, 4, 61, 0, 28);
    FoldStep(s, 3, 64, 3, 61);
    FoldStep(s, 2, 54, 9, 64);
    FoldStep(s, 1, 5, 4, 54);
    FoldStep(s, 0, 0, 5, 5);
  }

  lemma Trace54930084UKLVMY22DS16Part2(s: seq<Byte>)
    requires |s| == 20 && s[5] == '0' && s[6] == '8' && s[7] == '4' && s[8] == 'U' && s[9] == 'K'
    ensures Lib.Fold(s, 5, 28) == Lib.Fold(s, 10, 84)
  {
    FoldStep(s, 9, 86, 20, 84);
    FoldStep(s, 8, 51, 30, 86);
    FoldStep(s, 7, 92, 4, 51);
    FoldStep(s, 6, 86, 8, 92);
    FoldStep(s, 5, 28, 0, 86);
  }

  lemma Trace54930084UKLVMY22DS16Part3(s: seq<Byte>)
    requires |s| == 20 && s[10] == 'L' && s[11] == 'V' && s[12] == 'M' && s[13] == 'Y' && s[14] == '2'
    ensures Lib.Fold(s, 10, 84) == Lib.Fold(s, 15, 96)
  {
    FoldStep(s, 14, 87, 2, 96);
    FoldStep(s, 13, 50, 34, 87);
    FoldStep(s, 12, 74, 22, 50);
    FoldStep(s, 11, 79, 31, 74);
    FoldStep(s, 10, 84, 21, 79);
  }

  lemma Trace54930084UKLVMY22DS16Part4(s: seq<Byte>)
    requires |s| == 20 && s[15] == '2' && s[16] == 'D' && s[17] == 'S' && s[18] == '1' && s[19] == '6'
    ensures Lib.Fold(s, 15, 96) == Lib.Fold(s, 20, 1)
  {
    FoldStep(s, 19, 48, 6, 1);
    FoldStep(s, 18, 92, 1, 48);
    FoldStep(s, 17, 86, 28, 92);
    FoldStep(s, 16, 89, 13, 86);
    FoldStep(s, 15, 96, 2, 89);
  }

  /** The fold over 54930084UKLVMY22DS16 ends with accumulator 1. */
  lemma Trace54930084UKLVMY22DS16(s: seq<Byte>)
    requires |s| == 20
    requires s[0] == '5' && s[1] == '4' && s[2] == '9' && s[3] == '3' && s[4] == '0'
    requires s[5] == '0' && s[6] == '8' && s[7] == '4' && s[8] == 'U' && s[9] == 'K'
    requires s[10] == 'L' && s[11] == 'V' && s[12] == 'M' && s[13] == 'Y' && s[14] == '2'
    requires s[15] == '2' && s[16] == 'D' && s[17] == 'S' && s[18] == '1' && s[19] == '6'
    ensures Lib.Mod97(s) == Ok(1)
  {
    Trace54930(s);
    Trace54930084UKLVMY22DS16Part2(s);
    Trace54930084UKLVMY22DS16Part3(s);
    Trace54930084UKLVMY22DS16Part4(s);
  }

  lemma Trace213800WSGIIZCXF1P572Part1(s: seq<Byte>)
    requires |s| == 20 && s[0] == '2' && s[1] == '1' && s[2] == '3' && s[3] == '8' && s[4] == '0'
    ensures Lib.Fold(s, 0, 0) == Lib.Fold(s, 5, 40)
  {
    FoldStep(s, 4, 4, 0, 40);
    FoldStep(s, 3, 19, 8, 4);
    FoldStep(s, 2, 21, 3, 19);
    FoldStep(s, 1, 2, 1, 21);
    FoldStep(s, 0, 0, 2, 2);
  }

  lemma Trace213800WSGIIZCXF1P572Part2(s: seq<Byte>)
    requires |s| == 20 && s[5] == '0' && s[6] == 'W' && s[7] == 'S' && s[8] == 'G' && s[9] == 'I'
    ensures Lib.Fold(s, 5, 40) == Lib.Fold(s, 10, 20)
  {
    FoldStep(s, 9, 33, 18, 20);
    FoldStep(s, 8, 38, 16, 33);
    FoldStep(s, 7, 68, 28, 38);
    FoldStep(s, 6, 12, 32, 68);
    FoldStep(s, 5, 40, 0, 12);
  }

  lemma Trace213800WSGIIZCXF1P572Part3(s: seq<Byte>)
    requires |s| == 20 && s[10] == 'I' && s[11] == 'Z' && s[12] == 'C' && s[13] == 'X' && s[14] == 'F'
    ensures Lib.Fold(s, 10, 20) == Lib.Fold(s, 15, 16)
  {
    FoldStep(s, 14, 65, 15, 16);
    FoldStep(s, 13, 43, 33, 65);
    FoldStep(s, 12, 75, 12, 43);
    FoldStep(s, 11, 78, 35, 75);
    FoldStep(s, 10, 20, 18, 78);
  }

  lemma Trace213800WSGIIZCXF1P572Part4(s: seq<Byte>)
    requires |s| == 20 && s[15] == '1' && s[16] == 'P' && s[17] == '5' && s[18] == '7' && s[19] == '2'
    ensures Lib.Fold(s, 15, 16) == Lib.Fold(s, 20, 1)
  {
    FoldStep(s, 19, 29, 2, 1);
    FoldStep(s, 18, 41, 7, 29);
    FoldStep(s, 17, 23, 5, 41);
    FoldStep(s, 16, 64, 25, 23);
    FoldStep(s, 15, 16, 1, 64);
  }

  /** The fold over 213800WSGIIZCXF1P572 ends with accumulator 1. */
  lemma Trace213800WSGIIZCXF1P572(s: seq<Byte>)
    requires |s| == 20
    requires s[0] == '2' && s[1] == '1' && s[2] == '3' && s[3] == '8' && s[4] == '0'
    requires s[5] == '0' && s[6] == 'W' && s[7] == 'S' && s[8] == 'G' && s[9] == 'I'
    requires s[10] == 'I' && s[11] == 'Z' && s[12] == 'C' && s[13] == 'X' && s[14] == 'F'
    requires s[15] == '1' && s[16] == 'P' && s[17] == '5' && s[18] == '7' && s[19] == '2'
    ensures Lib.Mod97(s) == Ok(1)
  {
    Trace213800WSGIIZCXF1P572Part1(s);
    Trace213800WSGIIZCXF1P572Part2(s);
    Trace213800WSGIIZCXF1P572Part3(s);
    Trace213800WSGIIZCXF1P572Part4(s);
  }

  lemma Trace5493000IBP32UQZ0KL24Part2(s: seq<Byte>)
    requires |s| == 20 && s[5] == '0' && s[6] == '0' && s[7] == 'I' && s[8] == 'B' && s[9] == 'P'
    ensures Lib.Fold(s, 5, 28) == Lib.Fold(s, 10, 63)
  {
    FoldStep(s, 9, 45, 25, 63);
    FoldStep(s, 8, 76, 11, 45);
    FoldStep(s, 7, 84, 18, 76);
    FoldStep(s, 6, 86, 0, 84);
    FoldStep(s, 5, 28, 0, 86);
  }

  lemma Trace5493000IBP32UQZ0KL24Part3(s: seq<Byte>)
    requires |s| == 20 && s[10] == '3' && s[11] == '2' && s[12] == 'U' && s[13] == 'Q' && s[14] == 'Z'
    ensures Lib.Fold(s, 10, 63) == Lib.Fold(s, 15, 45)
  {
    FoldStep(s, 14, 68, 35, 45);
    FoldStep(s, 13, 14, 26, 68);
    FoldStep(s, 12, 27, 30, 14);
    FoldStep(s, 11, 51, 2, 27);
    FoldStep(s, 10, 63, 3, 51);
  }

  lemma Trace5493000IBP32UQZ0KL24Part4(s: seq<Byte>)
    requires |s| == 20 && s[15] == '0' && s[16] == 'K' && s[17] == 'L' && s[18] == '2' && s[19] == '4'
    ensures Lib.Fold(s, 15, 45) == Lib.Fold(s, 20, 1)
  {
    FoldStep(s, 19, 87, 4, 1);
    FoldStep(s, 18, 57, 2, 87);
    FoldStep(s, 17, 12, 21, 57);
    FoldStep(s, 16, 62, 20, 12);
    FoldStep(s, 15, 45, 0, 62);
  }

  /** The fold over 5493000IBP32UQZ0KL24 ends with accumulator 1. */
  lemma Trace5493000IBP32UQZ0KL24(s: seq<Byte>)
    requires |s| == 20
    requires s[0] == '5' && s[1] == '4' && s[2] == '9' && s[3] == '3' && s[4] == '0'
    requires s[5] == '0' && s[6] == '0' && s[7] == 'I' && s[8] == 'B' && s[9] == 'P'
    requires s[10] == '3' && s[11] == '2' && s[12] == 'U' && s[13] == 'Q' && s[14] == 'Z'
    requires s[15] == '0' && s[16] == 'K' && s[17] == 'L' && s[18] == '2' && s[19] == '4'
    ensures Lib.Mod97(s) == Ok(1)
  {
    Trace54930(s);
    Trace5493000IBP32UQZ0KL24Part2(s);
    Trace5493000IBP32UQZ0KL24Part3(s);
    Trace5493000IBP32UQZ0KL24Part4(s);
  }

  lemma TraceRILFO74KP1CM8P6PCT96Part1(s: seq<Byte>)
    requires |s| == 20 && s[0] == 'R' && s[1] == 'I' && s[2] == 'L' && s[3] == 'F' && s[4] == 'O'
    ensures Lib.Fold(s, 0, 0) == Lib.Fold(s, 5, 21)
  {
    FoldStep(s, 4, 96, 24, 21);
    FoldStep(s, 3, 27, 15, 96);
    FoldStep(s, 2, 2, 21, 27);
    FoldStep(s, 1, 27, 18, 2);
    FoldStep(s, 0, 0, 27, 27);
  }

  lemma TraceRILFO74KP1CM8P6PCT96Part2(s: seq<Byte>)
    requires |s| == 20 && s[5] == '7' && s[6] == '4' && s[7] == 'K' && s[8] == 'P' && s[9] == '1'
    ensures Lib.Fold(s, 5, 21) == Lib.Fold(s, 10, 86)
  {
    FoldStep(s, 9, 57, 1, 86);
    FoldStep(s, 8, 43, 25, 57);
    FoldStep(s, 7, 40, 20, 43);
    FoldStep(s, 6, 23, 4, 40);
    FoldStep(s, 5, 21, 7, 23);
  }

  lemma TraceRILFO74KP1CM8P6PCT96Part3(s: seq<Byte>)
    requires |s| == 20 && s[10] == 'C' && s[11] == 'M' && s[12] == '8' && s[13] == 'P' && s[14] == '6'
    ensures Lib.Fold(s, 10, 86) == Lib.Fold(s, 15, 30)
  {
    FoldStep(s, 14, 80, 6, 30);
    FoldStep(s, 13, 83, 25, 80);
    FoldStep(s, 12, 56, 8, 83);
    FoldStep(s, 11, 76, 22, 56);
    FoldStep(s, 10, 86, 12, 76);
  }

  lemma TraceRILFO74KP1CM8P6PCT96Part4(s: seq<Byte>)
    requires |s| == 20 && s[15] == 'P' && s[16] == 'C' && s[17] == 'T' && s[18] == '9' && s[19] == '6'
    ensures Lib.Fold(s, 15, 30) == Lib.Fold(s, 20, 1)
  {
    FoldStep(s, 19, 48, 6, 1);
    FoldStep(s, 18, 33, 9, 48);
    FoldStep(s, 17, 66, 29, 33);
    FoldStep(s, 16, 18, 12, 66);
    FoldStep(s, 15, 30, 25, 18);
  }

  /** The fold over RILFO74KP1CM8P6PCT96 ends with accumulator 1. */
  lemma TraceRILFO74KP1CM8P6PCT96(s: seq<Byte>)
    requires |s| == 20
    requires s[0] == 'R' && s[1] == 'I' && s[2] == 'L' && s[3] == 'F' && s[4] == 'O'
    requires s[5] == '7' && s[6] == '4' && s[7] == 'K' && s[8] == 'P' && s[9] == '1'
    requires s[10] == 'C' && s[11] == 'M' && s[12] == '8' && s[13] == 'P' && s[14] == '6'
    requires s[15] == 'P' && s[16] == 'C' && s[17] == 'T' && s[18] == '9' && s[19] == '6'
    ensures Lib.Mod97(s) == Ok(1)
  {
    TraceRILFO74KP1CM8P6PCT96Part1(s);
    TraceRILFO74KP1CM8P6PCT96Part2(s);
    TraceRILFO74KP1CM8P6PCT96Part3(s);
    TraceRILFO74KP1CM8P6PCT96Part4(s);
  }

  lemma Trace2594017XIACKNMUAW223Part2(s: seq<Byte>)
    requires |s| == 20 && s[5] == '1' && s[6] == '7' && s[7] == 'X' && s[8] == 'I' && s[9] == 'A'
    ensures Lib.Fold(s, 5, 41) == Lib.Fold(s, 10, 67)
  {
    FoldStep(s, 9, 19, 10, 67);
    FoldStep(s, 8, 65, 18, 19);
    FoldStep(s, 7, 43, 33, 65);
    FoldStep(s, 6, 23, 7, 43);
    FoldStep(s, 5, 41, 1, 23);
  }

  lemma Trace2594017XIACKNMUAW223Part3(s: seq<Byte>)
    requires |s| == 20 && s[10] == 'C' && s[11] == 'K' && s[12] == 'N' && s[13] == 'M' && s[14] == 'U'
    ensures Lib.Fold(s, 10, 67) == Lib.Fold(s, 15, 54)
  {
    FoldStep(s, 14, 8, 30, 54);
    FoldStep(s, 13, 60, 22, 8);
    FoldStep(s, 12, 77, 23, 60);
    FoldStep(s, 11, 19, 20, 77);
    FoldStep(s, 10, 67, 12, 19);
  }

  lemma Trace2594017XIACKNMUAW223Part4(s: seq<Byte>)
    requires |s| == 20 && s[15] == 'A' && s[16] == 'W' && s[17] == '2' && s[18] == '2' && s[19] == '3'
    ensures Lib.Fold(s, 15, 54) == Lib.Fold(s, 20, 76)
  {
    FoldStep(s, 19, 17, 3, 76);
    FoldStep(s, 18, 50, 2, 17);
    FoldStep(s, 17, 63, 2, 50);
    FoldStep(s, 16, 75, 32, 63);
    FoldStep(s, 15, 54, 10, 75);
  }

  /** The fold over 2594017XIACKNMUAW223 ends with accumulator 76. */
  lemma Trace2594017XIACKNMUAW223(s: seq<Byte>)
    requires |s| == 20
    requires s[0] == '2' && s[1] == '5' && s[2] == '9' && s[3] == '4' && s[4] == '0'
    requires s[5] == '1' && s[6] == '7' && s[7] == 'X' && s[8] == 'I' && s[9] == 'A'
    requires s[10] == 'C' && s[11] == 'K' && s[12] == 'N' && s[13] == 'M' && s[14] == 'U'
    requires s[15] == 'A' && s[16] == 'W' && s[17] == '2' && s[18] == '2' && s[19] == '3'
    ensures Lib.Mod97(s) == Ok(76)
  {
    Trace25940(s);
    Trace2594017XIACKNMUAW223Part2(s);
    Trace2594017XIACKNMUAW223Part3(s);
    Trace2594017XIACKNMUAW223Part4(s);
  }

  /** The residues and error positions of `test_mod_97` in src/lib.rs. */
  lemma Mod97Vectors()
    ensures Lib.Mod97("") == Ok(0)
    ensures Lib.Mod97("1") == Ok(1)
    ensures Lib.Mod97("02") == Ok(2)
    ensures Lib.Mod97("96") == Ok(96)
    ensures Lib.Mod97("97") == Ok(0)
    ensures Lib.Mod97("98") == Ok(1)
    ensures Lib.Mod97("9799") == Ok(2)
    ensures Lib.Mod97("-1") == Err(Lib.InvalidChar(0, '-'))
    ensures Lib.Mod97("123#") == Err(Lib.InvalidChar(3, '#'))
  {
  }

  /** The same vectors for the `mod_97` of src/lei.rs, whose failures carry no detail. */
  lemma LeiRsMod97Vectors()
    ensures LeiRs.Mod97("") == Ok(0)
    ensures LeiRs.Mod97("1") == Ok(1)
    ensures LeiRs.Mod97("02") == Ok(2)
    ensures LeiRs.Mod97("96") == Ok(96)
    ensures LeiRs.Mod97("97") == Ok(0)
    ensures LeiRs.Mod97("98") == Ok(1)
    ensures LeiRs.Mod97("9799") == Ok(2)
    ensures LeiRs.Mod97("-1") == Err(LeiRs.ParseLeiError)
    ensures LeiRs.Mod97("123#") == Err(LeiRs.ParseLeiError)
    ensures LeiRs.Mod97("#@%$^#%$#%#@%$^#%$#%") == Err(LeiRs.ParseLeiError)
  {
  }

  /** The published LEI 2594007XIACKNMUAW223 is accepted by both parsers and kept verbatim. */
  lemma Parses2594007XIACKNMUAW223(s: seq<Byte>)
    requires s == "2594007XIACKNMUAW223"
    ensures Lib.TryFrom(s) == Ok(Lib.Lei(s))
    ensures LeiRs.FromStr(s) == Ok(LeiRs.Lei(s))
  {
    Trace2594007XIACKNMUAW22(s);
    FoldStep(s, 19, 58, 3, 1);
    LeiRs.FromStrIsStricter(s);
  }

  /** `test_lou` and `test_entity`: the LOU prefix of 2594007XIACKNMUAW223 is 2594, its entity part 7XIACKNMUAW2. */
  lemma FieldsOf2594007XIACKNMUAW223(s: seq<Byte>)
    requires s == "2594007XIACKNMUAW223"
    ensures LeiRs.FromStr(s).Ok?
    ensures LeiRs.Lou(LeiRs.FromStr(s).value) == "2594"
    ensures LeiRs.Entity(LeiRs.FromStr(s).value) == "7XIACKNMUAW2"
  {
    Parses2594007XIACKNMUAW223(s);
  }

  /** The published LEI 54930084UKLVMY22DS16 is accepted by both parsers and kept verbatim. */
  lemma Parses54930084UKLVMY22DS16(s: seq<Byte>)
    requires s == "54930084UKLVMY22DS16"
    ensures Lib.TryFrom(s) == Ok(Lib.Lei(s))
    ensures LeiRs.FromStr(s) == Ok(LeiRs.Lei(s))
  {
    Trace54930084UKLVMY22DS16(s);
    LeiRs.FromStrIsStricter(s);
  }

  /** The published LEI 213800WSGIIZCXF1P572 is accepted by both parsers and kept verbatim. */
  lemma Parses213800WSGIIZCXF1P572(s: seq<Byte>)
    requires s == "213800WSGIIZCXF1P572"
    ensures Lib.TryFrom(s) == Ok(Lib.Lei(s))
    ensures LeiRs.FromStr(s) == Ok(LeiRs.Lei(s))
  {
    Trace213800WSGIIZCXF1P572(s);
    LeiRs.FromStrIsStricter(s);
  }

  /** The published LEI 5493000IBP32UQZ0KL24 is accepted by both parsers and kept verbatim. */
  lemma Parses5493000IBP32UQZ0KL24(s: seq<Byte>)
    requires s == "5493000IBP32UQZ0KL24"
    ensures Lib.TryFrom(s) == Ok(Lib.Lei(s))
    ensures LeiRs.FromStr(s) == Ok(LeiRs.Lei(s))
  {
    Trace5493000IBP32UQZ0KL24(s);
    LeiRs.FromStrIsStricter(s);
  }

  /**
   * The published LEI RILFO74KP1CM8P6PCT96 has valid check digits but "O7"
   * in the reserved positions: the crate root accepts it, the stricter parser
   * of src/lei.rs does not.
   */
  lemma ReservedFieldSplitsTheParsers(s: seq<Byte>)
    requires s == "RILFO74KP1CM8P6PCT96"
    ensures Lib.TryFrom(s) == Ok(Lib.Lei(s))
    ensures LeiRs.FromStr(s) == Err(LeiRs.ParseLeiError)
  {
    TraceRILFO74KP1CM8P6PCT96(s);
  }

  /**
   * Raising the last check digit of 2594007XIACKNMUAW223 by one is caught:
   * the residue becomes 2, `try_from` reports `InvalidChecksum` and
   * `from_str` fails.
   */
  lemma Rejects2594007XIACKNMUAW224(s: seq<Byte>)
    requires s == "2594007XIACKNMUAW224"
    ensures Lib.Mod97(s) == Ok(2)
    ensures Lib.TryFrom(s) == Err(Lib.InvalidChecksum)
    ensures LeiRs.FromStr(s) == Err(LeiRs.ParseLeiError)
  {
    Trace2594007XIACKNMUAW22(s);
    FoldStep(s, 19, 58, 4, 2);
    LeiRs.FromStrIsStricter(s);
  }

  /** Lowering the last check digit by one is caught too: the residue becomes 0. */
  lemma Rejects2594007XIACKNMUAW222(s: seq<Byte>)
    requires s == "2594007XIACKNMUAW222"
    ensures Lib.Mod97(s) == Ok(0)
    ensures Lib.TryFrom(s) == Err(Lib.InvalidChecksum)
  {
    Trace2594007XIACKNMUAW22(s);
    FoldStep(s, 19, 58, 2, 0);
  }

  /**
   * 2594017XIACKNMUAW223 has "01" in the reserved positions, which alone makes
   * `from_str` fail; its residue is 76, so `try_from` rejects it as well.
   */
  lemma Rejects2594017XIACKNMUAW223(s: seq<Byte>)
    requires s == "2594017XIACKNMUAW223"
    ensures Lib.Mod97(s) == Ok(76)
    ensures Lib.TryFrom(s) == Err(Lib.InvalidChecksum)
    ensures LeiRs.FromStr(s) == Err(LeiRs.ParseLeiError)
  {
    Trace2594017XIACKNMUAW223(s);
  }

  /**
   * `to_digit(36)` is case-insensitive, so `try_from` accepts the lower-case
   * spelling of a valid LEI and stores it in lower case.
   */
  lemma LowerCaseAccepted(s: seq<Byte>)
    requires s == "2594007xiacknmuaw223"
    ensures Lib.TryFrom(s) == Ok(Lib.Lei(s))
  {
    LowerCaseTrace(s);
  }

  /** The lower-case spelling folds like the upper-case one, by `Lib.Mod97IgnoresCase`. */
  lemma LowerCaseTrace(s: seq<Byte>)
    requires |s| == 20
    requires s[0] == '2' && s[1] == '5' && s[2] == '9' && s[3] == '4' && s[4] == '0'
    requires s[5] == '0' && s[6] == '7' && s[7] == 'x' && s[8] == 'i' && s[9] == 'a'
    requires s[10] == 'c' && s[11] == 'k' && s[12] == 'n' && s[13] == 'm' && s[14] == 'u'
    requires s[15] == 'a' && s[16] == 'w' && s[17] == '2' && s[18] == '2' && s[19] == '3'
    ensures Lib.Mod97(s) == Ok(1)
  {
    var u := ToUpperString(s);
    assert u[7] == ToUpper(s[7]) == 'X' && u[8] == ToUpper(s[8]) == 'I' && u[9] == ToUpper(s[9]) == 'A';
    assert u[10] == ToUpper(s[10]) == 'C' && u[11] == ToUpper(s[11]) == 'K' && u[12] == ToUpper(s[12]) == 'N';
    assert u[13] == ToUpper(s[13]) == 'M' && u[14] == ToUpper(s[14]) == 'U';
    assert u[15] == ToUpper(s[15]) == 'A' && u[16] == ToUpper(s[16]) == 'W';
    assert u[19] == ToUpper(s[19]) == '3';
    Trace2594007XIACKNMUAW22(u);
    FoldStep(u, 19, 58, 3, 1);
    Lib.Mod97IgnoresCase(s);
  }

  /** `test_malformed` in src/lib.rs: wrong lengths are reported with the observed length. */
  lemma WrongLengthsRejected()
    ensures Lib.TryFrom("") == Err(Lib.InvalidLength(0))
    ensures Lib.TryFrom("2594007XIACKNUAW223") == Err(Lib.InvalidLength(19))
    ensures Lib.TryFrom("2594007XIACKNUAW22334") == Err(Lib.InvalidLength(21))
  {
  }

  /**
   * `test_malformed` in src/lei.rs: the empty string, a 20-byte string of
   * punctuation and the strings of the wrong length all give `ParseLeiError`.
   */
  lemma LeiRsMalformedRejected(s: seq<Byte>)
    requires s in {"", "#@%$^#%$#%#@%$^#%$#%", "2594007XIACKNUAW223", "2594007XIACKNUAW22334"}
    ensures LeiRs.FromStr(s) == Err(LeiRs.ParseLeiError)
  {
  }
}
